/**
 * Permission resolution (backend/app/services/authz.py): the bulk set that scopes retrieval, the
 * point check that guards one document, and segment scoping (backend/app/api/v1/search.py).
 */
module Authz {
  import opened Wrappers
  import opened Store

  datatype Role = Owner | Admin | Member
  datatype Caller = Caller(tenant: Uuid, user: Uuid, role: Role)
  datatype Permission = View | Query | Delete | Review | Manage
  datatype PrincipalType = User | Group

  /** One `document_access_control` row. */
  datatype Grant = Grant(tenant: Uuid, document: Uuid, principalType: PrincipalType, principal: Uuid,
      permissions: seq<Permission>)
  datatype Membership = Membership(tenant: Uuid, group: Uuid, user: Uuid)
  datatype Tag = Tag(tenant: Uuid, document: Uuid, segment: Uuid)

  datatype Directory = Directory(documents: map<Uuid, DocumentRow>, grants: seq<Grant>, memberships: set<Membership>,
      tags: set<Tag>)

  predicate IsPrivileged(role: Role) {
    role == Owner || role == Admin
  }

  predicate IsVisibilityPermission(p: Permission) {
    p == View || p == Query
  }

  /** `user_group_ids`. */
  function UserGroups(d: Directory, tenant: Uuid, user: Uuid): set<Uuid> {
    set m | m in d.memberships && m.tenant == tenant && m.user == user :: m.group
  }

  /** `_grant_matches`. */
  predicate GrantMatches(g: Grant, user: Uuid, groups: set<Uuid>, p: Permission) {
    if p !in g.permissions then false
    else if g.principalType == User then g.principal == user
    else g.principal in groups
  }

  /** The `owned` query. */
  function OwnedIds(d: Directory, tenant: Uuid, user: Uuid): set<Uuid> {
    set id | id in d.documents && IsLive(d.documents, tenant, id) && d.documents[id].owner == user
  }

  /** The `rep_visible` query. */
  function RepVisibleIds(d: Directory, tenant: Uuid): set<Uuid> {
    set id | id in d.documents && IsLive(d.documents, tenant, id) && d.documents[id].visibility == RepVisible
  }

  /** Documents the tenant's grants give the user with this permission. */
  function GrantedIds(grants: seq<Grant>, tenant: Uuid, user: Uuid, groups: set<Uuid>, p: Permission): set<Uuid> {
    if grants == [] then {}
    else
      var last := grants[|grants| - 1];
      GrantedIds(grants[..|grants| - 1], tenant, user, groups, p)
        + if last.tenant == tenant && GrantMatches(last, user, groups, p) then {last.document} else {}
  }

  /** The bulk set as a union of its three sources. */
  function Accessible(d: Directory, tenant: Uuid, user: Uuid, role: Role, p: Permission): Access {
    if IsPrivileged(role) then None
    else Some(OwnedIds(d, tenant, user) + (if IsVisibilityPermission(p) then RepVisibleIds(d, tenant) else {})
              + GrantedIds(d.grants, tenant, user, UserGroups(d, tenant, user), p))
  }

  /** `accessible_document_ids`. */
  method AccessibleDocumentIds(d: Directory, tenant: Uuid, user: Uuid, role: Role, p: Permission) returns (r: Access)
    ensures r == Accessible(d, tenant, user, role, p)
  {
    if IsPrivileged(role) {
      return None;
    }
    var allowed := OwnedIds(d, tenant, user);
    if IsVisibilityPermission(p) {
      allowed := allowed + RepVisibleIds(d, tenant);
    }
    var groups := UserGroups(d, tenant, user);
    assert allowed == OwnedIds(d, tenant, user) + if IsVisibilityPermission(p) then RepVisibleIds(d, tenant) else {};
    allowed := AddGranted(allowed, d.grants, tenant, user, groups, p);
    return Some(allowed);
  }

  /** The loop over the tenant's grants. */
  method AddGranted(start: set<Uuid>, grants: seq<Grant>, tenant: Uuid, user: Uuid, groups: set<Uuid>, p: Permission)
    returns (allowed: set<Uuid>)
    ensures allowed == start + GrantedIds(grants, tenant, user, groups, p)
  {
    allowed := start;
    for i := 0 to |grants|
      invariant allowed == start + GrantedIds(grants[..i], tenant, user, groups, p)
    {
      var g := grants[i];
      if g.tenant == tenant && GrantMatches(g, user, groups, p) {
        allowed := allowed + {g.document};
      }
      assert grants[..i + 1][..i] == grants[..i];
    }
    assert grants[..|grants|] == grants;
  }

  /** Some grant of the tenant on this document gives the user the permission. */
  predicate IsGranted(d: Directory, tenant: Uuid, user: Uuid, document: Uuid, p: Permission) {
    exists g <- d.grants :: g.tenant == tenant && g.document == document
        && GrantMatches(g, user, UserGroups(d, tenant, user), p)
  }

  /** `can_access_document`. */
  predicate CanAccess(d: Directory, tenant: Uuid, user: Uuid, role: Role, document: Uuid, p: Permission) {
    if IsPrivileged(role) then true
    else if !IsLive(d.documents, tenant, document) then false
    else if d.documents[document].owner == user then true
    else if IsVisibilityPermission(p) && d.documents[document].visibility == RepVisible then true
    else IsGranted(d, tenant, user, document, p)
  }

  // ---------- Who may do what ----------

  /** A grant of the tenant gives the permission to the user or to a group the user is in. */
  ghost predicate HasGrant(d: Directory, tenant: Uuid, user: Uuid, document: Uuid, p: Permission) {
    exists g <- d.grants ::
      && g.tenant == tenant && g.document == document && p in g.permissions
      && ((g.principalType == User && g.principal == user)
          || (g.principalType == Group && Membership(tenant, g.principal, user) in d.memberships))
  }

  lemma {:induction false} GrantedIffHasGrant(d: Directory, tenant: Uuid, user: Uuid, document: Uuid, p: Permission)
    ensures IsGranted(d, tenant, user, document, p) <==> HasGrant(d, tenant, user, document, p)
  {
    var groups := UserGroups(d, tenant, user);
    forall g | g in d.grants
      ensures g.principal in groups <==> Membership(tenant, g.principal, user) in d.memberships
    {
      if g.principal in groups {
        var m :| m in d.memberships && m.tenant == tenant && m.user == user && m.group == g.principal;
        assert m == Membership(tenant, g.principal, user);
      }
    }
  }

  /** The permission rules: privileged roles, owners, rep-visible documents for VIEW and QUERY, and grants. */
  ghost predicate Allowed(d: Directory, tenant: Uuid, user: Uuid, role: Role, document: Uuid, p: Permission)
    requires document in d.documents
  {
    || role == Owner || role == Admin
    || d.documents[document].owner == user
    || (d.documents[document].visibility == RepVisible && (p == View || p == Query))
    || HasGrant(d, tenant, user, document, p)
  }

  /**
   * Both checks follow the rules on a live document of the tenant, for every role and permission. On any
   * other document a privileged role is unrestricted, the bulk set follows grants alone, and the point
   * check refuses.
   */
  lemma {:induction false} AccessFollowsRules(d: Directory, tenant: Uuid, user: Uuid, role: Role, document: Uuid,
                                              p: Permission)
    ensures var bulk := Accessible(d, tenant, user, role, p);
            var point := CanAccess(d, tenant, user, role, document, p);
            var live := document in d.documents && d.documents[document].tenant == tenant
                        && !d.documents[document].deleted;
            && (bulk.None? <==> role == Owner || role == Admin)
            && (live ==> (point <==> Allowed(d, tenant, user, role, document, p)))
            && (live ==> (bulk.None? || document in bulk.value <==> Allowed(d, tenant, user, role, document, p)))
            && (!live && bulk.Some? ==> (document in bulk.value <==> HasGrant(d, tenant, user, document, p)))
            && (!live && bulk.Some? ==> !point)
  {
    GrantedIffHasGrant(d, tenant, user, document, p);
    if !IsPrivileged(role) {
      BulkMatchesPoint(d, tenant, user, role, p, document);
    }
  }

  // ---------- Bulk and point agree ----------

  lemma {:induction false} GrantedIffSomeGrant(grants: seq<Grant>, tenant: Uuid, user: Uuid, groups: set<Uuid>,
                                               p: Permission, id: Uuid)
    ensures id in GrantedIds(grants, tenant, user, groups, p) <==>
            exists g <- grants :: g.tenant == tenant && g.document == id && GrantMatches(g, user, groups, p)
  {
    if grants != [] {
      var front, last := grants[..|grants| - 1], grants[|grants| - 1];
      assert grants == front + [last];
      GrantedIffSomeGrant(front, tenant, user, groups, p, id);
      assert last in grants;
      assert forall g :: g in grants <==> g in front || g == last;
    }
  }

  /**
   * The bulk set and the point check agree on every document except those that are not live in the
   * tenant: the bulk set still contains such a document when a grant names it.
   */
  lemma {:induction false} BulkMatchesPoint(d: Directory, tenant: Uuid, user: Uuid, role: Role, p: Permission, id: Uuid)
    requires !IsPrivileged(role)
    ensures id in Accessible(d, tenant, user, role, p).value <==>
            CanAccess(d, tenant, user, role, id, p)
            || (!IsLive(d.documents, tenant, id) && IsGranted(d, tenant, user, id, p))
  {
    GrantedIffSomeGrant(d.grants, tenant, user, UserGroups(d, tenant, user), p, id);
  }

  /** On live documents of the tenant the two checks are the same, for every permission and role. */
  lemma {:induction false} LiveDocumentsAgree(d: Directory, tenant: Uuid, user: Uuid, role: Role, p: Permission,
                                              id: Uuid)
    requires IsLive(d.documents, tenant, id)
    ensures CanAccess(d, tenant, user, role, id, p) <==>
            Accessible(d, tenant, user, role, p).None? || id in Accessible(d, tenant, user, role, p).value
  {
    if !IsPrivileged(role) {
      BulkMatchesPoint(d, tenant, user, role, p, id);
    }
  }

  /** A soft-deleted document with a grant: in the bulk set, refused by the point check. */
  lemma {:induction false} DeletedDocumentStaysInBulk(d: Directory, tenant: Uuid, user: Uuid, id: Uuid,
                                                      row: DocumentRow)
    requires row.deleted
    ensures var g := Grant(tenant, id, User, user, [Query]);
            var e := d.(documents := d.documents[id := row], grants := d.grants + [g]);
            && id in Accessible(e, tenant, user, Member, Query).value
            && !CanAccess(e, tenant, user, Member, id, Query)
  {
    var g := Grant(tenant, id, User, user, [Query]);
    assert (d.grants + [g])[..|d.grants|] == d.grants;
  }

  /** Deny by default: with no grant, a member reaches only its own and the rep-visible documents. */
  lemma {:induction false} DenyByDefault(d: Directory, tenant: Uuid, user: Uuid, p: Permission)
    requires d.grants == []
    ensures Accessible(d, tenant, user, Member, p).value ==
            OwnedIds(d, tenant, user) + if IsVisibilityPermission(p) then RepVisibleIds(d, tenant) else {}
  {
  }

  // ---------- Adding never shrinks ----------

  /** A new grant adds exactly its own document, to exactly the principals it names. */
  lemma {:induction false} GrantAddsItsDocument(d: Directory, g: Grant, tenant: Uuid, user: Uuid, role: Role,
                                                p: Permission)
    requires !IsPrivileged(role)
    ensures var e := d.(grants := d.grants + [g]);
            Accessible(e, tenant, user, role, p).value
              == Accessible(d, tenant, user, role, p).value
                 + if g.tenant == tenant && GrantMatches(g, user, UserGroups(d, tenant, user), p) then {g.document}
                     else {}
    ensures forall id | CanAccess(d, tenant, user, role, id, p) ::
              CanAccess(d.(grants := d.grants + [g]), tenant, user, role, id, p)
  {
    assert (d.grants + [g])[..|d.grants|] == d.grants;
  }

  lemma {:induction false} MoreGroupsGrantMore(grants: seq<Grant>, tenant: Uuid, user: Uuid, few: set<Uuid>,
                                               many: set<Uuid>, p: Permission)
    requires few <= many
    ensures GrantedIds(grants, tenant, user, few, p) <= GrantedIds(grants, tenant, user, many, p)
  {
    if grants != [] {
      MoreGroupsGrantMore(grants[..|grants| - 1], tenant, user, few, many, p);
    }
  }

  /** A new group membership never takes access away. */
  lemma {:induction false} MembershipNeverShrinks(d: Directory, m: Membership, tenant: Uuid, user: Uuid, role: Role,
                                                  p: Permission)
    requires !IsPrivileged(role)
    ensures var e := d.(memberships := d.memberships + {m});
            && Accessible(d, tenant, user, role, p).value <= Accessible(e, tenant, user, role, p).value
            && (forall id | CanAccess(d, tenant, user, role, id, p) :: CanAccess(e, tenant, user, role, id, p))
  {
    var e := d.(memberships := d.memberships + {m});
    MoreGroupsGrantMore(d.grants, tenant, user, UserGroups(d, tenant, user), UserGroups(e, tenant, user), p);
    forall id | CanAccess(d, tenant, user, role, id, p) ensures CanAccess(e, tenant, user, role, id, p) {
      if IsGranted(d, tenant, user, id, p) {
        var g :| g in d.grants && g.tenant == tenant && g.document == id
            && GrantMatches(g, user, UserGroups(d, tenant, user), p);
        assert GrantMatches(g, user, UserGroups(e, tenant, user), p);
      }
    }
  }

  // ---------- Segment scoping ----------

  /** `segment_document_ids`. */
  function SegmentIds(d: Directory, tenant: Uuid, segment: Uuid): set<Uuid> {
    set t | t in d.tags && t.tenant == tenant && t.segment == segment :: t.document
  }

  /** The access set of a search, scoped to a segment when one is given. */
  function Scoped(d: Directory, tenant: Uuid, allowed: Access, segment: Option<Uuid>): Access {
    if segment.None? then allowed
    else
      var ids := SegmentIds(d, tenant, segment.value);
      Some(if allowed.None? then ids else allowed.value * ids)
  }

  predicate Permits(a: Access, id: Uuid) {
    a.Some? ==> id in a.value
  }

  /**
   * Scoping keeps the meaning of both sentinels and never widens access: a document passes iff the
   * access set permits it and, when a segment is asked for, the document carries that tag.
   */
  lemma {:induction false} ScopingNarrows(d: Directory, tenant: Uuid, allowed: Access, segment: Option<Uuid>)
    ensures var scoped := Scoped(d, tenant, allowed, segment);
            && (forall id :: (scoped.None? || id in scoped.value) <==>
                  (allowed.None? || id in allowed.value)
                  && (segment.Some? ==> Tag(tenant, id, segment.value) in d.tags))
            && (scoped.None? <==> allowed.None? && segment.None?)
            && (allowed == Some({}) ==> scoped == Some({}))
  {
    var scoped := Scoped(d, tenant, allowed, segment);
    if segment.Some? {
      forall id ensures id in SegmentIds(d, tenant, segment.value) <==> Tag(tenant, id, segment.value) in d.tags {
      }
      if allowed == Some({}) {
        assert scoped.value == {};
      }
    }
  }
}

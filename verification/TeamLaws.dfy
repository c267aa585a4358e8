/**
 * The rules of user and invitation management (backend/app/services/invitation_service.py,
 * backend/app/api/v1/admin.py, backend/app/services/compliance_service.py): when each request succeeds, with which
 * error it fails, which row it writes, and that nothing else changes.
 */
module TeamLaws {
  import opened Wrappers
  import opened Billing
  import opened InviteKeys
  import opened Select
  import opened Team

  // ---------- What the rules speak of ----------

  /** Active users and pending invitations of the tenant, counted together. */
  ghost function SeatsTaken(t: Tables, tenant: Uuid): nat {
    |(set i | 0 <= i < |t.users| && t.users[i].tenant == tenant && t.users[i].isActive && !t.users[i].deleted)|
      + |(set i | 0 <= i < |t.invites| && t.invites[i].tenant == tenant && t.invites[i].status == Pending)|
  }

  /** The plan in force has no seat left. */
  ghost predicate SeatsGone(t: Tables, p: Platform, tenant: Uuid) {
    var limit := LimitOf(p.billing, t.plans, tenant, Seats);
    limit.Some? && SeatsTaken(t, tenant) >= limit.value
  }

  ghost function Positions<T>(rows: seq<T>, where: T -> bool): set<int> {
    set i | 0 <= i < |rows| && where(rows[i])
  }

  lemma {:induction false} CountIsPositions<T>(rows: seq<T>, where: T -> bool)
    ensures Count(rows, where) == |Positions(rows, where)|
  {
    if rows != [] {
      var n := |rows| - 1;
      CountIsPositions(rows[..n], where);
      assert Positions(rows, where) == Positions(rows[..n], where) + if where(rows[n]) then {n} else {};
    }
  }

  lemma {:induction false} SeatCountIsTaken(t: Tables, p: Platform, tenant: Uuid)
    ensures SeatCount(t, tenant) == SeatsTaken(t, tenant)
    ensures QuotaAllows(SeatLimit(t, p, tenant), SeatCount(t, tenant)) <==> !SeatsGone(t, p, tenant)
  {
    CountIsPositions(t.users, ActiveIn(tenant));
    CountIsPositions(t.invites, PendingIn(tenant));
    assert Positions(t.users, ActiveIn(tenant))
        == set i | 0 <= i < |t.users| && t.users[i].tenant == tenant && t.users[i].isActive && !t.users[i].deleted;
    assert Positions(t.invites, PendingIn(tenant))
        == set i | 0 <= i < |t.invites| && t.invites[i].tenant == tenant && t.invites[i].status == Pending;
  }

  predicate HasLiveUser(t: Tables, tenant: Uuid, email: string) {
    exists u <- t.users :: u.tenant == tenant && u.email == email && !u.deleted
  }

  predicate HasUser(t: Tables, tenant: Uuid, email: string) {
    exists u <- t.users :: u.tenant == tenant && u.email == email
  }

  predicate HasPending(t: Tables, tenant: Uuid, email: string) {
    exists x <- t.invites :: x.tenant == tenant && x.email == email && x.status == Pending
  }

  lemma {:induction false} FindSome<T>(rows: seq<T>, where: T -> bool)
    ensures Find(rows, where).Some? <==> exists x <- rows :: where(x)
  {
    if Find(rows, where).Some? {
      assert rows[Find(rows, where).value] in rows;
    }
  }

  lemma {:induction false} Lookups(t: Tables, tenant: Uuid, email: string)
    ensures Find(t.users, LiveUser(tenant, email)).Some? <==> HasLiveUser(t, tenant, email)
    ensures Find(t.users, AnyUser(tenant, email)).Some? <==> HasUser(t, tenant, email)
    ensures Find(t.invites, PendingFor(tenant, email)).Some? <==> HasPending(t, tenant, email)
  {
    FindSome(t.users, LiveUser(tenant, email));
    FindSome(t.users, AnyUser(tenant, email));
    FindSome(t.invites, PendingFor(tenant, email));
  }

  // ---------- Users ----------

  /** A user is added when no row has the email and a seat is free: active, with the role asked for. */
  lemma {:induction false} AddingRules(t: Tables, p: Platform, tenant: Uuid, user: Uuid, email: string, role: Role)
    ensures var r := CreateUser(t, p, tenant, user, email, role);
            if HasUser(t, tenant, p.lower(email)) then r == Failure(Conflict)
            else if SeatsGone(t, p, tenant) then r == Failure(PlanLimit)
            else
              r == Success(Tables(t.tenants, t.plans, t.users + [User(user, tenant, p.lower(email), role, true, false)],
                                  t.invites))
  {
    Lookups(t, tenant, p.lower(email));
    SeatCountIsTaken(t, p, tenant);
  }

  /** The live user of the tenant with this id stands at this position. */
  predicate StandsAt(t: Tables, tenant: Uuid, user: Uuid, i: int) {
    && 0 <= i < |t.users| && t.users[i].id == user && t.users[i].tenant == tenant && !t.users[i].deleted
    && forall j | 0 <= j < i :: t.users[j].id != user
  }

  lemma {:induction false} LoadedStands(t: Tables, tenant: Uuid, user: Uuid)
    ensures var found := LoadTenantUser(t, tenant, user);
            (found.Some? ==> StandsAt(t, tenant, user, found.value))
            && (found.None? ==> forall i :: !StandsAt(t, tenant, user, i))
  {
    var found := Find(t.users, UserId(user));
    if found.Some? {
      assert forall j | 0 <= j < found.value :: !UserId(user)(t.users[j]);
    } else {
      assert forall j | 0 <= j < |t.users| :: !UserId(user)(t.users[j]);
    }
  }

  /** An update writes the given role and activity to the user's row; nobody makes themselves inactive. */
  lemma {:induction false} UpdatingRules(t: Tables, tenant: Uuid, current: Uuid, user: Uuid, role: Option<Role>,
                                         isActive: Option<bool>)
    ensures var r := UpdateUser(t, tenant, current, user, role, isActive);
            if forall i :: !StandsAt(t, tenant, user, i) then r == Failure(NotFound)
            else if isActive == Some(false) && user == current then r == Failure(OwnAccount)
            else
              exists i :: StandsAt(t, tenant, user, i)
                          && var u := t.users[i];
                             var row := User(u.id, u.tenant, u.email, if role.Some? then role.value else u.role,
                                             if isActive.Some? then isActive.value else u.isActive, false);
                             r == Success(Tables(t.tenants, t.plans, t.users[i := row], t.invites))
  {
    LoadedStands(t, tenant, user);
  }

  /** Removing marks the row of another live user deleted and inactive; the email stays. */
  lemma {:induction false} RemovingRules(t: Tables, tenant: Uuid, current: Uuid, user: Uuid)
    ensures var r := DeactivateUser(t, tenant, current, user);
            if forall i :: !StandsAt(t, tenant, user, i) then r == Failure(NotFound)
            else if user == current then r == Failure(OwnAccount)
            else
              exists i :: StandsAt(t, tenant, user, i)
                          && var u := t.users[i];
                             var row := User(u.id, u.tenant, u.email, u.role, false, true);
                             r == Success(Tables(t.tenants, t.plans, t.users[i := row], t.invites))
  {
    LoadedStands(t, tenant, user);
  }

  /** The data subject of a request: by id when one is given, else by email; removed users count. */
  predicate IsSubject(t: Tables, p: Platform, tenant: Uuid, subject: Option<Uuid>, email: string, i: int) {
    && 0 <= i < |t.users| && t.users[i].tenant == tenant
    && (match subject
        case Some(id) => t.users[i].id == id && forall j | 0 <= j < i :: t.users[j].id != id
        case None =>
          t.users[i].email == p.lower(email)
          && forall j | 0 <= j < i :: !(t.users[j].tenant == tenant && t.users[j].email == p.lower(email)))
  }

  lemma {:induction false} ResolvedIsSubject(t: Tables, p: Platform, tenant: Uuid, subject: Option<Uuid>, email: string)
    ensures var found := ResolveSubject(t, p, tenant, subject, email);
            (found.Some? ==> IsSubject(t, p, tenant, subject, email, found.value))
            && (found.None? ==> forall i :: !IsSubject(t, p, tenant, subject, email, i))
  {
    match subject
    case None =>
      var found := Find(t.users, AnyUser(tenant, p.lower(email)));
      var n := if found.Some? then found.value else |t.users|;
      assert forall j | 0 <= j < n :: !AnyUser(tenant, p.lower(email))(t.users[j]);
    case Some(id) =>
      var found := Find(t.users, UserId(id));
      var n := if found.Some? then found.value else |t.users|;
      assert forall j | 0 <= j < n :: !UserId(id)(t.users[j]);
  }

  /** An erasure leaves the subject's row inactive, deleted and under a placeholder email of its own. */
  lemma {:induction false} ErasingRules(t: Tables, p: Platform, tenant: Uuid, subject: Option<Uuid>, email: string)
    ensures var r := EraseSubject(t, p, tenant, subject, email);
            && (r == Failure(NotFound) <==> forall i :: !IsSubject(t, p, tenant, subject, email, i))
            && (r.Success? ==>
                  exists i :: IsSubject(t, p, tenant, subject, email, i)
                              && var u := t.users[i];
                                 var placeholder := "erased-" + p.idText(u.id) + "@redacted.invalid";
                                 var row := User(u.id, u.tenant, placeholder, u.role, false, true);
                                 r.value == Tables(t.tenants, t.plans, t.users[i := row], t.invites))
            && (r.Failure? && r.error != NotFound ==>
                  r.error == IntegrityFailure
                  && exists i, j :: IsSubject(t, p, tenant, subject, email, i) && 0 <= j < |t.users| && i != j
                                    && t.users[j].tenant == tenant
                                    && t.users[j].email == "erased-" + p.idText(t.users[i].id) + "@redacted.invalid")
  {
    ResolvedIsSubject(t, p, tenant, subject, email);
    var found := ResolveSubject(t, p, tenant, subject, email);
    if found.Some? {
      var taken := Find(t.users, AnyUser(tenant, ErasedEmail(p, t.users[found.value].id)));
      assert taken.Some? ==> AnyUser(tenant, ErasedEmail(p, t.users[found.value].id))(t.users[taken.value]);
    }
  }

  // ---------- Invitations ----------

  /** An invitation is issued with a free seat, no live user and no pending invitation for the email. */
  lemma {:induction false} InvitingRules(t: Tables, p: Platform, tenant: Uuid, id: Uuid, email: string, role: Role,
                                         key: string, salt: nat, now: int)
    ensures var r, e := CreateInvitation(t, p, tenant, id, email, role, key, salt, now), p.lower(email);
            if SeatsGone(t, p, tenant) then r == Failure(PlanLimit)
            else if HasLiveUser(t, tenant, e) || HasPending(t, tenant, e) then r == Failure(Conflict)
            else
              var row := Invitation(id, tenant, e, role, p.hash(key, salt), now + p.ttl, Pending, None);
              r == Success(Tables(t.tenants, t.plans, t.users, t.invites + [row]))
  {
    Lookups(t, tenant, p.lower(email));
    SeatCountIsTaken(t, p, tenant);
  }

  /** The invitation with this id stands at this position. */
  predicate InviteAt(t: Tables, id: Uuid, i: int) {
    0 <= i < |t.invites| && t.invites[i].id == id && forall j | 0 <= j < i :: t.invites[j].id != id
  }

  lemma {:induction false} InviteFound(t: Tables, id: Uuid)
    ensures var found := Find(t.invites, InviteId(id));
            (found.Some? ==> InviteAt(t, id, found.value)) && (found.None? ==> forall i :: !InviteAt(t, id, i))
  {
    var found := Find(t.invites, InviteId(id));
    var n := if found.Some? then found.value else |t.invites|;
    assert forall j | 0 <= j < n :: !InviteId(id)(t.invites[j]);
  }

  /** A new key replaces the hash of a pending invitation of the tenant; its expiry and status stay. */
  lemma {:induction false} RegeneratingRules(t: Tables, p: Platform, tenant: Uuid, id: Uuid, key: string, salt: nat)
    ensures var r := RegenerateToken(t, p, tenant, id, key, salt);
            if exists i :: InviteAt(t, id, i) && t.invites[i].tenant == tenant && t.invites[i].status == Pending then
              exists i :: InviteAt(t, id, i)
                          && var x := t.invites[i];
                             var row := Invitation(x.id, x.tenant, x.email, x.role, p.hash(key, salt), x.expiresAt,
                                                   x.status, x.acceptedAt);
                             r == Success(Tables(t.tenants, t.plans, t.users, t.invites[i := row]))
            else r == Failure(NotFound)
  {
    InviteFound(t, id);
  }

  /** A revoked invitation of the tenant keeps everything but its status. */
  lemma {:induction false} RevokingRules(t: Tables, tenant: Uuid, id: Uuid)
    ensures var r := Revoke(t, tenant, id);
            if exists i :: InviteAt(t, id, i) && t.invites[i].tenant == tenant then
              exists i :: InviteAt(t, id, i)
                          && var x := t.invites[i];
                             var row := Invitation(x.id, x.tenant, x.email, x.role, x.tokenHash, x.expiresAt, Revoked,
                                                   x.acceptedAt);
                             r == Success(Tables(t.tenants, t.plans, t.users, t.invites[i := row]))
            else r == Failure(NotFound)
  {
    InviteFound(t, id);
  }

  /** The oldest pending invitation of the tenant for the email stands at this position. */
  predicate PendingAt(t: Tables, tenant: Uuid, email: string, i: int) {
    && 0 <= i < |t.invites| && t.invites[i].tenant == tenant && t.invites[i].email == email
    && t.invites[i].status == Pending
    && forall j | 0 <= j < i ::
         !(t.invites[j].tenant == tenant && t.invites[j].email == email && t.invites[j].status == Pending)
  }

  lemma {:induction false} PendingFound(t: Tables, tenant: Uuid, email: string)
    ensures var found := Find(t.invites, PendingFor(tenant, email));
            (found.Some? ==> PendingAt(t, tenant, email, found.value))
            && (found.None? ==> forall i :: !PendingAt(t, tenant, email, i))
  {
    var found := Find(t.invites, PendingFor(tenant, email));
    var n := if found.Some? then found.value else |t.invites|;
    assert forall j | 0 <= j < n :: !PendingFor(tenant, email)(t.invites[j]);
  }

  /**
   * Whoever types the right key before the expiry joins with the invited email and role, unless the email is
   * taken, and the invitation is closed with the time of the join.
   */
  lemma {:induction false} AcceptingRules(t: Tables, p: Platform, slug: string, email: string, typedKey: string,
                                          user: Uuid, now: int, i: int)
    requires p.lower(slug) in t.tenants && PendingAt(t, t.tenants[p.lower(slug)], p.lower(email), i)
    ensures var r, tenant, e := AcceptInvitation(t, p, slug, email, typedKey, user, now), t.tenants[p.lower(slug)],
              p.lower(email);
            var x := t.invites[i];
            if now > x.expiresAt || !p.verify(NormalizeKey(p.upper, typedKey), x.tokenHash) then
              r == Failure(InvalidInvitation)
            else if HasLiveUser(t, tenant, e) then r == Failure(Conflict)
            else if HasUser(t, tenant, e) then r == Failure(IntegrityFailure)
            else
              var row := Invitation(x.id, x.tenant, x.email, x.role, x.tokenHash, x.expiresAt, Accepted, Some(now));
              r == Success(Tables(t.tenants, t.plans, t.users + [User(user, tenant, e, x.role, true, false)],
                                  t.invites[i := row]))
  {
    Lookups(t, t.tenants[p.lower(slug)], p.lower(email));
    PendingFound(t, t.tenants[p.lower(slug)], p.lower(email));
    var found := Find(t.invites, PendingFor(t.tenants[p.lower(slug)], p.lower(email)));
    assert found == Some(i);
  }

  /** Without a pending invitation, or for an unknown tenant, the answer is the generic error. */
  lemma {:induction false} UninvitedRules(t: Tables, p: Platform, slug: string, email: string, typedKey: string,
                                          user: Uuid, now: int)
    requires p.lower(slug) !in t.tenants || !HasPending(t, t.tenants[p.lower(slug)], p.lower(email))
    ensures AcceptInvitation(t, p, slug, email, typedKey, user, now) == Failure(InvalidInvitation)
  {
    if p.lower(slug) in t.tenants {
      Lookups(t, t.tenants[p.lower(slug)], p.lower(email));
    }
  }
}

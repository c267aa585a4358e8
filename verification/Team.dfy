/**
 * Users and invitations of every tenant (backend/app/services/invitation_service.py,
 * backend/app/api/v1/admin.py) and the seats they take (backend/app/services/billing_service.py,
 * backend/app/services/usage_service.py).
 *
 * Ids, raw keys, salts and the clock are inputs of each operation; lower-casing and password hashing
 * are parameters.
 */
module Team {
  import opened Wrappers
  import opened Billing
  import opened InviteKeys
  import opened Select
  import Authz

  type Role = Authz.Role

  datatype User = User(id: Uuid, tenant: Uuid, email: string, role: Role, isActive: bool, deleted: bool)

  datatype InviteStatus = Pending | Accepted | Revoked

  datatype Invitation = Invitation(id: Uuid, tenant: Uuid, email: string, role: Role, tokenHash: string, expiresAt: int,
                                   status: InviteStatus, acceptedAt: Option<int>)

  /** The tables, in insertion order, the tenants by slug, and the plan key of each subscription. */
  datatype Tables = Tables(tenants: map<string, Uuid>, plans: Subscriptions, users: seq<User>, invites: seq<Invitation>)

  /** Settings, library functions, how an id is written, and the invitation lifetime. */
  datatype Platform = Platform(billing: BillingSettings, lower: string -> string, upper: char -> string,
                               hash: (string, nat) -> string, verify: (string, string) -> bool,
                               idText: Uuid -> string, ttl: int)

  /** A salted hash verifies exactly the password it was made from. */
  ghost predicate IdealHash(p: Platform) {
    forall key, salt, typed :: p.verify(typed, p.hash(key, salt)) <==> typed == key
  }

  datatype TeamError = PlanLimit | Conflict | InvalidInvitation | NotFound | OwnAccount | IntegrityFailure

  // ---------- Queries ----------

  function ActiveIn(tenant: Uuid): User -> bool {
    (u: User) => u.tenant == tenant && !u.deleted && u.isActive
  }

  function PendingIn(tenant: Uuid): Invitation -> bool {
    (i: Invitation) => i.tenant == tenant && i.status == Pending
  }

  function LiveUser(tenant: Uuid, email: string): User -> bool {
    (u: User) => u.tenant == tenant && u.email == email && !u.deleted
  }

  function AnyUser(tenant: Uuid, email: string): User -> bool {
    (u: User) => u.tenant == tenant && u.email == email
  }

  function PendingFor(tenant: Uuid, email: string): Invitation -> bool {
    (i: Invitation) => i.tenant == tenant && i.email == email && i.status == Pending
  }

  function InviteId(id: Uuid): Invitation -> bool {
    (i: Invitation) => i.id == id
  }

  function UserId(id: Uuid): User -> bool {
    (u: User) => u.id == id
  }

  /** The seat count: active users and pending invitations, each pending one reserving a seat. */
  function SeatCount(t: Tables, tenant: Uuid): nat {
    Count(t.users, ActiveIn(tenant)) + Count(t.invites, PendingIn(tenant))
  }

  /** The seat limit in force for a tenant. */
  function SeatLimit(t: Tables, p: Platform, tenant: Uuid): Option<nat> {
    LimitOf(p.billing, t.plans, tenant, Seats)
  }

  // ---------- Operations ----------

  /** `create_invitation`: seat quota, then the two duplicate checks. */
  function CreateInvitation(t: Tables, p: Platform, tenant: Uuid, id: Uuid, typedEmail: string, role: Role, key: string,
                            salt: nat, now: int): Result<Tables, TeamError> {
    var email := p.lower(typedEmail);
    if !QuotaAllows(SeatLimit(t, p, tenant), SeatCount(t, tenant)) then Failure(PlanLimit)
    else if Find(t.users, LiveUser(tenant, email)).Some? then Failure(Conflict)
    else if Find(t.invites, PendingFor(tenant, email)).Some? then Failure(Conflict)
    else
      var invite := Invitation(id, tenant, email, role, p.hash(key, salt), now + p.ttl, Pending, None);
      Success(t.(invites := t.invites + [invite]))
  }

  /**
   * `accept_invitation`. The `(tenant, email)` constraint of the users table also covers
   * soft-deleted rows, which the explicit check before it ignores.
   */
  function AcceptInvitation(t: Tables, p: Platform, slug: string, typedEmail: string, typedKey: string, user: Uuid,
                            now: int)
    : Result<Tables, TeamError>
  {
    var email := p.lower(typedEmail);
    if p.lower(slug) !in t.tenants then Failure(InvalidInvitation)
    else
      var tenant := t.tenants[p.lower(slug)];
      var found := Find(t.invites, PendingFor(tenant, email));
      if found.None? then Failure(InvalidInvitation)
      else
        var invite := t.invites[found.value];
        if invite.expiresAt < now || !p.verify(NormalizeKey(p.upper, typedKey), invite.tokenHash) then
          Failure(InvalidInvitation)
        else if Find(t.users, LiveUser(tenant, email)).Some? then Failure(Conflict)
        else if Find(t.users, AnyUser(tenant, email)).Some? then Failure(IntegrityFailure)
        else
          Success(t.(users := t.users + [User(user, tenant, invite.email, invite.role, true, false)],
                     invites := t.invites[found.value := invite.(status := Accepted, acceptedAt := Some(now))]))
  }

  /** `regenerate_token`: a new key for a pending invitation; its expiry stays. */
  function RegenerateToken(t: Tables, p: Platform, tenant: Uuid, id: Uuid, key: string, salt: nat)
    : Result<Tables, TeamError>
  {
    var found := Find(t.invites, InviteId(id));
    if found.None? then Failure(NotFound)
    else
      var invite := t.invites[found.value];
      if invite.tenant != tenant || invite.status != Pending then Failure(NotFound)
      else Success(t.(invites := t.invites[found.value := invite.(tokenHash := p.hash(key, salt))]))
  }

  /** `revoke`: whatever the status was. */
  function Revoke(t: Tables, tenant: Uuid, id: Uuid): Result<Tables, TeamError> {
    var found := Find(t.invites, InviteId(id));
    if found.None? || t.invites[found.value].tenant != tenant then Failure(NotFound)
    else Success(t.(invites := t.invites[found.value := t.invites[found.value].(status := Revoked)]))
  }

  /** `create_user`: the duplicate check, soft-deleted users included, then the seat quota. */
  function CreateUser(t: Tables, p: Platform, tenant: Uuid, user: Uuid, typedEmail: string, role: Role)
    : Result<Tables, TeamError>
  {
    var email := p.lower(typedEmail);
    if Find(t.users, AnyUser(tenant, email)).Some? then Failure(Conflict)
    else if !QuotaAllows(SeatLimit(t, p, tenant), SeatCount(t, tenant)) then Failure(PlanLimit)
    else Success(t.(users := t.users + [User(user, tenant, email, role, true, false)]))
  }

  /** `_load_tenant_user`. */
  function LoadTenantUser(t: Tables, tenant: Uuid, user: Uuid): (r: Option<nat>)
    ensures r.Some? ==>
      && r.value < |t.users| && t.users[r.value].id == user
      && t.users[r.value].tenant == tenant && !t.users[r.value].deleted
  {
    var found := Find(t.users, UserId(user));
    if found.None? || t.users[found.value].tenant != tenant || t.users[found.value].deleted then None else found
  }

  /** `update_user`: a role and an activity flag, each optional; no quota check. */
  function UpdateUser(t: Tables, tenant: Uuid, current: Uuid, user: Uuid, role: Option<Role>, isActive: Option<bool>)
    : Result<Tables, TeamError>
  {
    var found := LoadTenantUser(t, tenant, user);
    if found.None? then Failure(NotFound)
    else if isActive == Some(false) && user == current then Failure(OwnAccount)
    else
      var row := t.users[found.value];
      var newRole := if role.Some? then role.value else row.role;
      var active := if isActive.Some? then isActive.value else row.isActive;
      Success(t.(users := t.users[found.value := row.(role := newRole, isActive := active)]))
  }

  /** `deactivate_user`: a soft delete. */
  function DeactivateUser(t: Tables, tenant: Uuid, current: Uuid, user: Uuid): Result<Tables, TeamError> {
    var found := LoadTenantUser(t, tenant, user);
    if found.None? then Failure(NotFound)
    else if user == current then Failure(OwnAccount)
    else Success(t.(users := t.users[found.value := t.users[found.value].(isActive := false, deleted := true)]))
  }

  /** `resolve_subject`: by id when one is given, else by email; soft-deleted users are found too. */
  function ResolveSubject(t: Tables, p: Platform, tenant: Uuid, subject: Option<Uuid>, typedEmail: string)
    : (r: Option<nat>)
    ensures r.Some? ==> r.value < |t.users| && t.users[r.value].tenant == tenant
  {
    if subject.None? then Find(t.users, AnyUser(tenant, p.lower(typedEmail)))
    else
      var found := Find(t.users, UserId(subject.value));
      if found.None? || t.users[found.value].tenant != tenant then None else found
  }

  /** The email an erased row is left with. */
  function ErasedEmail(p: Platform, user: Uuid): string {
    "erased-" + p.idText(user) + "@redacted.invalid"
  }

  /**
   * The erasure of a data subject: `resolve_subject`, then `erase_subject` on the user row. The new email
   * is subject to the `(tenant, email)` constraint.
   */
  function EraseSubject(t: Tables, p: Platform, tenant: Uuid, subject: Option<Uuid>, typedEmail: string)
    : Result<Tables, TeamError>
  {
    var found := ResolveSubject(t, p, tenant, subject, typedEmail);
    if found.None? then Failure(NotFound)
    else
      var row := t.users[found.value];
      var taken := Find(t.users, AnyUser(tenant, ErasedEmail(p, row.id)));
      if taken.Some? && taken != found then Failure(IntegrityFailure)
      else
        var erased := row.(isActive := false, deleted := true, email := ErasedEmail(p, row.id));
        Success(t.(users := t.users[found.value := erased]))
  }

  /** `apply_webhook_event`, as far as plans go: the subscription gets the event's plan key. */
  function ApplyPlan(t: Tables, tenant: Uuid, planKey: string): Tables {
    t.(plans := t.plans[tenant := planKey])
  }

  // ---------- Seats, operation by operation ----------

  /** An invitation takes one seat of its tenant; it is refused when the plan in force has none free. */
  lemma {:induction false} InvitingTakesASeat(t: Tables, p: Platform, tenant: Uuid, id: Uuid, email: string, role: Role,
                                              key: string, salt: nat, now: int, other: Uuid)
    ensures var r := CreateInvitation(t, p, tenant, id, email, role, key, salt, now);
            && (!QuotaAllows(SeatLimit(t, p, tenant), SeatCount(t, tenant)) ==> r == Failure(PlanLimit))
            && (r.Success? ==> SeatCount(r.value, other) == SeatCount(t, other) + if other == tenant then 1 else 0)
  {
    var r := CreateInvitation(t, p, tenant, id, email, role, key, salt, now);
    if r.Success? {
      CountAppend(t.invites, r.value.invites[|t.invites|], PendingIn(other));
    }
  }

  /** Accepting turns a reserved seat into a taken one: the sum does not move. */
  lemma {:induction false} AcceptingConservesSeats(t: Tables, p: Platform, slug: string, email: string, key: string,
                                                   user: Uuid, now: int, other: Uuid)
    ensures var r := AcceptInvitation(t, p, slug, email, key, user, now);
            r.Success? ==>
              && SeatCount(r.value, other) == SeatCount(t, other)
              && Count(r.value.users, ActiveIn(other))
                   == Count(t.users, ActiveIn(other)) + if t.tenants[p.lower(slug)] == other then 1 else 0
  {
    var r := AcceptInvitation(t, p, slug, email, key, user, now);
    if r.Success? {
      var i := Find(t.invites, PendingFor(t.tenants[p.lower(slug)], p.lower(email))).value;
      CountAppend(t.users, r.value.users[|t.users|], ActiveIn(other));
      CountUpdate(t.invites, i, r.value.invites[i], PendingIn(other));
    }
  }

  lemma {:induction false} RegeneratingConservesSeats(t: Tables, p: Platform, tenant: Uuid, id: Uuid, key: string,
                                                      salt: nat, other: Uuid)
    ensures var r := RegenerateToken(t, p, tenant, id, key, salt);
            r.Success? ==> SeatCount(r.value, other) == SeatCount(t, other)
  {
    var r := RegenerateToken(t, p, tenant, id, key, salt);
    if r.Success? {
      var i := Find(t.invites, InviteId(id)).value;
      CountUpdate(t.invites, i, r.value.invites[i], PendingIn(other));
    }
  }

  /** Revoking frees a seat exactly when the invitation was pending; otherwise no seat moves. */
  lemma {:induction false} RevokingFreesPendingSeats(t: Tables, tenant: Uuid, id: Uuid, other: Uuid)
    ensures var r := Revoke(t, tenant, id);
            r.Success? ==>
              var invite := t.invites[Find(t.invites, InviteId(id)).value];
              SeatCount(r.value, other)
                == SeatCount(t, other) - if other == tenant && invite.status == Pending then 1 else 0
  {
    var r := Revoke(t, tenant, id);
    if r.Success? {
      var i := Find(t.invites, InviteId(id)).value;
      CountUpdate(t.invites, i, r.value.invites[i], PendingIn(other));
    }
  }

  /** A created user takes one seat of its tenant; none is created when the plan in force has none free. */
  lemma {:induction false} CreatingTakesASeat(t: Tables, p: Platform, tenant: Uuid, user: Uuid, email: string,
                                              role: Role, other: Uuid)
    ensures var r := CreateUser(t, p, tenant, user, email, role);
            && (!QuotaAllows(SeatLimit(t, p, tenant), SeatCount(t, tenant)) ==> r.Failure?)
            && (r.Success? ==> SeatCount(r.value, other) == SeatCount(t, other) + if other == tenant then 1 else 0)
  {
    var r := CreateUser(t, p, tenant, user, email, role);
    if r.Success? {
      CountAppend(t.users, r.value.users[|t.users|], ActiveIn(other));
    }
  }

  /** Updating moves one seat exactly when it flips the activity of the user. */
  lemma {:induction false} UpdatingMovesSeats(t: Tables, tenant: Uuid, current: Uuid, user: Uuid, role: Option<Role>,
                                              isActive: Option<bool>, other: Uuid)
    ensures var r := UpdateUser(t, tenant, current, user, role, isActive);
            r.Success? ==>
              var was := t.users[LoadTenantUser(t, tenant, user).value].isActive;
              SeatCount(r.value, other) == SeatCount(t, other)
                + (if other == tenant && isActive == Some(true) && !was then 1 else 0)
                - (if other == tenant && isActive == Some(false) && was then 1 else 0)
  {
    var r := UpdateUser(t, tenant, current, user, role, isActive);
    if r.Success? {
      var i := LoadTenantUser(t, tenant, user).value;
      CountUpdate(t.users, i, r.value.users[i], ActiveIn(other));
    }
  }

  lemma {:induction false} DeactivatingFreesActiveSeats(t: Tables, tenant: Uuid, current: Uuid, user: Uuid, other: Uuid)
    ensures var r := DeactivateUser(t, tenant, current, user);
            r.Success? ==>
              var was := t.users[LoadTenantUser(t, tenant, user).value].isActive;
              SeatCount(r.value, other) == SeatCount(t, other) - if other == tenant && was then 1 else 0
  {
    var r := DeactivateUser(t, tenant, current, user);
    if r.Success? {
      var i := LoadTenantUser(t, tenant, user).value;
      CountUpdate(t.users, i, r.value.users[i], ActiveIn(other));
    }
  }

  /** An erasure frees a seat exactly when it hits an active user. */
  lemma {:induction false} ErasingFreesActiveSeats(t: Tables, p: Platform, tenant: Uuid, subject: Option<Uuid>,
                                                   email: string, other: Uuid)
    ensures var r := EraseSubject(t, p, tenant, subject, email);
            r.Success? ==>
              var row := t.users[ResolveSubject(t, p, tenant, subject, email).value];
              SeatCount(r.value, other) == SeatCount(t, other) - if ActiveIn(other)(row) then 1 else 0
  {
    var r := EraseSubject(t, p, tenant, subject, email);
    if r.Success? {
      var i := ResolveSubject(t, p, tenant, subject, email).value;
      CountUpdate(t.users, i, r.value.users[i], ActiveIn(other));
    }
  }

  // ---------- The services that change the tables ----------

  /** The tables, changed in place; a failing request leaves them as they were. */
  class TeamService {
    var tenants: map<string, Uuid>
    var plans: Subscriptions
    var users: seq<User>
    var invites: seq<Invitation>

    function State(): Tables
      reads this
    {
      Tables(tenants, plans, users, invites)
    }

    constructor (tenants0: map<string, Uuid>)
      ensures State() == Tables(tenants0, map[], [], [])
    {
      tenants, plans, users, invites := tenants0, map[], [], [];
    }

    /** `create_invitation`. The hash is filled in once the row exists. */
    method Create(p: Platform, tenant: Uuid, id: Uuid, typedEmail: string, role: Role, key: string, salt: nat, now: int)
      returns (r: Result<string, TeamError>)
      modifies this
      ensures var after := CreateInvitation(old(State()), p, tenant, id, typedEmail, role, key, salt, now);
              if after.Success? then r == Success(Grouped(key)) && State() == after.value
              else r == Failure(after.error) && State() == old(State())
    {
      var email := p.lower(typedEmail);
      if !QuotaAllows(SeatLimit(State(), p, tenant), SeatCount(State(), tenant)) {
        return Failure(PlanLimit);
      }
      if Find(users, LiveUser(tenant, email)).Some? {
        return Failure(Conflict);
      }
      if Find(invites, PendingFor(tenant, email)).Some? {
        return Failure(Conflict);
      }
      var n := |invites|;
      invites := invites + [Invitation(id, tenant, email, role, "", now + p.ttl, Pending, None)];
      invites := invites[n := invites[n].(tokenHash := p.hash(key, salt))];
      return Success(Grouped(key));
    }

    /** `accept_invitation`. */
    method Accept(p: Platform, slug: string, typedEmail: string, typedKey: string, user: Uuid, now: int)
      returns (r: Result<User, TeamError>)
      modifies this
      ensures var after := AcceptInvitation(old(State()), p, slug, typedEmail, typedKey, user, now);
              if after.Success? then users != [] && r == Success(users[|users| - 1]) && State() == after.value
              else r == Failure(after.error) && State() == old(State())
    {
      var email := p.lower(typedEmail);
      if p.lower(slug) !in tenants {
        return Failure(InvalidInvitation);
      }
      var tenant := tenants[p.lower(slug)];
      var found := Find(invites, PendingFor(tenant, email));
      if found.None? {
        return Failure(InvalidInvitation);
      }
      var i := found.value;
      if invites[i].expiresAt < now || !p.verify(NormalizeKey(p.upper, typedKey), invites[i].tokenHash) {
        return Failure(InvalidInvitation);
      }
      if Find(users, LiveUser(tenant, email)).Some? {
        return Failure(Conflict);
      }
      if Find(users, AnyUser(tenant, email)).Some? {
        return Failure(IntegrityFailure);
      }
      var row := User(user, tenant, invites[i].email, invites[i].role, true, false);
      users := users + [row];
      invites := invites[i := invites[i].(status := Accepted)];
      invites := invites[i := invites[i].(acceptedAt := Some(now))];
      return Success(row);
    }

    /** `regenerate_token`. */
    method Regenerate(p: Platform, tenant: Uuid, id: Uuid, key: string, salt: nat)
                      returns (r: Result<string, TeamError>)
      modifies this
      ensures var after := RegenerateToken(old(State()), p, tenant, id, key, salt);
              if after.Success? then r == Success(Grouped(key)) && State() == after.value
              else r == Failure(after.error) && State() == old(State())
    {
      var found := Find(invites, InviteId(id));
      if found.None? || invites[found.value].tenant != tenant || invites[found.value].status != Pending {
        return Failure(NotFound);
      }
      invites := invites[found.value := invites[found.value].(tokenHash := p.hash(key, salt))];
      return Success(Grouped(key));
    }

    /** `revoke`. */
    method RevokeInvitation(tenant: Uuid, id: Uuid) returns (r: Result<(), TeamError>)
      modifies this
      ensures var after := Revoke(old(State()), tenant, id);
              if after.Success? then r == Success(()) && State() == after.value
              else r == Failure(after.error) && State() == old(State())
    {
      var found := Find(invites, InviteId(id));
      if found.None? || invites[found.value].tenant != tenant {
        return Failure(NotFound);
      }
      invites := invites[found.value := invites[found.value].(status := Revoked)];
      return Success(());
    }

    /** `create_user`. */
    method AddUser(p: Platform, tenant: Uuid, user: Uuid, typedEmail: string, role: Role)
      returns (r: Result<User, TeamError>)
      modifies this
      ensures var after := CreateUser(old(State()), p, tenant, user, typedEmail, role);
              if after.Success? then users != [] && r == Success(users[|users| - 1]) && State() == after.value
              else r == Failure(after.error) && State() == old(State())
    {
      if Find(users, AnyUser(tenant, p.lower(typedEmail))).Some? {
        return Failure(Conflict);
      }
      if !QuotaAllows(SeatLimit(State(), p, tenant), SeatCount(State(), tenant)) {
        return Failure(PlanLimit);
      }
      var row := User(user, tenant, p.lower(typedEmail), role, true, false);
      users := users + [row];
      return Success(row);
    }

    /** `update_user`. */
    method Update(tenant: Uuid, current: Uuid, user: Uuid, role: Option<Role>, isActive: Option<bool>)
      returns (r: Result<(), TeamError>)
      modifies this
      ensures var after := UpdateUser(old(State()), tenant, current, user, role, isActive);
              if after.Success? then r == Success(()) && State() == after.value
              else r == Failure(after.error) && State() == old(State())
    {
      var found := LoadTenantUser(State(), tenant, user);
      if found.None? {
        return Failure(NotFound);
      }
      if isActive == Some(false) && user == current {
        return Failure(OwnAccount);
      }
      var i := found.value;
      if role.Some? {
        users := users[i := users[i].(role := role.value)];
      }
      if isActive.Some? {
        users := users[i := users[i].(isActive := isActive.value)];
      }
      assert users == old(users)[i := users[i]];
      return Success(());
    }

    /** `deactivate_user`. */
    method Deactivate(tenant: Uuid, current: Uuid, user: Uuid) returns (r: Result<(), TeamError>)
      modifies this
      ensures var after := DeactivateUser(old(State()), tenant, current, user);
              if after.Success? then r == Success(()) && State() == after.value
              else r == Failure(after.error) && State() == old(State())
    {
      var found := LoadTenantUser(State(), tenant, user);
      if found.None? {
        return Failure(NotFound);
      }
      if user == current {
        return Failure(OwnAccount);
      }
      var i := found.value;
      users := users[i := users[i].(isActive := false)];
      users := users[i := users[i].(deleted := true)];
      return Success(());
    }

    /** `fulfill_dsr` for an erasure, on the users table. */
    method Erase(p: Platform, tenant: Uuid, subject: Option<Uuid>, typedEmail: string)
      returns (r: Result<(), TeamError>)
      modifies this
      ensures var after := EraseSubject(old(State()), p, tenant, subject, typedEmail);
              if after.Success? then r == Success(()) && State() == after.value
              else r == Failure(after.error) && State() == old(State())
    {
      var found := ResolveSubject(State(), p, tenant, subject, typedEmail);
      if found.None? {
        return Failure(NotFound);
      }
      var i, email := found.value, ErasedEmail(p, users[found.value].id);
      var taken := Find(users, AnyUser(tenant, email));
      if taken.Some? && taken != found {
        return Failure(IntegrityFailure);
      }
      users := users[i := users[i].(isActive := false)];
      users := users[i := users[i].(deleted := true)];
      users := users[i := users[i].(email := email)];
      return Success(());
    }

    /** `apply_webhook_event`. */
    method ChangePlan(tenant: Uuid, planKey: string)
      modifies this
      ensures State() == ApplyPlan(old(State()), tenant, planKey)
    {
      plans := plans[tenant := planKey];
    }
  }
}

/**
 * Whole runs of user and invitation management: the seat bound, and who an invitation can admit.
 */
module TeamRuns {
  import opened Wrappers
  import opened Billing
  import opened InviteKeys
  import opened Select
  import opened Team

  datatype Step =
    | Invite(tenant: Uuid, id: Uuid, email: string, role: Role, key: string, salt: nat, now: int)
    | Accept(slug: string, email: string, typedKey: string, user: Uuid, now: int)
    | Regenerate(tenant: Uuid, id: Uuid, key: string, salt: nat)
    | RevokeInvite(tenant: Uuid, id: Uuid)
    | AddUser(tenant: Uuid, user: Uuid, email: string, role: Role)
    | Update(tenant: Uuid, current: Uuid, user: Uuid, newRole: Option<Role>, isActive: Option<bool>)
    | Deactivate(tenant: Uuid, current: Uuid, user: Uuid)
    | Erase(tenant: Uuid, subject: Option<Uuid>, email: string)
    | ChangePlan(tenant: Uuid, planKey: string)

  function Outcome(t: Tables, p: Platform, s: Step): Result<Tables, TeamError> {
    match s
    case Invite(tenant, id, email, role, key, salt, now) =>
      CreateInvitation(t, p, tenant, id, email, role, key, salt, now)
    case Accept(slug, email, typedKey, user, now) => AcceptInvitation(t, p, slug, email, typedKey, user, now)
    case Regenerate(tenant, id, key, salt) => RegenerateToken(t, p, tenant, id, key, salt)
    case RevokeInvite(tenant, id) => Team.Revoke(t, tenant, id)
    case AddUser(tenant, user, email, role) => CreateUser(t, p, tenant, user, email, role)
    case Update(tenant, current, user, role, isActive) => UpdateUser(t, tenant, current, user, role, isActive)
    case Deactivate(tenant, current, user) => DeactivateUser(t, tenant, current, user)
    case Erase(tenant, subject, email) => EraseSubject(t, p, tenant, subject, email)
    case ChangePlan(tenant, planKey) => Success(ApplyPlan(t, tenant, planKey))
  }

  /** A refused request leaves the tables as they were. */
  function Apply(t: Tables, p: Platform, s: Step): Tables {
    match Outcome(t, p, s)
    case Success(after) => after
    case Failure(_) => t
  }

  function Final(t: Tables, p: Platform, steps: seq<Step>): Tables
    decreases |steps|
  {
    if steps == [] then t else Final(Apply(t, p, steps[0]), p, steps[1..])
  }

  // ---------- The seat bound ----------

  /** Active users plus pending invitations are within the seats of the plan in force. */
  predicate WithinSeats(t: Tables, p: Platform, tenant: Uuid) {
    Within(SeatLimit(t, p, tenant), SeatCount(t, tenant))
  }

  /** An update that reactivates an inactive user when every seat is taken. */
  predicate ReactivatesFull(t: Tables, p: Platform, s: Step, tenant: Uuid) {
    && s.Update? && s.tenant == tenant && s.isActive == Some(true)
    && !QuotaAllows(SeatLimit(t, p, tenant), SeatCount(t, tenant))
    && var found := LoadTenantUser(t, tenant, s.user);
       found.Some? && !t.users[found.value].isActive
  }

  /** A change to a plan with fewer seats than are taken. */
  predicate Downgrades(t: Tables, p: Platform, s: Step, tenant: Uuid) {
    && s.ChangePlan? && s.tenant == tenant
    && !Within(LimitInForce(p.billing, Some(s.planKey), Seats), SeatCount(t, tenant))
  }

  predicate Overfills(t: Tables, p: Platform, s: Step, tenant: Uuid) {
    ReactivatesFull(t, p, s, tenant) || Downgrades(t, p, s, tenant)
  }

  predicate NeverOverfills(t: Tables, p: Platform, steps: seq<Step>, tenant: Uuid)
    decreases |steps|
  {
    steps == [] || (!Overfills(t, p, steps[0], tenant) && NeverOverfills(Apply(t, p, steps[0]), p, steps[1..], tenant))
  }

  /** The bound holds in every state of the run. */
  predicate AlwaysWithin(t: Tables, p: Platform, steps: seq<Step>, tenant: Uuid)
    decreases |steps|
  {
    && WithinSeats(t, p, tenant)
    && (steps == [] || AlwaysWithin(Apply(t, p, steps[0]), p, steps[1..], tenant))
  }

  /** Only a plan change moves a seat limit. */
  lemma {:induction false} LimitStays(t: Tables, p: Platform, s: Step, tenant: Uuid)
    requires !(s.ChangePlan? && s.tenant == tenant)
    ensures SeatLimit(Apply(t, p, s), p, tenant) == SeatLimit(t, p, tenant)
  {
  }

  lemma {:induction false} UpdateAndBound(t: Tables, p: Platform, s: Step, tenant: Uuid)
    requires s.Update? && WithinSeats(t, p, tenant)
    ensures WithinSeats(Apply(t, p, s), p, tenant) <==> !Overfills(t, p, s, tenant)
  {
    UpdatingMovesSeats(t, s.tenant, s.current, s.user, s.newRole, s.isActive, tenant);
    LimitStays(t, p, s, tenant);
  }

  lemma {:induction false} OtherStepsKeepBound(t: Tables, p: Platform, s: Step, tenant: Uuid)
    requires !s.Update? && !(s.ChangePlan? && s.tenant == tenant) && WithinSeats(t, p, tenant)
    ensures WithinSeats(Apply(t, p, s), p, tenant)
  {
    LimitStays(t, p, s, tenant);
    match s
    case Invite(te, id, email, role, key, salt, now) =>
      InvitingTakesASeat(t, p, te, id, email, role, key, salt, now, tenant);
    case Accept(slug, email, typedKey, user, now) =>
      AcceptingConservesSeats(t, p, slug, email, typedKey, user, now, tenant);
    case Regenerate(te, id, key, salt) => RegeneratingConservesSeats(t, p, te, id, key, salt, tenant);
    case RevokeInvite(te, id) => RevokingFreesPendingSeats(t, te, id, tenant);
    case AddUser(te, user, email, role) => CreatingTakesASeat(t, p, te, user, email, role, tenant);
    case Deactivate(te, current, user) => DeactivatingFreesActiveSeats(t, te, current, user, tenant);
    case Erase(te, subject, email) => ErasingFreesActiveSeats(t, p, te, subject, email, tenant);
    case ChangePlan(_, _) =>
  }

  /** A step leaves the bound exactly when it overfills. */
  lemma {:induction false} StepAndBound(t: Tables, p: Platform, s: Step, tenant: Uuid)
    requires WithinSeats(t, p, tenant)
    ensures WithinSeats(Apply(t, p, s), p, tenant) <==> !Overfills(t, p, s, tenant)
  {
    if s.Update? {
      UpdateAndBound(t, p, s, tenant);
    } else if !(s.ChangePlan? && s.tenant == tenant) {
      OtherStepsKeepBound(t, p, s, tenant);
    }
  }

  /**
   * Over every run, active users plus pending invitations stay within the seats of the plan in force, in
   * every state, exactly when no update reactivates a user while all seats are taken and no plan change
   * leaves fewer seats than are taken.
   */
  lemma {:induction false} SeatBoundOverRuns(t: Tables, p: Platform, steps: seq<Step>, tenant: Uuid)
    requires WithinSeats(t, p, tenant)
    ensures AlwaysWithin(t, p, steps, tenant) <==> NeverOverfills(t, p, steps, tenant)
    decreases |steps|
  {
    if steps != [] {
      StepAndBound(t, p, steps[0], tenant);
      if !Overfills(t, p, steps[0], tenant) {
        SeatBoundOverRuns(Apply(t, p, steps[0]), p, steps[1..], tenant);
      } else {
        assert !AlwaysWithin(Apply(t, p, steps[0]), p, steps[1..], tenant);
      }
    }
  }

  /** While billing is off no seat limit is ever in force. */
  lemma {:induction false} BillingOffNeverBinds(t: Tables, p: Platform, steps: seq<Step>, tenant: Uuid)
    requires !p.billing.enabled
    ensures NeverOverfills(t, p, steps, tenant) && AlwaysWithin(t, p, steps, tenant)
    decreases |steps|
  {
    if steps != [] {
      BillingOffNeverBinds(Apply(t, p, steps[0]), p, steps[1..], tenant);
    }
  }

  // A trial plan tenant (three seats) with an owner and up to three members.

  const OWNER := User(1, 7, "owner", Authz.Owner, true, false)
  const ANN := User(2, 7, "ann", Authz.Member, true, false)
  const ANN_AWAY := User(2, 7, "ann", Authz.Member, false, false)
  const BOB := User(3, 7, "bob", Authz.Member, true, false)
  const CY := User(4, 7, "cy", Authz.Member, true, false)

  function Staff(tenants: map<string, Uuid>, users: seq<User>): Tables {
    Tables(tenants, map[], users, [])
  }

  const ADD_ANN := AddUser(7, 2, "ann", Authz.Member)
  const ADD_BOB := AddUser(7, 3, "bob", Authz.Member)
  const ADD_CY := AddUser(7, 4, "cy", Authz.Member)
  const REST_ANN := Update(7, 1, 2, None, Some(false))
  const RECALL_ANN := Update(7, 1, 2, None, Some(true))

  /**
   * A run over the limit, from an owner alone on the trial plan: add two users, make one inactive, add
   * another, reactivate the first. Four users are then active on three seats.
   */
  lemma {:induction false} ReactivationOverfills(p: Platform, tenants: map<string, Uuid>)
    requires p.billing == BillingSettings(true, "trial")
    requires p.lower("ann") == "ann" && p.lower("bob") == "bob" && p.lower("cy") == "cy"
    ensures var t := Staff(tenants, [OWNER]);
            var steps := [ADD_ANN, ADD_BOB, REST_ANN, ADD_CY, RECALL_ANN];
            && IsRun(t, p, steps) && WithinSeats(t, p, 7) && !AlwaysWithin(t, p, steps, 7)
            && SeatLimit(Final(t, p, steps), p, 7) == Some(3) && SeatCount(Final(t, p, steps), 7) == 4
  {
    var t := Staff(tenants, [OWNER]);
    var after, tail := Staff(tenants, [OWNER, ANN, BOB]), [REST_ANN, ADD_CY, RECALL_ANN];
    OverfillingTail(p, tenants);
    SeatsUpToThree(tenants);
    SeatsOfFour(tenants);
    AddsOne(Staff(tenants, [OWNER, ANN]), p, ADD_BOB, after);
    ConsRun(Staff(tenants, [OWNER, ANN]), p, ADD_BOB, tail, after, Staff(tenants, [OWNER, ANN, BOB, CY]));
    AddsOne(t, p, ADD_ANN, Staff(tenants, [OWNER, ANN]));
    ConsRun(t, p, ADD_ANN, [ADD_BOB] + tail, Staff(tenants, [OWNER, ANN]), Staff(tenants, [OWNER, ANN, BOB, CY]));
    var steps := [ADD_ANN, ADD_BOB, REST_ANN, ADD_CY, RECALL_ANN];
    assert [ADD_ANN] + ([ADD_BOB] + tail) == steps;
    FinalWithin(t, p, steps, 7);
  }

  lemma {:induction false} OverfillingTail(p: Platform, tenants: map<string, Uuid>)
    requires p.billing == BillingSettings(true, "trial") && p.lower("cy") == "cy"
    ensures var t, steps := Staff(tenants, [OWNER, ANN, BOB]), [REST_ANN, ADD_CY, RECALL_ANN];
            IsRun(t, p, steps) && Final(t, p, steps) == Staff(tenants, [OWNER, ANN, BOB, CY])
  {
    var t2, t3 := Staff(tenants, [OWNER, ANN, BOB]), Staff(tenants, [OWNER, ANN_AWAY, BOB]);
    var t4, t5 := Staff(tenants, [OWNER, ANN_AWAY, BOB, CY]), Staff(tenants, [OWNER, ANN, BOB, CY]);
    UpdatesSecond(t4, p, RECALL_ANN, t5);
    LastRunStep(t4, p, RECALL_ANN, t5);
    SeatsUpToThree(tenants);
    AddsOne(t3, p, ADD_CY, t4);
    ConsRun(t3, p, ADD_CY, [RECALL_ANN], t4, t5);
    UpdatesSecond(t2, p, REST_ANN, t3);
    ConsRun(t2, p, REST_ANN, [ADD_CY] + [RECALL_ANN], t3, t5);
    assert [REST_ANN] + ([ADD_CY] + [RECALL_ANN]) == [REST_ANN, ADD_CY, RECALL_ANN];
  }

  lemma {:induction false} SeatsUpToThree(tenants: map<string, Uuid>)
    ensures SeatCount(Staff(tenants, [OWNER]), 7) == 1 && SeatCount(Staff(tenants, [OWNER, ANN]), 7) == 2
    ensures SeatCount(Staff(tenants, [OWNER, ANN_AWAY, BOB]), 7) == 2
  {
    SeatOfOne(tenants, [], OWNER);
    assert [] + [OWNER] == [OWNER];
    SeatOfOne(tenants, [OWNER], ANN);
    assert [OWNER] + [ANN] == [OWNER, ANN];
    SeatOfOne(tenants, [OWNER], ANN_AWAY);
    SeatOfOne(tenants, [OWNER, ANN_AWAY], BOB);
    assert [OWNER] + [ANN_AWAY] == [OWNER, ANN_AWAY] && [OWNER, ANN_AWAY] + [BOB] == [OWNER, ANN_AWAY, BOB];
  }

  lemma {:induction false} SeatsOfFour(tenants: map<string, Uuid>)
    ensures SeatCount(Staff(tenants, [OWNER, ANN, BOB, CY]), 7) == 4
  {
    SeatsUpToThree(tenants);
    SeatOfOne(tenants, [OWNER, ANN], BOB);
    SeatOfOne(tenants, [OWNER, ANN, BOB], CY);
    assert [OWNER, ANN] + [BOB] == [OWNER, ANN, BOB] && [OWNER, ANN, BOB] + [CY] == [OWNER, ANN, BOB, CY];
  }

  lemma {:induction false} SeatOfOne(tenants: map<string, Uuid>, users: seq<User>, u: User)
    requires u.tenant == 7 && !u.deleted
    ensures SeatCount(Staff(tenants, users + [u]), 7)
         == SeatCount(Staff(tenants, users), 7) + if u.isActive then 1 else 0
  {
    CountAppend(users, u, ActiveIn(7));
  }

  lemma {:induction false} AddsOne(t: Tables, p: Platform, s: Step, after: Tables)
    requires s.AddUser? && s.tenant == 7 && p.lower(s.email) == s.email
    requires after == t.(users := t.users + [User(s.user, 7, s.email, s.role, true, false)])
    requires QuotaAllows(SeatLimit(t, p, 7), SeatCount(t, 7))
    requires forall i | 0 <= i < |t.users| :: t.users[i].id != s.user && t.users[i].email != s.email
    ensures Enabled(t, s) && Apply(t, p, s) == after
  {
    assert Find(t.users, AnyUser(7, s.email)).None? && Find(t.users, UserId(s.user)).None?;
  }

  lemma {:induction false} UpdatesSecond(t: Tables, p: Platform, s: Step, after: Tables)
    requires s.Update? && s.tenant == 7 && s.user != s.current && s.newRole.None? && s.isActive.Some?
    requires |t.users| > 1 && t.users[0].id != s.user && t.users[1].id == s.user
    requires t.users[1].tenant == 7 && !t.users[1].deleted
    requires after == t.(users := t.users[1 := t.users[1].(isActive := s.isActive.value)])
    ensures Enabled(t, s) && Apply(t, p, s) == after
  {
    assert !UserId(s.user)(t.users[0]) && UserId(s.user)(t.users[1]);
    assert Find(t.users, UserId(s.user)) == Some(1);
  }

  lemma {:induction false} LastRunStep(t: Tables, p: Platform, s: Step, after: Tables)
    requires Enabled(t, s) && Apply(t, p, s) == after
    ensures IsRun(t, p, [s]) && Final(t, p, [s]) == after
  {
    assert [s][1..] == [];
  }

  lemma {:induction false} ConsRun(t: Tables, p: Platform, s: Step, rest: seq<Step>, next: Tables, last: Tables)
    requires Enabled(t, s) && Apply(t, p, s) == next && IsRun(next, p, rest) && Final(next, p, rest) == last
    ensures IsRun(t, p, [s] + rest) && Final(t, p, [s] + rest) == last
  {
    assert ([s] + rest)[1..] == rest;
  }

  /** A run that stays within the limit ends within it. */
  lemma {:induction false} FinalWithin(t: Tables, p: Platform, steps: seq<Step>, tenant: Uuid)
    ensures AlwaysWithin(t, p, steps, tenant) ==> WithinSeats(Final(t, p, steps), p, tenant)
    decreases |steps|
  {
    if steps != [] {
      FinalWithin(Apply(t, p, steps[0]), p, steps[1..], tenant);
    }
  }

  // ---------- The tables stay consistent ----------

  predicate UniqueUsers(users: seq<User>) {
    forall i, j | 0 <= i < j < |users| ::
      users[i].id != users[j].id && !(users[i].tenant == users[j].tenant && users[i].email == users[j].email)
  }

  /** At most one pending invitation per tenant and email. */
  predicate OnePendingEach(invites: seq<Invitation>) {
    forall i, j | 0 <= i < j < |invites| ::
      && invites[i].id != invites[j].id
      && !(invites[i].status == Pending && invites[j].status == Pending
           && invites[i].tenant == invites[j].tenant && invites[i].email == invites[j].email)
  }

  predicate Sound(t: Tables) {
    UniqueUsers(t.users) && OnePendingEach(t.invites)
  }

  /** Ids are fresh and keys are drawn from the alphabet. */
  predicate Enabled(t: Tables, s: Step) {
    match s
    case Invite(_, id, _, _, key, _, _) => IsRawKey(key) && Find(t.invites, InviteId(id)).None?
    case Accept(_, _, _, user, _) => Find(t.users, UserId(user)).None?
    case Regenerate(_, _, key, _) => IsRawKey(key)
    case AddUser(_, user, _, _) => Find(t.users, UserId(user)).None?
    case _ => true
  }

  predicate IsRun(t: Tables, p: Platform, steps: seq<Step>)
    decreases |steps|
  {
    steps == [] || (Enabled(t, steps[0]) && IsRun(Apply(t, p, steps[0]), p, steps[1..]))
  }

  lemma {:induction false} StepKeepsSound(t: Tables, p: Platform, s: Step)
    requires Sound(t) && Enabled(t, s)
    ensures Sound(Apply(t, p, s))
  {
    StepKeepsUsers(t, p, s);
    StepKeepsInvites(t, p, s);
  }

  lemma {:induction false} StepKeepsUsers(t: Tables, p: Platform, s: Step)
    requires UniqueUsers(t.users) && Enabled(t, s)
    ensures UniqueUsers(Apply(t, p, s).users)
  {
    var after := Apply(t, p, s);
    if |after.users| > |t.users| {
      NewUserIsUnique(t, p, s);
    } else if s.Erase? {
      ErasedUserIsUnique(t, p, s);
    }
  }

  lemma {:induction false} NewUserIsUnique(t: Tables, p: Platform, s: Step)
    requires UniqueUsers(t.users) && Enabled(t, s) && |Apply(t, p, s).users| > |t.users|
    ensures UniqueUsers(Apply(t, p, s).users)
  {
    var row := Apply(t, p, s).users[|t.users|];
    forall i | 0 <= i < |t.users|
      ensures t.users[i].id != row.id && !(t.users[i].tenant == row.tenant && t.users[i].email == row.email)
    {
      assert !UserId(row.id)(t.users[i]) && !AnyUser(row.tenant, row.email)(t.users[i]);
    }
  }

  lemma {:induction false} ErasedUserIsUnique(t: Tables, p: Platform, s: Step)
    requires UniqueUsers(t.users) && s.Erase?
    ensures UniqueUsers(Apply(t, p, s).users)
  {
    if Outcome(t, p, s).Success? {
      var i := ResolveSubject(t, p, s.tenant, s.subject, s.email).value;
      var email := ErasedEmail(p, t.users[i].id);
      forall j | 0 <= j < |t.users| && j != i ensures !AnyUser(s.tenant, email)(t.users[j]) {
        if Find(t.users, AnyUser(s.tenant, email)) == Some(i) {
          assert AnyUser(s.tenant, email)(t.users[i]);
        }
      }
    }
  }

  lemma {:induction false} StepKeepsInvites(t: Tables, p: Platform, s: Step)
    requires OnePendingEach(t.invites) && Enabled(t, s)
    ensures OnePendingEach(Apply(t, p, s).invites)
  {
    var after := Apply(t, p, s);
    if |after.invites| > |t.invites| {
      var row := after.invites[|t.invites|];
      forall i | 0 <= i < |t.invites| ensures t.invites[i].id != row.id
          && !PendingFor(row.tenant, row.email)(t.invites[i]) {
        assert !InviteId(row.id)(t.invites[i]) && !PendingFor(row.tenant, row.email)(t.invites[i]);
      }
    }
  }

  /** Over every run: unique users, and at most one pending invitation per tenant and email. */
  lemma {:induction false} RunKeepsSound(t: Tables, p: Platform, steps: seq<Step>)
    requires Sound(t) && IsRun(t, p, steps)
    ensures Sound(Final(t, p, steps))
    decreases |steps|
  {
    if steps != [] {
      StepKeepsSound(t, p, steps[0]);
      RunKeepsSound(Apply(t, p, steps[0]), p, steps[1..]);
    }
  }

  // ---------- An invitation admits one user ----------

  /** The invitation a step turns into a user. */
  function AdmittedBy(t: Tables, p: Platform, s: Step): Option<Uuid> {
    if s.Accept? && Outcome(t, p, s).Success? then
      var tenant := t.tenants[p.lower(s.slug)];
      Some(t.invites[Find(t.invites, PendingFor(tenant, p.lower(s.email))).value].id)
    else None
  }

  function Admissions(t: Tables, p: Platform, steps: seq<Step>, id: Uuid): nat
    decreases |steps|
  {
    if steps == [] then 0
    else
      (if AdmittedBy(t, p, steps[0]) == Some(id) then 1 else 0)
        + Admissions(Apply(t, p, steps[0]), p, steps[1..], id)
  }

  /** The invitation exists and is no longer pending. */
  predicate Closed(t: Tables, id: Uuid) {
    var found := Find(t.invites, InviteId(id));
    found.Some? && t.invites[found.value].status != Pending
  }

  lemma {:induction false} FindById(invites: seq<Invitation>, i: nat)
    requires OnePendingEach(invites) && i < |invites|
    ensures Find(invites, InviteId(invites[i].id)) == Some(i)
  {
    assert InviteId(invites[i].id)(invites[i]);
  }

  /** A closed invitation stays closed and admits nobody. */
  lemma {:induction false} ClosedStaysClosed(t: Tables, p: Platform, s: Step, id: Uuid)
    requires Sound(t) && Enabled(t, s) && Closed(t, id)
    ensures Closed(Apply(t, p, s), id) && AdmittedBy(t, p, s) != Some(id)
  {
    var after := Apply(t, p, s);
    var i := Find(t.invites, InviteId(id)).value;
    StepKeepsInvites(t, p, s);
    if s.Accept? && Outcome(t, p, s).Success? {
      var j := Find(t.invites, PendingFor(t.tenants[p.lower(s.slug)], p.lower(s.email))).value;
      assert t.invites[j].status == Pending && i != j;
      FindById(t.invites, j);
    }
    assert after.invites[i].id == id && after.invites[i].status != Pending;
    FindById(after.invites, i);
  }

  /** Admitting closes the invitation. */
  lemma {:induction false} AdmittingCloses(t: Tables, p: Platform, s: Step)
    requires Sound(t) && Enabled(t, s) && AdmittedBy(t, p, s).Some?
    ensures Closed(Apply(t, p, s), AdmittedBy(t, p, s).value)
  {
    var j := Find(t.invites, PendingFor(t.tenants[p.lower(s.slug)], p.lower(s.email))).value;
    var after := Apply(t, p, s);
    StepKeepsInvites(t, p, s);
    assert after.invites[j].id == AdmittedBy(t, p, s).value;
    FindById(after.invites, j);
  }

  /** Each invitation admits at most one user over a whole run, and none once accepted or revoked. */
  lemma {:induction false} AdmitsAtMostOne(t: Tables, p: Platform, steps: seq<Step>, id: Uuid)
    requires Sound(t) && IsRun(t, p, steps)
    ensures Admissions(t, p, steps, id) <= if Closed(t, id) then 0 else 1
    decreases |steps|
  {
    if steps != [] {
      var s := steps[0];
      StepKeepsSound(t, p, s);
      AdmitsAtMostOne(Apply(t, p, s), p, steps[1..], id);
      if Closed(t, id) {
        ClosedStaysClosed(t, p, s, id);
      } else if AdmittedBy(t, p, s) == Some(id) {
        AdmittingCloses(t, p, s);
      }
    }
  }

  // ---------- Only the latest key admits ----------

  /** The last key issued for each invitation. */
  function Issued(t: Tables, p: Platform, steps: seq<Step>, keys: map<Uuid, string>): map<Uuid, string>
    decreases |steps|
  {
    if steps == [] then keys
    else Issued(Apply(t, p, steps[0]), p, steps[1..], IssuedBy(t, p, steps[0], keys))
  }

  function IssuedBy(t: Tables, p: Platform, s: Step, keys: map<Uuid, string>): map<Uuid, string> {
    if Outcome(t, p, s).Failure? then keys
    else if s.Invite? || s.Regenerate? then keys[s.id := s.key]
    else keys
  }

  /** Every stored hash verifies exactly the key in the map. */
  ghost predicate Holds(t: Tables, p: Platform, keys: map<Uuid, string>) {
    forall i | 0 <= i < |t.invites| :: HoldsKey(t.invites[i], p, keys)
  }

  ghost predicate HoldsKey(invite: Invitation, p: Platform, keys: map<Uuid, string>) {
    && invite.id in keys && IsRawKey(keys[invite.id])
    && forall typed :: p.verify(typed, invite.tokenHash) <==> typed == keys[invite.id]
  }

  lemma {:induction false} StepKeepsKeys(t: Tables, p: Platform, s: Step, keys: map<Uuid, string>)
    requires Sound(t) && Enabled(t, s) && IdealHash(p) && Holds(t, p, keys)
    ensures Holds(Apply(t, p, s), p, IssuedBy(t, p, s, keys))
  {
    var after, issued := Apply(t, p, s), IssuedBy(t, p, s, keys);
    forall i | 0 <= i < |after.invites| ensures HoldsKey(after.invites[i], p, issued) {
      if i < |t.invites| {
        assert HoldsKey(t.invites[i], p, keys);
        FindById(t.invites, i);
        assert s.Invite? && Outcome(t, p, s).Success? ==> !InviteId(s.id)(t.invites[i]);
      }
    }
  }

  lemma {:induction false} RunKeepsKeys(t: Tables, p: Platform, steps: seq<Step>, keys: map<Uuid, string>)
    requires Sound(t) && IsRun(t, p, steps) && IdealHash(p) && Holds(t, p, keys)
    ensures Holds(Final(t, p, steps), p, Issued(t, p, steps, keys))
    decreases |steps|
  {
    if steps != [] {
      StepKeepsKeys(t, p, steps[0], keys);
      StepKeepsSound(t, p, steps[0]);
      RunKeepsKeys(Apply(t, p, steps[0]), p, steps[1..], IssuedBy(t, p, steps[0], keys));
    }
  }

  /** The pending, unexpired invitation of this tenant and email, whose latest key is `key`. */
  predicate Admissible(t: Tables, tenant: Uuid, email: string, key: string, now: int, keys: map<Uuid, string>) {
    exists i :: 0 <= i < |t.invites| && PendingFor(tenant, email)(t.invites[i]) && now <= t.invites[i].expiresAt
                && t.invites[i].id in keys && keys[t.invites[i].id] == key
  }

  /** The join added one active user, with the email and role of the invitation it closed, and nothing else. */
  ghost predicate Joined(t: Tables, after: Tables, tenant: Uuid, email: string, user: Uuid) {
    && |after.users| == |t.users| + 1 && after.users[..|t.users|] == t.users
    && exists i :: 0 <= i < |t.invites| == |after.invites| && PendingFor(tenant, email)(t.invites[i])
                   && after.users[|t.users|] == User(user, tenant, email, t.invites[i].role, true, false)
                   && after.invites[i].status == Accepted
                   && forall j | 0 <= j < |t.invites| && j != i :: after.invites[j] == t.invites[j]
  }

  /** No row of the users table, soft-deleted or not, has this tenant and email. */
  predicate EmailFree(t: Tables, tenant: Uuid, email: string) {
    forall i | 0 <= i < |t.users| :: !AnyUser(tenant, email)(t.users[i])
  }

  /**
   * After every run, a join request succeeds exactly when the tenant has a pending, unexpired
   * invitation for that email whose latest issued key is what the typed key normalises to, and no user
   * row has the email. A success adds one active user with the invited email and role.
   */
  lemma {:induction false} OnlyLatestKeyAdmits(t0: Tables, p: Platform, steps: seq<Step>, keys0: map<Uuid, string>,
                                               slug: string, email: string, typedKey: string, user: Uuid, now: int)
    requires Sound(t0) && IsRun(t0, p, steps) && IdealHash(p) && Holds(t0, p, keys0)
    requires p.lower(slug) in Final(t0, p, steps).tenants
    ensures var t, keys := Final(t0, p, steps), Issued(t0, p, steps, keys0);
            var tenant := t.tenants[p.lower(slug)];
            AcceptInvitation(t, p, slug, email, typedKey, user, now).Success?
            <==> Admissible(t, tenant, p.lower(email), NormalizeKey(p.upper, typedKey), now, keys)
                 && EmailFree(t, tenant, p.lower(email))
    ensures var r := AcceptInvitation(Final(t0, p, steps), p, slug, email, typedKey, user, now);
            r.Success? ==>
              Joined(Final(t0, p, steps), r.value, Final(t0, p, steps).tenants[p.lower(slug)], p.lower(email), user)
  {
    RunKeepsKeys(t0, p, steps, keys0);
    RunKeepsSound(t0, p, steps);
    AcceptCondition(Final(t0, p, steps), p, Issued(t0, p, steps, keys0), slug, email, typedKey, user, now);
    AcceptEffect(Final(t0, p, steps), p, slug, email, typedKey, user, now);
  }

  lemma {:induction false} AcceptEffect(t: Tables, p: Platform, slug: string, email: string, typedKey: string,
                                        user: Uuid, now: int)
    requires p.lower(slug) in t.tenants
    ensures var r := AcceptInvitation(t, p, slug, email, typedKey, user, now);
            r.Success? ==> Joined(t, r.value, t.tenants[p.lower(slug)], p.lower(email), user)
  {
    var r := AcceptInvitation(t, p, slug, email, typedKey, user, now);
    if r.Success? {
      var i := Find(t.invites, PendingFor(t.tenants[p.lower(slug)], p.lower(email))).value;
      assert r.value.users[..|t.users|] == t.users;
      assert r.value.invites[i].status == Accepted;
    }
  }

  lemma {:induction false} AcceptCondition(t: Tables, p: Platform, keys: map<Uuid, string>, slug: string, email: string,
                                           typedKey: string, user: Uuid, now: int)
    requires Sound(t) && Holds(t, p, keys) && p.lower(slug) in t.tenants
    ensures var tenant := t.tenants[p.lower(slug)];
            AcceptInvitation(t, p, slug, email, typedKey, user, now).Success?
            <==> Admissible(t, tenant, p.lower(email), NormalizeKey(p.upper, typedKey), now, keys)
                 && EmailFree(t, tenant, p.lower(email))
  {
    var tenant, e, key := t.tenants[p.lower(slug)], p.lower(email), NormalizeKey(p.upper, typedKey);
    var found := Find(t.invites, PendingFor(tenant, e));
    if found.Some? {
      var i := found.value;
      assert HoldsKey(t.invites[i], p, keys);
      assert forall j | 0 <= j < |t.invites| && PendingFor(tenant, e)(t.invites[j]) :: j == i;
    }
    if Find(t.users, AnyUser(tenant, e)).Some? {
      assert !EmailFree(t, tenant, e);
    }
  }

  /**
   * The generic error is the answer exactly when there is no such invitation or the key is not its
   * latest one: the other errors are told only to somebody who holds the right key.
   */
  lemma {:induction false} GenericErrorWithoutKey(t: Tables, p: Platform, keys: map<Uuid, string>, slug: string,
                                                  email: string, typedKey: string, user: Uuid, now: int)
    requires Sound(t) && Holds(t, p, keys)
    ensures AcceptInvitation(t, p, slug, email, typedKey, user, now) == Failure(InvalidInvitation)
       <==> p.lower(slug) !in t.tenants
            || !Admissible(t, t.tenants[p.lower(slug)], p.lower(email), NormalizeKey(p.upper, typedKey), now, keys)
  {
    if p.lower(slug) in t.tenants {
      var tenant, e := t.tenants[p.lower(slug)], p.lower(email);
      var found := Find(t.invites, PendingFor(tenant, e));
      if found.Some? {
        assert HoldsKey(t.invites[found.value], p, keys);
        assert forall j | 0 <= j < |t.invites| && PendingFor(tenant, e)(t.invites[j]) :: j == found.value;
      }
    }
  }

  /**
   * A teammate who types any copy of the displayed key (either case, dashes optional, stray
   * characters anywhere) before it expires, with the email free, gets in.
   */
  lemma {:induction false} TypedCopyAdmits(t: Tables, p: Platform, keys: map<Uuid, string>, i: nat, slug: string,
                                           email: string, typedKey: string, user: Uuid, now: int)
    requires Sound(t) && Holds(t, p, keys) && UpperCases(p.upper) && p.lower(slug) in t.tenants
    requires i < |t.invites| && PendingFor(t.tenants[p.lower(slug)], p.lower(email))(t.invites[i])
        && now <= t.invites[i].expiresAt
    requires t.invites[i].id in keys && Copies(p.upper, Grouped(keys[t.invites[i].id]), typedKey)
    requires EmailFree(t, t.tenants[p.lower(slug)], p.lower(email))
    ensures AcceptInvitation(t, p, slug, email, typedKey, user, now).Success?
  {
    assert HoldsKey(t.invites[i], p, keys);
    NormalizeRecoversKey(p.upper, keys[t.invites[i].id], typedKey);
    AcceptCondition(t, p, keys, slug, email, typedKey, user, now);
  }

  // ---------- Seats that stay blocked ----------

  /** The row at this position is the same pending invitation, perhaps under a new key. */
  predicate StillPending(t: Tables, i: nat, invite: Invitation) {
    i < |t.invites| && t.invites[i].(tokenHash := invite.tokenHash) == invite && invite.status == Pending
  }

  /**
   * An expired invitation keeps its seat and its email: over every run without a revocation of it and
   * with no request before its expiry, it stays pending with the same expiry, regenerated or not, so
   * nobody joins with it and no new invitation for its email is issued.
   */
  lemma {:induction false} ExpiredInvitationBlocks(t: Tables, p: Platform, steps: seq<Step>, i: nat, invite: Invitation)
    requires Sound(t) && IsRun(t, p, steps) && StillPending(t, i, invite)
    requires forall k | 0 <= k < |steps| :: (steps[k].Accept? ==> invite.expiresAt < steps[k].now)
                                            && !(steps[k].RevokeInvite? && steps[k].id == invite.id)
    ensures StillPending(Final(t, p, steps), i, invite)
    ensures Admissions(t, p, steps, invite.id) == 0
    ensures forall id, email, role, key, salt, now ::
              p.lower(email) == invite.email
              ==> CreateInvitation(Final(t, p, steps), p, invite.tenant, id, email, role, key, salt, now).Failure?
    decreases |steps|
  {
    if steps == [] {
      assert PendingFor(invite.tenant, invite.email)(t.invites[i]);
    } else {
      ExpiredStaysPending(t, p, steps[0], i, invite);
      StepKeepsSound(t, p, steps[0]);
      ExpiredInvitationBlocks(Apply(t, p, steps[0]), p, steps[1..], i, invite);
    }
  }

  lemma {:induction false} ExpiredStaysPending(t: Tables, p: Platform, s: Step, i: nat, invite: Invitation)
    requires Sound(t) && Enabled(t, s) && StillPending(t, i, invite)
    requires (s.Accept? ==> invite.expiresAt < s.now) && !(s.RevokeInvite? && s.id == invite.id)
    ensures StillPending(Apply(t, p, s), i, invite) && AdmittedBy(t, p, s) != Some(invite.id)
  {
    if s.Accept? && Outcome(t, p, s).Success? {
      var j := Find(t.invites, PendingFor(t.tenants[p.lower(s.slug)], p.lower(s.email))).value;
      assert i != j;
      assert t.invites[i].id != t.invites[j].id;
    }
  }

  // ---------- The email of a removed user ----------

  /** Some soft-deleted user of the tenant has this email. */
  predicate WasRemoved(t: Tables, tenant: Uuid, email: string) {
    exists i :: 0 <= i < |t.users| && AnyUser(tenant, email)(t.users[i]) && t.users[i].deleted
  }

  /** The step gives a new user this tenant and email. */
  predicate Joins(t: Tables, p: Platform, s: Step, tenant: Uuid, email: string) {
    && Outcome(t, p, s).Success?
    && (s.Accept? ==> t.tenants[p.lower(s.slug)] == tenant && p.lower(s.email) == email)
    && (s.AddUser? ==> s.tenant == tenant && p.lower(s.email) == email)
    && (s.Accept? || s.AddUser?)
  }

  /** The step erases the data subject whose row holds this tenant and email, which moves the row off the email. */
  predicate Erases(t: Tables, p: Platform, s: Step, tenant: Uuid, email: string) {
    && s.Erase? && Outcome(t, p, s).Success?
    && var row := t.users[ResolveSubject(t, p, s.tenant, s.subject, s.email).value];
       AnyUser(tenant, email)(row) && ErasedEmail(p, row.id) != email
  }

  predicate NeverErased(t: Tables, p: Platform, steps: seq<Step>, tenant: Uuid, email: string)
    decreases |steps|
  {
    steps == []
    || (!Erases(t, p, steps[0], tenant, email) && NeverErased(Apply(t, p, steps[0]), p, steps[1..], tenant, email))
  }

  /** In every state of the run the email belongs to a removed user. */
  predicate StaysRemoved(t: Tables, p: Platform, steps: seq<Step>, tenant: Uuid, email: string)
    decreases |steps|
  {
    && WasRemoved(t, tenant, email)
    && (steps == [] || StaysRemoved(Apply(t, p, steps[0]), p, steps[1..], tenant, email))
  }

  /** No step of the run gives a new user the email. */
  predicate NobodyJoins(t: Tables, p: Platform, steps: seq<Step>, tenant: Uuid, email: string)
    decreases |steps|
  {
    steps == []
    || (!Joins(t, p, steps[0], tenant, email) && NobodyJoins(Apply(t, p, steps[0]), p, steps[1..], tenant, email))
  }

  /**
   * The email of a removed user, over every run: it stays that user's exactly as long as the row is not
   * erased, and until then nobody joins with it.
   */
  lemma {:induction false} RemovedEmailBlockedUntilErased(t: Tables, p: Platform, steps: seq<Step>, tenant: Uuid,
                                                          email: string)
    requires Sound(t) && IsRun(t, p, steps) && WasRemoved(t, tenant, email)
    ensures StaysRemoved(t, p, steps, tenant, email) <==> NeverErased(t, p, steps, tenant, email)
    ensures NeverErased(t, p, steps, tenant, email) ==> NobodyJoins(t, p, steps, tenant, email)
    decreases |steps|
  {
    if steps != [] {
      var s := steps[0];
      NoJoinNow(t, p, s, tenant, email);
      StepKeepsSound(t, p, s);
      if Erases(t, p, s, tenant, email) {
        ErasureFreesEmail(t, p, s, tenant, email);
        FreeIsNotRemoved(Apply(t, p, s), tenant, email);
        assert !StaysRemoved(Apply(t, p, s), p, steps[1..], tenant, email);
      } else {
        RemovedStays(t, p, s, tenant, email);
        RemovedEmailBlockedUntilErased(Apply(t, p, s), p, steps[1..], tenant, email);
      }
    }
  }

  /** The erasure frees the email at once: no row of the users table has it any more. */
  lemma {:induction false} ErasureFreesEmail(t: Tables, p: Platform, s: Step, tenant: Uuid, email: string)
    requires UniqueUsers(t.users) && Erases(t, p, s, tenant, email)
    ensures EmailFree(Apply(t, p, s), tenant, email)
  {
    var i := ResolveSubject(t, p, s.tenant, s.subject, s.email).value;
    var after := Apply(t, p, s);
    forall j | 0 <= j < |after.users| ensures !AnyUser(tenant, email)(after.users[j]) {
      if j != i {
        assert after.users[j] == t.users[j];
        assert t.users[i].tenant == tenant && t.users[i].email == email;
      }
    }
  }

  lemma {:induction false} FreeIsNotRemoved(t: Tables, tenant: Uuid, email: string)
    requires EmailFree(t, tenant, email)
    ensures !WasRemoved(t, tenant, email)
  {
  }

  lemma {:induction false} NoJoinNow(t: Tables, p: Platform, s: Step, tenant: Uuid, email: string)
    requires WasRemoved(t, tenant, email)
    ensures !Joins(t, p, s, tenant, email)
  {
    var i :| 0 <= i < |t.users| && AnyUser(tenant, email)(t.users[i]) && t.users[i].deleted;
  }

  lemma {:induction false} RemovedStays(t: Tables, p: Platform, s: Step, tenant: Uuid, email: string)
    requires WasRemoved(t, tenant, email) && !Erases(t, p, s, tenant, email)
    ensures WasRemoved(Apply(t, p, s), tenant, email)
  {
    var i :| 0 <= i < |t.users| && AnyUser(tenant, email)(t.users[i]) && t.users[i].deleted;
    var after := Apply(t, p, s);
    assert after.users[i] == t.users[i] || s.Update? || s.Deactivate? || s.Erase?;
    assert AnyUser(tenant, email)(after.users[i]) && after.users[i].deleted;
  }

  /**
   * Invitations for the email of a removed user are issued all the same: exactly when the quota allows
   * one more seat and none is pending for the email yet.
   */
  lemma {:induction false} RemovedEmailIsInvited(t: Tables, p: Platform, tenant: Uuid, id: Uuid, email: string,
                                                 role: Role, key: string, salt: nat, now: int)
    requires UniqueUsers(t.users) && WasRemoved(t, tenant, p.lower(email))
    ensures CreateInvitation(t, p, tenant, id, email, role, key, salt, now).Success?
       <==> QuotaAllows(SeatLimit(t, p, tenant), SeatCount(t, tenant))
            && Find(t.invites, PendingFor(tenant, p.lower(email))).None?
  {
    var i :| 0 <= i < |t.users| && AnyUser(tenant, p.lower(email))(t.users[i]) && t.users[i].deleted;
    NoLiveTwin(t, i);
  }

  /**
   * Removed, invited, refused, erased, admitted: the holder of a pending invitation whose email belongs to a
   * removed user is turned away by the database constraint, and gets in once the row is erased.
   */
  lemma {:induction false} ErasureAdmits(t: Tables, p: Platform, keys: map<Uuid, string>, erasure: Step, slug: string,
                                         email: string, typedKey: string, user: Uuid, now: int)
    requires Sound(t) && Holds(t, p, keys) && p.lower(slug) in t.tenants
    requires WasRemoved(t, t.tenants[p.lower(slug)], p.lower(email))
    requires Erases(t, p, erasure, t.tenants[p.lower(slug)], p.lower(email))
    requires Admissible(t, t.tenants[p.lower(slug)], p.lower(email), NormalizeKey(p.upper, typedKey), now, keys)
    ensures AcceptInvitation(t, p, slug, email, typedKey, user, now) == Failure(IntegrityFailure)
    ensures AcceptInvitation(Apply(t, p, erasure), p, slug, email, typedKey, user, now).Success?
  {
    var tenant, e := t.tenants[p.lower(slug)], p.lower(email);
    var after := Apply(t, p, erasure);
    ErasureFreesEmail(t, p, erasure, tenant, e);
    StepKeepsSound(t, p, erasure);
    AcceptCondition(after, p, keys, slug, email, typedKey, user, now);
    GenericErrorWithoutKey(t, p, keys, slug, email, typedKey, user, now);
    AcceptCondition(t, p, keys, slug, email, typedKey, user, now);
    var i :| 0 <= i < |t.users| && AnyUser(tenant, e)(t.users[i]) && t.users[i].deleted;
    NoLiveTwin(t, i);
  }

  /** A removed user's email is not also a live user's. */
  lemma {:induction false} NoLiveTwin(t: Tables, i: nat)
    requires UniqueUsers(t.users) && i < |t.users| && t.users[i].deleted
    ensures Find(t.users, LiveUser(t.users[i].tenant, t.users[i].email)).None?
  {
    forall j | 0 <= j < |t.users| ensures !LiveUser(t.users[i].tenant, t.users[i].email)(t.users[j]) {
      assert j == i || j < i || i < j;
    }
  }
}

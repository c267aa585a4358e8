/**
 * Plans and quotas (backend/app/services/billing_service.py, backend/app/services/plans_data.py).
 */
module Billing {
  import opened Wrappers

  datatype Resource = Seats | Documents | Queries

  /** `None` on a limit means unlimited. */
  datatype Plan = Plan(name: string, seats: Option<nat>, documents: Option<nat>, queriesPerMonth: Option<nat>)

  const PLANS: map<string, Plan> :=
    map["trial" := Plan("Trial", Some(3), Some(25), Some(200)),
        "pro" := Plan("Pro", Some(15), Some(500), Some(5000)),
        "business" := Plan("Business", None, None, None)]

  /** The billing switches and the key of the default plan. */
  datatype BillingSettings = BillingSettings(enabled: bool, defaultPlanKey: string)

  /** `plan_for`: the subscribed plan if it is known, else the default plan, else the first one. */
  function PlanFor(settings: BillingSettings, planKey: Option<string>): Plan {
    if planKey.Some? && planKey.value in PLANS then PLANS[planKey.value]
    else if settings.defaultPlanKey in PLANS then PLANS[settings.defaultPlanKey]
    else PLANS["trial"]
  }

  /** `_limit_for`. */
  function LimitFor(plan: Plan, resource: Resource): Option<nat> {
    match resource
    case Seats => plan.seats
    case Documents => plan.documents
    case Queries => plan.queriesPerMonth
  }

  /** The limit in force for a tenant: none while billing is off. */
  function LimitInForce(settings: BillingSettings, planKey: Option<string>, resource: Resource): Option<nat> {
    if settings.enabled then LimitFor(PlanFor(settings, planKey), resource) else None
  }

  /** The plan key of each tenant that has a subscription. */
  type Subscriptions = map<Uuid, string>

  /** What `enforce_quota` checks for a tenant: `subscription_for`, then the plan, then its limit. */
  function LimitOf(settings: BillingSettings, plans: Subscriptions, tenant: Uuid, resource: Resource): Option<nat> {
    LimitInForce(settings, if tenant in plans then Some(plans[tenant]) else None, resource)
  }

  /** `enforce_quota` lets one more unit of the resource through. */
  predicate QuotaAllows(limit: Option<nat>, count: nat) {
    limit.None? || count < limit.value
  }

  /** The count does not exceed the limit. */
  predicate Within(limit: Option<nat>, count: nat) {
    limit.None? || count <= limit.value
  }

  // ---------- The limits that are sold ----------

  /** The plan in force: the subscribed one if it exists, else the default if that exists, else the trial. */
  function PlanKey(settings: BillingSettings, plans: Subscriptions, tenant: Uuid): string {
    var sold := {"trial", "pro", "business"};
    if tenant in plans && plans[tenant] in sold then plans[tenant]
    else if settings.defaultPlanKey in sold then settings.defaultPlanKey
    else "trial"
  }

  /** The limits of every tenant, in numbers; nothing is limited while billing is off. */
  lemma {:induction false} LimitsAsSold(settings: BillingSettings, plans: Subscriptions, tenant: Uuid)
    ensures var seats := LimitOf(settings, plans, tenant, Seats);
            var documents := LimitOf(settings, plans, tenant, Documents);
            var queries := LimitOf(settings, plans, tenant, Queries);
            if !settings.enabled || PlanKey(settings, plans, tenant) == "business" then
              seats == None && documents == None && queries == None
            else if PlanKey(settings, plans, tenant) == "pro" then
              seats == Some(15) && documents == Some(500) && queries == Some(5000)
            else seats == Some(3) && documents == Some(25) && queries == Some(200)
  {
  }

  /** Room for one more, and no more than the limit, in numbers. */
  lemma {:induction false} QuotaInNumbers(limit: nat, count: nat)
    ensures QuotaAllows(None, count) && Within(None, count)
    ensures QuotaAllows(Some(limit), count) <==> count + 1 <= limit
    ensures Within(Some(limit), count) <==> count <= limit
  {
  }
}

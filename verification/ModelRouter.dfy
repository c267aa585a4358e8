/** Which client answers a node of the workflow (backend/app/services/model_router.py). */
module ModelRouter {
  import opened Wrappers

  datatype Node = Planner | Verifier | Synthesizer
  datatype Level = Public | Internal | Confidential | Privileged
  datatype Profile = Cloud | SelfHosted

  /** A client is known by its name. */
  datatype Route = Route(client: string, model: string, profile: Profile)

  datatype TenantSettings = TenantSettings(requireSelfHostedLlm: bool, sensitiveClassification: Level)

  datatype Models = Models(planner: string, verifier: string, synthesizer: string, selfHosted: string)

  /** The configured router, or the one pinned to a single injected client. */
  datatype Router =
    | ModelRouter(cloud: string, selfHosted: Option<string>)
    | SingleClientRouter(client: string)

  datatype RoutingError = SelfHostedNotConfigured

  function Rank(l: Level): nat {
    match l
    case Public => 0
    case Internal => 1
    case Confidential => 2
    case Privileged => 3
  }

  function CloudModel(m: Models, node: Node): string {
    match node
    case Planner => m.planner
    case Verifier => m.verifier
    case Synthesizer => m.synthesizer
  }

  function SelfHostedRoute(m: Models, selfHosted: Option<string>): Result<Route, RoutingError> {
    match selfHosted
    case None => Failure(SelfHostedNotConfigured)
    case Some(client) => Success(Route(client, m.selfHosted, SelfHosted))
  }

  /** `resolve`: deployment mode, then tenant policy, then classification, then the cloud. */
  function Resolve(r: Router, m: Models, node: Node, classification: Option<Level>, ts: TenantSettings, mode: string)
    : Result<Route, RoutingError>
  {
    match r
    case SingleClientRouter(client) => Success(Route(client, CloudModel(m, node), Cloud))
    case ModelRouter(cloud, selfHosted) =>
      if mode == "private_cloud" || mode == "air_gapped" then SelfHostedRoute(m, selfHosted)
      else if ts.requireSelfHostedLlm then SelfHostedRoute(m, selfHosted)
      else if classification.Some? && Rank(classification.value) >= Rank(ts.sensitiveClassification) then
        SelfHostedRoute(m, selfHosted)
      else Success(Route(cloud, CloudModel(m, node), Cloud))
  }

  /** The call must not leave the premises. */
  predicate MustStayHome(classification: Option<Level>, ts: TenantSettings, mode: string) {
    || mode in {"private_cloud", "air_gapped"}
    || ts.requireSelfHostedLlm
    || (classification.Some? && Rank(classification.value) >= Rank(ts.sensitiveClassification))
  }

  /**
   * Routing fails closed: a call that must stay home goes to the self-hosted client or nowhere, and
   * nothing else is ever refused.
   */
  lemma RoutingFailsClosed(r: Router, m: Models, node: Node, classification: Option<Level>, ts: TenantSettings,
                           mode: string)
    requires r.ModelRouter?
    ensures var route := Resolve(r, m, node, classification, ts, mode);
            var home := MustStayHome(classification, ts, mode);
            && (route.Failure? <==> home && r.selfHosted.None?)
            && (route.Success? ==> (route.value.profile == SelfHosted <==> home))
            && (route.Success? && home ==> Some(route.value.client) == r.selfHosted)
            && (route.Success? && !home ==> route.value.client == r.cloud)
  {
    assert mode in {"private_cloud", "air_gapped"} <==> mode == "private_cloud" || mode == "air_gapped";
  }

  /** Raising the classification never moves a call from the self-hosted client to the cloud. */
  lemma SensitivityIsMonotone(r: Router, m: Models, node: Node, low: Level, high: Level, ts: TenantSettings,
                              mode: string)
    requires r.ModelRouter? && Rank(low) <= Rank(high)
    ensures var a, b := Resolve(r, m, node, Some(low), ts, mode), Resolve(r, m, node, Some(high), ts, mode);
            (a.Failure? || a.value.profile == SelfHosted) ==> a == b
  {
  }

  /** The document is at least as sensitive as the tenant's threshold, level by level. */
  predicate IsSensitive(c: Level, threshold: Level) {
    match threshold
    case Public => true
    case Internal => c == Internal || c == Confidential || c == Privileged
    case Confidential => c == Confidential || c == Privileged
    case Privileged => c == Privileged
  }

  /** Where neither deployment nor tenant decide, the classification does, and only it. */
  lemma {:induction false} ClassificationDecides(m: Models, node: Node, cloud: string, home: string, ts: TenantSettings,
                                                 mode: string, c: Level)
    requires mode != "private_cloud" && mode != "air_gapped" && !ts.requireSelfHostedLlm
    ensures var route := Resolve(ModelRouter(cloud, Some(home)), m, node, Some(c), ts, mode);
            route.Success? && route.value.client == (if IsSensitive(c, ts.sensitiveClassification) then home else cloud)
    ensures Resolve(ModelRouter(cloud, None), m, node, Some(c), ts, mode).Failure?
       <==> IsSensitive(c, ts.sensitiveClassification)
  {
  }
}

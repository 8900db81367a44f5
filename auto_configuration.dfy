/**
 * config/FeaturePilotAutoConfiguration.java: the provider switch that picks
 * the manager, and how the client and the aspect are composed around it.
 */
module AutoConfiguration {
  import opened Wrappers
  import opened Common
  import opened Properties
  import opened Manager
  import opened Client
  import opened Aspect
  import Remote

  /** featureManager: "server" gives a remote manager (its cache starts empty),
      "local" a local one over the settings; any other name, matched exactly,
      is an IllegalArgumentException. */
  function FeatureManagerFor(props: FeaturePilotProperties): (r: Result<FeatureManager, string>)
    ensures props.source.provider == SERVER <==> r == Ok(RemoteManager(map[]))
    ensures props.source.provider == LOCAL <==> r == Ok(LocalManager(props))
    ensures r.Err? <==> props.source.provider != SERVER && props.source.provider != LOCAL
    ensures r.Err? ==> r.error == "Unknown provider: " + props.source.provider
  {
    var provider := props.source.provider;
    if provider == SERVER then Ok(RemoteManager(map[]))
    else if provider == LOCAL then Ok(LocalManager(props))
    else Err("Unknown provider: " + provider)
  }

  /** featureClient and featureAspect: the aspect's client wraps the selected
      manager, next to the scanned registry. */
  function FeatureAspectFor<T>(props: FeaturePilotProperties, flowRegistry: map<string, map<string, T>>): (r: Result<FeatureAspect<T>, string>)
    ensures r.Err? <==> FeatureManagerFor(props).Err?
    ensures r.Ok? ==> r.value.featureClient.featureManager == FeatureManagerFor(props).value
    ensures r.Ok? ==> r.value.flowRegistry == flowRegistry
  {
    match FeatureManagerFor(props)
    case Ok(mgr) => Ok(FeatureAspect(flowRegistry, FeatureClient(mgr)))
    case Err(e) => Err(e)
  }

  /** A source section that sets no provider selects the local manager. */
  lemma DefaultsSelectLocal()
    ensures FeatureManagerFor(DefaultProperties) == Ok(LocalManager(DefaultProperties))
  {
  }

  /** Matching is exact: "Server" is not a provider, and there is no silent default. */
  lemma ProviderMatchIsExact(props: FeaturePilotProperties)
    requires props.source.provider == "Server"
    ensures FeatureManagerFor(props) == Err("Unknown provider: Server")
  {
    assert props.source.provider[0] != SERVER[0] && props.source.provider[0] != LOCAL[0];
    assert "Unknown provider: " + "Server" == "Unknown provider: Server";
  }

  /** A freshly selected remote manager resolves every feature to "default"
      until its first poll. */
  lemma RemoteStartsAtDefault<A>(props: FeaturePilotProperties, feature: string, ctx: map<string, A>)
    requires props.source.provider == SERVER
    ensures Manager.GetFlow(FeatureManagerFor(props).value, feature, ctx) == DEFAULT
  {
  }

  /** The server branch over time: featureManager builds the remote manager,
      and the aspect composed with it (FeatureAspectFor) holds the empty cache
      it had then; @PostConstruct starts the poller, and an advised call made
      after the ticks reads the cache they left behind. A refresh that is not
      positive stands for the exception that aborts startup. */
  method StartServer<T, A>(props: FeaturePilotProperties, endpoint: string, flowRegistry: map<string, map<string, T>>,
                           ticks: seq<Remote.HttpOutcome>, pjp: JoinPoint<A>, feature: string)
    returns (scheduled: bool, atStartup: Invocation<T, A>, afterTicks: Invocation<T, A>)
    requires props.source.provider == SERVER
    requires |pjp.params| == |pjp.args|
    ensures atStartup == FeatureAspectFor(props, flowRegistry).value.Around(pjp, feature)
    ensures scheduled == (props.source.server.refresh > 0)
    ensures scheduled ==>
      afterTicks == FeatureAspect(flowRegistry, FeatureClient(RemoteManager(Remote.Polled(map[], props.source.server, ticks)))).Around(pjp, feature)
    ensures !scheduled ==> afterTicks == atStartup
  {
    var r := new Remote.RemoteFeatureManager(props, endpoint);
    atStartup := FeatureAspect(flowRegistry, FeatureClient(View(r))).Around(pjp, feature);
    scheduled := r.Start(ticks);
    afterTicks := FeatureAspect(flowRegistry, FeatureClient(View(r))).Around(pjp, feature);
  }

  /** Two handlers for "pay" behind a live remote manager: after a response
      answering "v2" the second handler runs; after a failed poll under
      fallback the cache is empty again and the original method runs. */
  method RemotePaymentScenario<T, A>(props: FeaturePilotProperties, endpoint: string, h1: T, h2: T, pjp: JoinPoint<A>)
    returns (afterResponse: Invocation<T, A>, afterFailure: Invocation<T, A>)
    requires props.source.provider == SERVER
    requires !Remote.ProjectMissing(props.source.server)
    requires props.source.server.fallback
    requires |pjp.params| == |pjp.args|
    ensures afterResponse == InvokeHandler(h2, pjp.args)
    ensures afterFailure == Proceed
  {
    var registry := map["pay" := map["v1" := h1, "v2" := h2]];
    var r := new Remote.RemoteFeatureManager(props, endpoint);
    var request := r.PollRemoteFlags(Remote.Success(map["pay" := "v2"]));
    afterResponse := FeatureAspect(registry, FeatureClient(View(r))).Around(pjp, "pay");
    request := r.PollRemoteFlags(Remote.Failure);
    afterFailure := FeatureAspect(registry, FeatureClient(View(r))).Around(pjp, "pay");
  }
}

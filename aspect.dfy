/**
 * aspect/FeatureAspect.java: around a @Feature method, resolve the flow,
 * look up its handler, and either invoke the handler with the call's own
 * arguments or let the original method proceed.
 */
module Aspect {
  import opened Wrappers
  import opened Common
  import opened Registry
  import opened ContextBuilder
  import opened Manager
  import opened Client
  import JavaStrings
  import Local

  /** What the interceptor runs for one call. */
  datatype Invocation<T, A> = InvokeHandler(target: T, args: seq<A>) | Proceed

  /** The intercepted call: the @Context key of each parameter and the arguments. */
  datatype JoinPoint<A> = JoinPoint(params: seq<Option<string>>, args: seq<A>)

  /** The aspect: the scanned registry and the client (the context builder is stateless). */
  datatype FeatureAspect<T> = FeatureAspect(flowRegistry: map<string, map<string, T>>, featureClient: FeatureClient) {

    /** The flow the client resolves for this call. */
    function ResolvedFlow<A>(pjp: JoinPoint<A>, feature: string): string
      requires |pjp.params| == |pjp.args|
    {
      featureClient.GetFlow(feature, ContextOf(pjp.params, pjp.args))
    }

    /** around: the handler registered under (feature, resolved flow) gets the
        original arguments; with none registered the original method runs. */
    function Around<A>(pjp: JoinPoint<A>, feature: string): (r: Invocation<T, A>)
      requires |pjp.params| == |pjp.args|
      ensures r.Proceed? <==> Lookup(flowRegistry, feature, ResolvedFlow(pjp, feature)).None?
      ensures r.InvokeHandler? ==> r.args == pjp.args
      ensures r.InvokeHandler? ==> Lookup(flowRegistry, feature, ResolvedFlow(pjp, feature)) == Some(r.target)
    {
      var ctx := ContextOf(pjp.params, pjp.args);
      var flow := featureClient.GetFlow(feature, ctx);
      match Lookup(flowRegistry, feature, flow)
      case Some(target) => InvokeHandler(target, pjp.args)
      case None => Proceed
    }
  }

  /** The decision never depends on the argument values, only on which slots
      carry which keys; the arguments are only passed on. */
  lemma DecisionIgnoresArguments<T, A>(aspect: FeatureAspect<T>, params: seq<Option<string>>, a1: seq<A>, a2: seq<A>, feature: string)
    requires |params| == |a1| == |a2|
    ensures aspect.Around(JoinPoint(params, a1), feature).Proceed? == aspect.Around(JoinPoint(params, a2), feature).Proceed?
    ensures aspect.Around(JoinPoint(params, a1), feature).InvokeHandler? ==>
      aspect.Around(JoinPoint(params, a1), feature).target == aspect.Around(JoinPoint(params, a2), feature).target
  {
    Manager.IgnoresContext(aspect.featureClient.featureManager, feature, ContextOf(params, a1), ContextOf(params, a2));
  }

  /** A feature routed to "default" with no "default" handler runs the original method. */
  lemma DefaultFlowProceeds<T, A>(aspect: FeatureAspect<T>, pjp: JoinPoint<A>, feature: string)
    requires |pjp.params| == |pjp.args|
    requires aspect.ResolvedFlow(pjp, feature) == DEFAULT
    requires Lookup(aspect.flowRegistry, feature, DEFAULT).None?
    ensures aspect.Around(pjp, feature) == Proceed
  {
  }

  /** Two handlers for "pay": a cache answering "v2" picks the second; once
      the cache is cleared the flow is "default" and the original runs. */
  lemma PaymentScenario<T, A>(h1: T, h2: T, pjp: JoinPoint<A>)
    requires |pjp.params| == |pjp.args|
    ensures var registry := map["pay" := map["v1" := h1, "v2" := h2]];
      && FeatureAspect(registry, FeatureClient(RemoteManager(map["pay" := "v2"]))).Around(pjp, "pay") == InvokeHandler(h2, pjp.args)
      && FeatureAspect(registry, FeatureClient(RemoteManager(map[]))).Around(pjp, "pay") == Proceed
  {
  }

  /** The same scenario from local settings: the stored " v2 " is trimmed first. */
  lemma LocalPaymentScenario<T, A>(h1: T, h2: T, props: Properties.FeaturePilotProperties, pjp: JoinPoint<A>)
    requires |pjp.params| == |pjp.args|
    requires props.flags == map["pay" := " v2 "]
    ensures FeatureAspect(map["pay" := map["v1" := h1, "v2" := h2]], FeatureClient(LocalManager(props))).Around(pjp, "pay")
      == InvokeHandler(h2, pjp.args)
  {
    var stored := props.flags["pay"];
    var v := "v2";
    assert v[0] == 'v' && v[1] == '2';
    assert stored == [' '] + v + [' '];
    JavaStrings.TrimPadded(v);
    assert !JavaStrings.IsWhitespace(stored[1]);
    var ctx := ContextOf(pjp.params, pjp.args);
    Local.NonBlankIsTrimmed(props, "pay", ctx);
    var aspect := FeatureAspect(map["pay" := map["v1" := h1, "v2" := h2]], FeatureClient(LocalManager(props)));
    assert aspect.ResolvedFlow(pjp, "pay") == v;
    assert Lookup(aspect.flowRegistry, "pay", v) == Some(h2);
  }
}

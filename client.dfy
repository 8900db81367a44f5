/**
 * client/FeatureClient.java: a stateless facade over the active resolver.
 */
module Client {
  import opened Common
  import opened Manager
  import JavaStrings
  import Local

  /** The client record: it holds only the manager it delegates to. */
  datatype FeatureClient = FeatureClient(featureManager: FeatureManager) {

    /** getFlow: exactly what the manager resolves. */
    function GetFlow<A>(feature: string, ctx: map<string, A>): (flow: string)
      ensures flow == Manager.GetFlow(featureManager, feature, ctx)
    {
      Manager.GetFlow(featureManager, feature, ctx)
    }

    /** isEnabled(feature, flow, ctx): flow.equals(resolved flow). */
    function IsEnabled<A>(feature: string, flow: string, ctx: map<string, A>): bool {
      flow == GetFlow(feature, ctx)
    }

    /** isEnabled(feature, flow): the same check with a new, empty context (an
        empty map holds no values, so the unit type stands for Object). */
    function IsEnabledWithoutContext(feature: string, flow: string): bool {
      var empty: map<string, ()> := map[];
      flow == GetFlow(feature, empty)
    }
  }

  /** A flow is enabled iff it is, character for character, the resolved one. */
  lemma IsEnabledIffResolved<A>(client: FeatureClient, feature: string, flow: string, ctx: map<string, A>)
    ensures client.IsEnabled(feature, flow, ctx) <==> flow == Manager.GetFlow(client.featureManager, feature, ctx)
  {
  }

  /** The resolved flow is always enabled, and no other flow is. */
  lemma ExactlyResolvedFlowEnabled<A>(client: FeatureClient, feature: string, flow: string, ctx: map<string, A>)
    ensures client.IsEnabled(feature, client.GetFlow(feature, ctx), ctx)
    ensures flow != client.GetFlow(feature, ctx) ==> !client.IsEnabled(feature, flow, ctx)
  {
  }

  /** The overload without a context agrees with the full check on any context. */
  lemma WithoutContextAgrees<A>(client: FeatureClient, feature: string, flow: string, ctx: map<string, A>)
    ensures client.IsEnabledWithoutContext(feature, flow) == client.IsEnabled(feature, flow, ctx)
  {
    var empty: map<string, ()> := map[];
    Manager.IgnoresContext(client.featureManager, feature, empty, ctx);
  }

  /** Matching is case-sensitive: with "v2" configured, "V2" is not enabled. */
  lemma CaseSensitive<A>(props: Properties.FeaturePilotProperties, ctx: map<string, A>)
    requires props.flags == map["pay" := "v2"]
    ensures FeatureClient(LocalManager(props)).IsEnabled("pay", "v2", ctx)
    ensures !FeatureClient(LocalManager(props)).IsEnabled("pay", "V2", ctx)
  {
    var v := props.flags["pay"];
    assert v[0] == 'v' && v[1] == '2';
    assert !JavaStrings.IsWhitespace(v[0]) && !JavaStrings.IsTrimmable(v[|v| - 1]);
    Local.TrimmedValueUnchanged(props, "pay", ctx);
    assert "V2"[0] != v[0];
  }
}

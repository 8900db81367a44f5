/**
 * manager/FeatureManager.java: the resolver interface, closed over its two
 * implementations. A remote manager is seen through its cache at the moment
 * of the call.
 */
module Manager {
  import opened Properties
  import Local
  import Remote

  /** The active resolver: local settings, or the remote manager's cache. */
  datatype FeatureManager =
    | LocalManager(properties: FeaturePilotProperties)
    | RemoteManager(cache: map<string, string>)

  /** FeatureManager.getFlow, dispatched to the implementation. */
  function GetFlow<A>(manager: FeatureManager, feature: string, ctx: map<string, A>): string {
    match manager
    case LocalManager(p) => Local.GetFlow(p, feature, ctx)
    case RemoteManager(c) => Remote.CachedFlow(c, feature)
  }

  /** The resolver a remote manager object currently is. */
  function View(r: Remote.RemoteFeatureManager): FeatureManager
    reads r
  {
    RemoteManager(r.cache)
  }

  /** Neither implementation reads the context. */
  lemma IgnoresContext<A, B>(manager: FeatureManager, feature: string, c1: map<string, A>, c2: map<string, B>)
    ensures GetFlow(manager, feature, c1) == GetFlow(manager, feature, c2)
  {
  }
}

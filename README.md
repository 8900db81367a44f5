# FeaturePilot flow resolution and dispatch, modelled in Dafny

FeaturePilot routes a call to a `@Feature` method to one of several `@Flow`
handlers, chosen by the feature's current flow (variant). This project models
the engine that makes that choice:

- the two resolvers (`FeatureManager` implementations):
  - the local manager reads the flow from the configured flag map;
  - the remote manager serves flows from a cache that a poller replaces with
    the server's answer;
- the flow registry, a two-level map `feature -> flow -> target` built by a
  scan over the declared methods of every bean;
- the context builder, which maps each `@Context` key to its argument;
- the client facade (`getFlow`, `isEnabled`);
- the aspect's decision: invoke a handler, or let the original method proceed;
- the provider switch in the auto-configuration.

Layout: two helper modules that stand for no source file, `Wrappers`
(Option, Result) and `JavaStrings` (`isBlank` and `trim` as
`java.lang.String` defines them); then one module per source file: `Common`
(the constants "default", "local", "server"), `Properties` (the settings tree
and its defaults), `Local`, `Remote`, `Manager`, `Registry`, `ContextBuilder`,
`Client`, `Aspect`, `AutoConfiguration`.

Modelling choices:
- State the source changes in place is a class:
  - `Remote.RemoteFeatureManager` has a `cache` field that `PollRemoteFlags` and `Start` reassign;
  - `Registry.FlowRegistry` has a `registry` field that `SetApplicationContext` fills with nested loops;
  - `ContextBuilder.Build` is the source's index loop.
  - Each such method is proved equal to a specification function (`NextCache`, `Polled`, `RegisterAll`, `Flatten`, `ContextOf`). The lemmas about those functions state the properties.
- The HTTP call is an `HttpOutcome` parameter of a poll: `Success(map)`, `NullBody` or `Failure`.
  - The request a poll would send is returned, so its URL and header can be stated.
  - The scheduler is a sequence of such outcomes, one per tick.
- Handler targets (bean plus method) and argument values are type parameters: they are passed along and compared, never inspected.
- A remote manager appears to the client and the aspect as `RemoteManager(cache)`, its cache at the moment of the call (`Manager.View`).
  - `FeatureAspectFor` gives the aspect as composed at startup, so its remote manager holds the empty cache it had then.
  - An advised call made later goes through `FeatureAspect(registry, FeatureClient(View(r)))`, which reads the cache of the live manager `r`.
  - `AutoConfiguration.StartServer` and `AutoConfiguration.RemotePaymentScenario` connect the two: they build the manager, poll it, and decide calls at several moments.
- A refresh interval that is not positive makes `scheduleWithFixedDelay` throw out of `@PostConstruct`, so the manager bean is never created. `Start` returns `scheduled == false` for that exception.
- The endpoint suffix is an uninterpreted `endpoint` constant of each remote manager. `RemoteFeatureManager.java:131` uses `FEATURES_ENDPOINT`, which `Common.java` does not define. Its value is not guessed.
- The project name is an optional string. `FeaturePilotProperties.java:110` declares it as `List<Integer>`, but `RemoteFeatureManager.java:123` reads it as a `String`.
- The code is followed where its own doc comments say otherwise, and where a reader might expect otherwise:
  - The request URL is `baseUrl + "/api/" + project + endpoint`, not the `{baseUrl}/{project}/features` of the doc comments.
  - A missing project aborts the poll before the `try`, so the fallback policy is not applied to it.
  - No exception is raised for a flow mismatch, although `Feature.java` mentions one.
  - A duplicate `(feature, flow)` registration silently overwrites the earlier one.
- `isBlank` tests `Character.isWhitespace`, while `trim` strips every character at or below U+0020. So a non-blank value can resolve to `""` (`Local.NonBlankValueCanResolveToEmpty`), and a blank U+2000 is not trimmed (`JavaStrings.BlankCanSurviveTrim`).

## Model

| member | source | states |
|---|---|---|
| JavaStrings.FirstKept | src/main/java/dev/featurepilot/manager/LocalFeatureManager.java:50 | trim's first scan stops at the first character above U+0020 (or the end); every character it skips is at or below U+0020 |
| JavaStrings.EndKept | src/main/java/dev/featurepilot/manager/LocalFeatureManager.java:50 | trim's second scan stops after the last character above U+0020, never before the first scan's index; every character it cuts is at or below U+0020 |
| JavaStrings.TrimPadded | src/main/java/dev/featurepilot/manager/LocalFeatureManager.java:50 | a value with one space on each side trims to the value |
| JavaStrings.Trim | src/main/java/dev/featurepilot/manager/LocalFeatureManager.java:50 | a non-empty result neither starts nor ends with a character at or below U+0020; an already trimmed string is returned unchanged; a string made only of such characters trims to "" |
| JavaStrings.TrimIsInfix | src/main/java/dev/featurepilot/manager/LocalFeatureManager.java:50 | the trimmed value is a contiguous piece of the stored value, and only characters at or below U+0020 are cut on either side |
| JavaStrings.TrimIdempotent | src/main/java/dev/featurepilot/manager/LocalFeatureManager.java:50 | trimming twice gives the same as trimming once |
| JavaStrings.NonBlankCanTrimToEmpty | src/main/java/dev/featurepilot/manager/LocalFeatureManager.java:50 | "\U{1}" is not blank, yet it trims to "" |
| JavaStrings.BlankCanSurviveTrim | src/main/java/dev/featurepilot/manager/LocalFeatureManager.java:50 | "\U{2000}" is blank, yet trim leaves it unchanged |
| Local.GetFlow | src/main/java/dev/featurepilot/manager/LocalFeatureManager.java:47-51 | the flow is "default" or the trimmed value stored for the feature |
| Local.AbsentIsDefault | src/main/java/dev/featurepilot/manager/LocalFeatureManager.java:49-50 | a feature absent from the flag map resolves to "default" |
| Local.BlankIsDefault | src/main/java/dev/featurepilot/manager/LocalFeatureManager.java:50 | a value that is `JavaStrings.IsBlank` (empty, or only characters `JavaStrings.IsWhitespace` accepts, as `Character.isWhitespace` does) resolves to "default" |
| Local.NonBlankIsTrimmed | src/main/java/dev/featurepilot/manager/LocalFeatureManager.java:50 | a non-blank value resolves to the value trimmed |
| Local.TrimmedValueUnchanged | src/main/java/dev/featurepilot/manager/LocalFeatureManager.java:50 | a non-blank value with no character at or below U+0020 at either end is returned as stored |
| Local.IgnoresContext | src/main/java/dev/featurepilot/manager/LocalFeatureManager.java:35-51 | the flow depends only on the flag map and the feature key, never on the context |
| Local.NonBlankValueCanResolveToEmpty | src/main/java/dev/featurepilot/manager/LocalFeatureManager.java:50 | a stored "\U{1}" resolves to the empty flow, not to "default" |
| Remote.RequestFor | src/main/java/dev/featurepilot/manager/RemoteFeatureManager.java:120-137 | no request is sent exactly when the project is null or blank; otherwise the URL is baseUrl + "/api/" + project + endpoint (a null base URL reads "null") and the only header is x-api-key set to the API key |
| Remote.CachedFlow | src/main/java/dev/featurepilot/manager/RemoteFeatureManager.java:95-97 | a cached feature resolves to its cached flow, any other to "default" |
| Remote.RemoteFeatureManager.constructor | src/main/java/dev/featurepilot/manager/RemoteFeatureManager.java:60-64 | a new manager keeps its settings and endpoint and starts with an empty cache |
| Remote.RemoteFeatureManager.GetFlow | src/main/java/dev/featurepilot/manager/RemoteFeatureManager.java:94-97 | returns CachedFlow of the current cache (the cached flow, or "default" when the feature is not cached); it may not modify the cache (it has no modifies clause) |
| Remote.RemoteFeatureManager.PollRemoteFlags | src/main/java/dev/featurepilot/manager/RemoteFeatureManager.java:119-155 | the request sent is RequestFor's; the cache is unchanged after an aborted poll or a null body, equals the response after a success, and is cleared after a failure exactly when fallback is on |
| Remote.RemoteFeatureManager.Start | src/main/java/dev/featurepilot/manager/RemoteFeatureManager.java:70-88 | with a positive refresh interval the ticks run as polls in order, the first at once; with a zero or negative interval `scheduled` is false, standing for the IllegalArgumentException that aborts startup, and no poll runs |
| Remote.FreshCacheIsDefault | src/main/java/dev/featurepilot/manager/RemoteFeatureManager.java:64 | before any poll every feature resolves to "default" |
| Remote.MissingProjectKeepsCache | src/main/java/dev/featurepilot/manager/RemoteFeatureManager.java:126-129 | with a null or blank project nothing is sent, and the cache is unchanged for every outcome and either fallback setting |
| Remote.SuccessReplacesCache | src/main/java/dev/featurepilot/manager/RemoteFeatureManager.java:141-145 | after a successful poll the cache equals the response; a feature missing from it now resolves to "default" |
| Remote.NullBodyKeepsCache | src/main/java/dev/featurepilot/manager/RemoteFeatureManager.java:141 | a null response body leaves the cache unchanged |
| Remote.FailureFollowsFallback | src/main/java/dev/featurepilot/manager/RemoteFeatureManager.java:147-154 | on failure, fallback on empties the cache, so every feature resolves to "default"; fallback off keeps the cache as it was |
| Remote.PolledWithoutReset | src/main/java/dev/featurepilot/manager/RemoteFeatureManager.java:80-85 | a run of polls with no success and no clearing failure leaves the cache as it was |
| Remote.PolledSinceLastReset | src/main/java/dev/featurepilot/manager/RemoteFeatureManager.java:80-85 | after any run of polls the cache equals the last successful response, or is empty when a clearing failure came after it |
| Remote.PolledFromEmpty | src/main/java/dev/featurepilot/manager/RemoteFeatureManager.java:64 | from the empty initial cache, after any run of polls the cache is empty or exactly one of the responses received |
| Manager.IgnoresContext | src/main/java/dev/featurepilot/manager/FeatureManager.java:32 | `Manager.GetFlow`, the dispatch to the two managers, never depends on the context |
| Registry.Lookup | src/main/java/dev/featurepilot/registry/FlowRegistry.java:71-73 | a target is found exactly when the feature is known and has that flow, and it is the stored one; an unknown feature, or an unknown flow of a known feature, gives absent; `FlowRegistry.Get` is this function of the registry field and so cannot change it |
| Registry.Register | src/main/java/dev/featurepilot/registry/FlowRegistry.java:56-58 | after registering (f, v, t) the lookup of (f, v) gives t, overwriting any earlier target; every other pair, including other flows of f, looks up as before |
| Registry.RegisterAllAppend | src/main/java/dev/featurepilot/registry/FlowRegistry.java:50-61 | scanning two method lists one after the other is the same as scanning them joined |
| Registry.LastRegistrationWins | src/main/java/dev/featurepilot/registry/FlowRegistry.java:50-61 | after a scan a pair gives the target of the last method annotated with it |
| Registry.UnannotatedPairUnchanged | src/main/java/dev/featurepilot/registry/FlowRegistry.java:50-61 | a pair no scanned method is annotated with looks up as before the scan; from an empty registry it stays absent |
| Registry.FlowRegistry.constructor | src/main/java/dev/featurepilot/registry/FlowRegistry.java:46 | a new registry is empty |
| Registry.FlowRegistry.SetApplicationContext | src/main/java/dev/featurepilot/registry/FlowRegistry.java:48-62 | the nested scan over beans and their declared methods leaves the registry equal to registering every annotated method in scan order |
| ContextBuilder.Build | src/main/java/dev/featurepilot/context/FeatureContextBuilder.java:53-68 | the loop over parameter slots builds exactly the context ContextOf describes |
| ContextBuilder.ContextKeys | src/main/java/dev/featurepilot/context/FeatureContextBuilder.java:60-65 | the keys of the context are exactly the @Context keys of the slots |
| ContextBuilder.NoAnnotationsEmptyContext | src/main/java/dev/featurepilot/context/FeatureContextBuilder.java:54-66 | with no @Context parameter the context is empty |
| ContextBuilder.LastSlotWins | src/main/java/dev/featurepilot/context/FeatureContextBuilder.java:60-63 | when slots share a key the highest index wins, and the argument is stored as passed |
| ContextBuilder.AnnotatedSlotPresent | src/main/java/dev/featurepilot/context/FeatureContextBuilder.java:61-63 | every annotated slot leaves its key in the context, mapped to its own argument or to that of a later slot with the same key |
| Client.FeatureClient.GetFlow | src/main/java/dev/featurepilot/client/FeatureClient.java:47-49 | the client's flow is exactly the manager's flow |
| Client.IsEnabledIffResolved | src/main/java/dev/featurepilot/client/FeatureClient.java:60-62 | `Client.FeatureClient.IsEnabled` holds exactly when the given flow equals the resolved flow |
| Client.ExactlyResolvedFlowEnabled | src/main/java/dev/featurepilot/client/FeatureClient.java:47-62 | the resolved flow is enabled, and every other flow is not |
| Client.WithoutContextAgrees | src/main/java/dev/featurepilot/client/FeatureClient.java:72-74 | `Client.FeatureClient.IsEnabledWithoutContext`, the overload that uses an empty context, gives the same answer as the full check on any context |
| Client.CaseSensitive | src/main/java/dev/featurepilot/client/FeatureClient.java:60-62 | with "v2" configured, "v2" is enabled and "V2" is not |
| Aspect.FeatureAspect.Around | src/main/java/dev/featurepilot/aspect/FeatureAspect.java:60-72 | proceeds exactly when no target is registered for the feature and the flow the client resolves from the built context; otherwise it invokes that target with the original arguments |
| Aspect.DecisionIgnoresArguments | src/main/java/dev/featurepilot/aspect/FeatureAspect.java:62-68 | calls that differ only in argument values make the same choice, because the managers ignore the context |
| Aspect.DefaultFlowProceeds | src/main/java/dev/featurepilot/aspect/FeatureAspect.java:64-71 | a feature resolved to "default" with no "default" handler runs the original method |
| Aspect.PaymentScenario | src/main/java/dev/featurepilot/aspect/FeatureAspect.java:64-71 | with handlers pay/v1 and pay/v2, a cache giving "v2" invokes the pay/v2 handler; an empty cache proceeds |
| Aspect.LocalPaymentScenario | src/main/java/dev/featurepilot/aspect/FeatureAspect.java:64-68 | a local flag " v2 " is trimmed and invokes the pay/v2 handler |
| AutoConfiguration.FeatureManagerFor | src/main/java/dev/featurepilot/config/FeaturePilotAutoConfiguration.java:71-82 | "server" selects a remote manager with an empty cache and "local" a local one; any other provider is the error "Unknown provider: " + provider |
| AutoConfiguration.FeatureAspectFor | src/main/java/dev/featurepilot/config/FeaturePilotAutoConfiguration.java:125-141 | the aspect's client wraps exactly the selected manager, next to the given registry; it fails exactly when the selection fails |
| AutoConfiguration.DefaultsSelectLocal | src/main/java/dev/featurepilot/config/FeaturePilotProperties.java:79 | a source section that sets no provider (so it is "local") selects the local manager |
| AutoConfiguration.ProviderMatchIsExact | src/main/java/dev/featurepilot/config/FeaturePilotAutoConfiguration.java:77-80 | "Server" matches neither provider and is an error; there is no silent default |
| AutoConfiguration.RemoteStartsAtDefault | src/main/java/dev/featurepilot/config/FeaturePilotAutoConfiguration.java:78 | a newly selected remote manager resolves every feature to "default" |
| AutoConfiguration.StartServer | src/main/java/dev/featurepilot/manager/RemoteFeatureManager.java:70-88 | with provider "server", a call decided at startup is the one the composed aspect makes; after start, a call is decided on the cache the polls left (Polled from empty), and with a refresh that is not positive nothing was scheduled and the decision is the startup one |
| AutoConfiguration.RemotePaymentScenario | src/main/java/dev/featurepilot/manager/RemoteFeatureManager.java:141-154 | on a live remote manager with handlers pay/v1 and pay/v2: after a response giving "v2" the pay/v2 handler runs with the original arguments; after a failed poll under fallback the original method runs |

## Left out

- HTTP transport and JSON decoding (RestClient and Apache HttpClient) are calls into code outside the model. A poll receives its `HttpOutcome` as a parameter. Response values are non-null strings; a JSON null value, which `ConcurrentHashMap` would reject half-way through `putAll`, is not modelled.
- The scheduler thread, its daemon flag and the fixed-delay timing are concurrency concerns. Polling is a sequence of polls run one after another.
- Atomicity of the cache replacement is not modelled: the source clears and then refills a map that other threads read, and the model runs sequentially.
- Exceptions thrown before the poll's `try` are not modelled. A null `source`, `server` or `auth` section throws there, and such an exception also ends the scheduled polling.
- A null `source` section is not modelled. The field has no initialiser (`FeaturePilotProperties.java:55`), so settings without a source section make `featureManager` throw a NullPointerException (`FeaturePilotAutoConfiguration.java:75`) and startup fails.
- A null `server` section is not modelled. With provider "server" it makes `start()` throw a NullPointerException (`RemoteFeatureManager.java:72`) and the manager bean is never created.
- User-supplied `FeatureManager` beans are not modelled. `@ConditionalOnMissingBean` (`FeaturePilotAutoConfiguration.java:70`) lets an application supply its own manager, possibly one that reads the context. `Manager.IgnoresContext` and `Aspect.DecisionIgnoresArguments` hold for the two shipped managers only.
- A null provider name, which would fail the `switch`, is not modelled.
- Logging is left out.
- The reflection and AOP machinery is given as sequences: `getBeansOfType`, proxy unwrapping, `getDeclaredMethods` order, parameter annotations and `Method.invoke`. The aspect returns `InvokeHandler(target, args)` or `Proceed` instead of running either. Exceptions raised by handlers are not modelled.
- The annotations (`Flow.java`, `Feature.java`, `Context.java`) are metadata only. `FeatureContext.java` is a map. `FlowTarget.java` is the opaque target type.
- `RestClient` bean creation (`FeaturePilotAutoConfiguration.java:89-100`) is transport setup and is not modelled.
- Manager.View: a remote manager is seen by the client and the aspect through a snapshot of its cache at the moment of the call, not as a shared object whose cache keeps changing. A call after a poll has to be decided on a new snapshot, `FeatureAspect(registry, FeatureClient(View(r)))`, as `AutoConfiguration.StartServer` does; the value `FeatureAspectFor` returns keeps the empty startup cache.

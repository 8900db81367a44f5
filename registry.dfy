/**
 * registry/FlowRegistry.java: a two-level map feature -> flow -> target,
 * filled once by a scan over the declared methods of every bean and read by
 * lookups afterwards. Targets (bean and method) are opaque values of type T.
 */
module Registry {
  import opened Wrappers

  /** The feature and flow named by a method's @Flow annotation. */
  datatype FlowAnnotation = FlowAnnotation(feature: string, flow: string)

  /** A declared method found by the scan: its @Flow annotation if it has one,
      and the target that would be stored for it. */
  datatype DeclaredMethod<T> = DeclaredMethod(annotation: Option<FlowAnnotation>, target: T)

  /** get: the target of (feature, flow); absent for an unknown feature and
      for an unknown flow of a known feature. */
  function Lookup<T>(registry: map<string, map<string, T>>, feature: string, flow: string): (r: Option<T>)
    ensures r.Some? <==> feature in registry && flow in registry[feature]
    ensures r.Some? ==> r.value == registry[feature][flow]
  {
    var flows := if feature in registry then registry[feature] else map[];
    if flow in flows then Some(flows[flow]) else None
  }

  /** computeIfAbsent(feature, new map).put(flow, target): the pair now
      yields target, and every other pair, including other flows of the same
      feature, yields what it did before. */
  function Register<T>(registry: map<string, map<string, T>>, feature: string, flow: string, target: T): (r: map<string, map<string, T>>)
    ensures Lookup(r, feature, flow) == Some(target)
    ensures forall f, v :: (f != feature || v != flow) ==> Lookup(r, f, v) == Lookup(registry, f, v)
  {
    var flows := if feature in registry then registry[feature] else map[];
    registry[feature := flows[flow := target]]
  }

  /** The registry after visiting methods in order; unannotated methods are skipped. */
  function RegisterAll<T>(registry: map<string, map<string, T>>, methods: seq<DeclaredMethod<T>>): map<string, map<string, T>> {
    if methods == [] then registry
    else
      var before := RegisterAll(registry, methods[..|methods| - 1]);
      var m := methods[|methods| - 1];
      match m.annotation
      case None => before
      case Some(ann) => Register(before, ann.feature, ann.flow, m.target)
  }

  /** The beans' declared methods in scan order. */
  function Flatten<T>(beans: seq<seq<DeclaredMethod<T>>>): seq<DeclaredMethod<T>> {
    if beans == [] then [] else Flatten(beans[..|beans| - 1]) + beans[|beans| - 1]
  }

  /** Visiting a then b is visiting a + b. */
  lemma {:induction false} RegisterAllAppend<T>(registry: map<string, map<string, T>>, a: seq<DeclaredMethod<T>>, b: seq<DeclaredMethod<T>>)
    ensures RegisterAll(registry, a + b) == RegisterAll(RegisterAll(registry, a), b)
  {
    if b == [] {
      assert a + b == a;
    } else {
      assert (a + b)[..|a + b| - 1] == a + b[..|b| - 1];
      RegisterAllAppend(registry, a, b[..|b| - 1]);
    }
  }

  /** Last write wins: a pair yields the target of the last method annotated
      with it. */
  lemma {:induction false} LastRegistrationWins<T>(registry: map<string, map<string, T>>, methods: seq<DeclaredMethod<T>>, i: nat, feature: string, flow: string)
    requires i < |methods| && methods[i].annotation == Some(FlowAnnotation(feature, flow))
    requires forall j :: i < j < |methods| ==> methods[j].annotation != Some(FlowAnnotation(feature, flow))
    ensures Lookup(RegisterAll(registry, methods), feature, flow) == Some(methods[i].target)
  {
    if i < |methods| - 1 {
      LastRegistrationWins(registry, methods[..|methods| - 1], i, feature, flow);
    }
  }

  /** A pair no method is annotated with keeps its earlier lookup (absent
      when the scan starts from the empty registry). */
  lemma {:induction false} UnannotatedPairUnchanged<T>(registry: map<string, map<string, T>>, methods: seq<DeclaredMethod<T>>, feature: string, flow: string)
    requires forall j :: 0 <= j < |methods| ==> methods[j].annotation != Some(FlowAnnotation(feature, flow))
    ensures Lookup(RegisterAll(registry, methods), feature, flow) == Lookup(registry, feature, flow)
  {
    if methods != [] {
      UnannotatedPairUnchanged(registry, methods[..|methods| - 1], feature, flow);
    }
  }

  /** The flow registry object. */
  class FlowRegistry<T> {
    var registry: map<string, map<string, T>>

    /** A new registry is empty. */
    constructor ()
      ensures registry == map[]
    {
      registry := map[];
    }

    /** setApplicationContext: for every bean, for every declared method with
        a @Flow annotation, register its target. */
    method SetApplicationContext(beans: seq<seq<DeclaredMethod<T>>>)
      modifies this
      ensures registry == RegisterAll(old(registry), Flatten(beans))
    {
      var b := 0;
      while b < |beans|
        invariant 0 <= b <= |beans|
        invariant registry == RegisterAll(old(registry), Flatten(beans[..b]))
      {
        var methods := beans[b];
        ghost var start := registry;
        var m := 0;
        while m < |methods|
          invariant 0 <= m <= |methods|
          invariant registry == RegisterAll(start, methods[..m])
        {
          var ann := methods[m].annotation;
          if ann.Some? {
            var flows := if ann.value.feature in registry then registry[ann.value.feature] else map[];
            registry := registry[ann.value.feature := flows[ann.value.flow := methods[m].target]];
          }
          assert methods[..m + 1][..m] == methods[..m];
          m := m + 1;
        }
        assert methods[..m] == methods;
        assert beans[..b + 1][..b] == beans[..b];
        RegisterAllAppend(old(registry), Flatten(beans[..b]), methods);
        b := b + 1;
      }
      assert beans[..b] == beans;
    }

    /** get, a read of the registry. */
    function Get(feature: string, flow: string): Option<T>
      reads this
    {
      Lookup(registry, feature, flow)
    }
  }
}

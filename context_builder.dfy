/**
 * context/FeatureContextBuilder.java: the context of an intercepted call maps
 * the key of every @Context parameter to the argument passed in that slot.
 * A parameter is given by its @Context key, None when it has none.
 */
module ContextBuilder {
  import opened Wrappers

  /** The context built from the first |params| slots, later slots overwriting earlier ones. */
  function ContextOf<A>(params: seq<Option<string>>, args: seq<A>): map<string, A>
    requires |params| == |args|
  {
    if params == [] then map[]
    else
      var n := |params| - 1;
      var before := ContextOf(params[..n], args[..n]);
      match params[n]
      case None => before
      case Some(key) => before[key := args[n]]
  }

  /** build: a fresh map, filled by one pass over the parameter slots. */
  method Build<A>(params: seq<Option<string>>, args: seq<A>) returns (ctx: map<string, A>)
    requires |params| == |args|
    ensures ctx == ContextOf(params, args)
  {
    ctx := map[];
    for i := 0 to |params|
      invariant ctx == ContextOf(params[..i], args[..i])
    {
      var ann := params[i];
      if ann.Some? {
        ctx := ctx[ann.value := args[i]];
      }
      assert params[..i + 1][..i] == params[..i];
      assert args[..i + 1][..i] == args[..i];
    }
    assert params[..|params|] == params;
    assert args[..|args|] == args;
  }

  /** The keys of the context are exactly the keys of the annotated slots. */
  lemma {:induction false} ContextKeys<A>(params: seq<Option<string>>, args: seq<A>)
    requires |params| == |args|
    ensures ContextOf(params, args).Keys == set i | 0 <= i < |params| && params[i].Some? :: params[i].value
  {
    if params != [] {
      var n := |params| - 1;
      ContextKeys(params[..n], args[..n]);
      var all := set i | 0 <= i < |params| && params[i].Some? :: params[i].value;
      var prefix := set i | 0 <= i < n && params[..n][i].Some? :: params[..n][i].value;
      assert params[n].Some? ==> all == prefix + {params[n].value};
      assert params[n].None? ==> all == prefix;
    }
  }

  /** With no @Context parameter the context is empty. */
  lemma NoAnnotationsEmptyContext<A>(params: seq<Option<string>>, args: seq<A>)
    requires |params| == |args|
    requires forall i :: 0 <= i < |params| ==> params[i].None?
    ensures ContextOf(params, args) == map[]
  {
    ContextKeys(params, args);
  }

  /** When several slots share a key the highest index wins: the key of an
      annotated slot no later slot repeats maps to that slot's argument, as
      passed. */
  lemma {:induction false} LastSlotWins<A>(params: seq<Option<string>>, args: seq<A>, i: nat)
    requires |params| == |args| && i < |params| && params[i].Some?
    requires forall j :: i < j < |params| ==> params[j] != params[i]
    ensures params[i].value in ContextOf(params, args)
    ensures ContextOf(params, args)[params[i].value] == args[i]
  {
    var n := |params| - 1;
    if i < n {
      LastSlotWins(params[..n], args[..n], i);
    }
  }

  /** Every annotated slot leaves its key in the context, bound to its own
      argument or to that of a later slot with the same key. */
  lemma {:induction false} AnnotatedSlotPresent<A>(params: seq<Option<string>>, args: seq<A>, i: nat)
    requires |params| == |args| && i < |params| && params[i].Some?
    ensures params[i].value in ContextOf(params, args)
    ensures exists j :: i <= j < |params| && params[j] == params[i] && ContextOf(params, args)[params[i].value] == args[j]
  {
    var n := |params| - 1;
    if i == n {
      assert ContextOf(params, args)[params[i].value] == args[n];
    } else if params[n] == params[i] {
      assert ContextOf(params, args)[params[i].value] == args[n];
    } else {
      AnnotatedSlotPresent(params[..n], args[..n], i);
      var j :| i <= j < n && params[..n][j] == params[i] && ContextOf(params[..n], args[..n])[params[i].value] == args[..n][j];
      assert params[j] == params[i] && ContextOf(params, args)[params[i].value] == args[j];
    }
  }
}

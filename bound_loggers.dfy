/** Logger handles and their bound context: `bind`, which refuses the keys
    the system injects itself, and `bind_fargs`, which replaces the bound
    function arguments. */
module BoundLoggers {
  import opened LogTypes

  /** Keys the processors and the logging call fill in themselves. */
  const RestrictedKeys: set<string> := {"event", "fargs", "function", "lineno", "module", "name", "pid", "thread"}

  type Context = map<string, Value>

  /** A logger handle: its name and its bound context.  Binding yields a new
      handle; the old one keeps its context. */
  datatype BoundLogger = BoundLogger(name: string, context: Context)

  /** Keyword arguments in the order they were written.  Keyword names in a
      call are pairwise distinct. */
  type Kwargs = seq<(string, Value)>

  predicate DistinctKeys(kv: Kwargs) {
    forall i, j :: 0 <= i < j < |kv| ==> kv[i].0 != kv[j].0
  }

  function KeySet(kv: Kwargs): set<string> {
    set i | 0 <= i < |kv| :: kv[i].0
  }

  /** The dictionary the keyword arguments make. */
  function KwargsMap(kv: Kwargs): (m: map<string, Value>)
    requires DistinctKeys(kv)
    ensures m.Keys == KeySet(kv)
    ensures forall i :: 0 <= i < |kv| ==> m[kv[i].0] == kv[i].1
  {
    map i | 0 <= i < |kv| :: kv[i].0 := kv[i].1
  }

  lemma KeySetSnoc(kv: Kwargs, i: nat)
    requires i < |kv|
    ensures KeySet(kv[..i + 1]) == KeySet(kv[..i]) + {kv[i].0}
  {
    var a, b := kv[..i + 1], kv[..i];
    forall k | k in KeySet(a) ensures k in KeySet(b) + {kv[i].0} {
      var j :| 0 <= j < i + 1 && a[j].0 == k;
      if j < i { assert b[j].0 == k; }
    }
    forall k | k in KeySet(b) ensures k in KeySet(a) {
      var j :| 0 <= j < i && b[j].0 == k;
      assert a[j].0 == k;
    }
    assert a[i] == kv[i];
  }

  /** The restricted keys among the arguments, in argument order. */
  function RejectedKeys(kv: Kwargs): seq<string>
    decreases |kv|
  {
    if kv == [] then []
    else RejectedKeys(kv[..|kv| - 1]) + (if kv[|kv| - 1].0 in RestrictedKeys then [kv[|kv| - 1].0] else [])
  }

  /** The context `bind` produces: the old one updated with the arguments
      whose keys are not restricted. */
  function BoundContext(ctx: Context, kv: Kwargs): Context
    requires DistinctKeys(kv)
  {
    ctx + (KwargsMap(kv) - RestrictedKeys)
  }

  /** The arguments still kept once the first `i` have been examined. */
  function KeptAfter(kv: Kwargs, i: nat): map<string, Value>
    requires DistinctKeys(kv) && i <= |kv|
  {
    KwargsMap(kv) - (RestrictedKeys * KeySet(kv[..i]))
  }

  lemma KeptAfterStep(kv: Kwargs, i: nat)
    requires DistinctKeys(kv) && i < |kv|
    ensures KeptAfter(kv, i + 1) ==
      if kv[i].0 in RestrictedKeys then KeptAfter(kv, i) - {kv[i].0} else KeptAfter(kv, i)
  {
    KeySetSnoc(kv, i);
  }

  lemma KeptAfterAll(kv: Kwargs)
    requires DistinctKeys(kv)
    ensures KeptAfter(kv, |kv|) == KwargsMap(kv) - RestrictedKeys
  {
    assert kv[..|kv|] == kv;
    var a, b := KeptAfter(kv, |kv|), KwargsMap(kv) - RestrictedKeys;
    assert a.Keys == b.Keys;
  }

  lemma RejectedKeysStep(kv: Kwargs, i: nat)
    requires i < |kv|
    ensures RejectedKeys(kv[..i + 1]) ==
      RejectedKeys(kv[..i]) + (if kv[i].0 in RestrictedKeys then [kv[i].0] else [])
  {
    assert kv[..i + 1][..i] == kv[..i];
  }

  /** `bind`: each restricted key is reported once and dropped, the rest is
      added to the context.  The returned sequence holds the dropped keys,
      one warning each, in argument order. */
  method Bind(lg: BoundLogger, newValues: Kwargs) returns (r: BoundLogger, warnings: seq<string>)
    requires DistinctKeys(newValues)
    ensures r.name == lg.name
    ensures r.context == BoundContext(lg.context, newValues)
    ensures warnings == RejectedKeys(newValues)
  {
    var values := KwargsMap(newValues);
    warnings := [];
    var i := 0;
    assert newValues[..0] == [];
    while i < |newValues|
      invariant 0 <= i <= |newValues|
      invariant values == KeptAfter(newValues, i)
      invariant warnings == RejectedKeys(newValues[..i])
    {
      var key := newValues[i].0;
      KeptAfterStep(newValues, i);
      RejectedKeysStep(newValues, i);
      if key in RestrictedKeys {
        warnings := warnings + [key];
        values := values - {key};
      }
      i := i + 1;
    }
    assert newValues[..i] == newValues;
    KeptAfterAll(newValues);
    r := BoundLogger(lg.name, lg.context + values);
  }

  /** After `bind` the context holds the old keys and the unrestricted new
      ones; new values win, and a restricted key keeps whatever the context
      had for it. */
  lemma BindContextMeaning(ctx: Context, kv: Kwargs)
    requires DistinctKeys(kv)
    ensures var r := BoundContext(ctx, kv);
      && (forall k :: k in r <==> k in ctx || (k in KeySet(kv) && k !in RestrictedKeys))
      && (forall i :: 0 <= i < |kv| && kv[i].0 !in RestrictedKeys ==> r[kv[i].0] == kv[i].1)
      && (forall k :: k in ctx && (k !in KeySet(kv) || k in RestrictedKeys) ==> r[k] == ctx[k])
  {
  }

  /** Binding only restricted keys leaves the context as it was. */
  lemma BindRestrictedOnlyIsNoOp(ctx: Context, kv: Kwargs)
    requires DistinctKeys(kv)
    requires KeySet(kv) <= RestrictedKeys
    ensures BoundContext(ctx, kv) == ctx
  {
    assert KwargsMap(kv) - RestrictedKeys == map[];
  }

  /** Every restricted key supplied is reported, and nothing else. */
  lemma {:induction false} RejectedKeysMembers(kv: Kwargs, k: string)
    ensures k in RejectedKeys(kv) <==> k in KeySet(kv) && k in RestrictedKeys
    decreases |kv|
  {
    if kv != [] {
      var init := kv[..|kv| - 1];
      RejectedKeysMembers(init, k);
      KeySetSnoc(kv, |kv| - 1);
      assert kv[..|kv|] == kv;
    }
  }

  /** No restricted key is reported twice. */
  lemma {:induction false} RejectedKeysDistinct(kv: Kwargs)
    requires DistinctKeys(kv)
    ensures forall i, j :: 0 <= i < j < |RejectedKeys(kv)| ==> RejectedKeys(kv)[i] != RejectedKeys(kv)[j]
    decreases |kv|
  {
    if kv != [] {
      var init := kv[..|kv| - 1];
      var last := kv[|kv| - 1].0;
      RejectedKeysDistinct(init);
      RejectedKeysMembers(init, last);
      assert last !in KeySet(init);
    }
  }

  /** The handle of the repository's test for restricted keys: `pid` is
      refused with one warning, `good_key` is bound. */
  lemma RestrictedKeysExample(v: Value, w: Value)
    ensures var kv := [("pid", v), ("good_key", w)];
      && BoundContext(map[], kv) == map["good_key" := w]
      && RejectedKeys(kv) == ["pid"]
  {
    var kv := [("pid", v), ("good_key", w)];
    assert kv[..|kv| - 1] == [("pid", v)];
    assert [("pid", v)][..0] == [];
    assert "pid" in RestrictedKeys && "good_key" !in RestrictedKeys;
    assert RejectedKeys([("pid", v)]) == ["pid"];
    var m := KwargsMap(kv);
    assert m.Keys == {"pid", "good_key"} by {
      assert kv[0].0 == "pid" && kv[1].0 == "good_key";
    }
    assert m["good_key"] == w by { assert kv[1].0 == "good_key"; }
    assert m - RestrictedKeys == map["good_key" := w];
  }

  /** `bind_fargs`: the bound function arguments become the given mapping
      (empty when none is given) updated with the keyword arguments. */
  function BindFargs(lg: BoundLogger, fargsMap: Option<map<string, Value>>, kwargs: map<string, Value>): (r: BoundLogger)
    ensures r.name == lg.name
    ensures "fargs" in r.context && r.context["fargs"].Dict?
    ensures var fargs := r.context["fargs"].entries;
      && (forall k :: k in fargs <==> k in kwargs || (fargsMap.Some? && k in fargsMap.value))
      && (forall k :: k in kwargs ==> fargs[k] == kwargs[k])
      && (forall k :: fargsMap.Some? && k in fargsMap.value && k !in kwargs ==> fargs[k] == fargsMap.value[k])
    ensures SameExcept(lg.context, r.context, {"fargs"})
  {
    var fargs := if fargsMap.None? then map[] else fargsMap.value;
    BoundLogger(lg.name, lg.context["fargs" := Dict(fargs + kwargs)])
  }

  /** A second `bind_fargs` replaces the first one's arguments rather than
      merging with them. */
  lemma BindFargsReplaces(lg: BoundLogger, m1: Option<map<string, Value>>, k1: map<string, Value>,
                          m2: Option<map<string, Value>>, k2: map<string, Value>)
    ensures BindFargs(BindFargs(lg, m1, k1), m2, k2) == BindFargs(lg, m2, k2)
  {
  }

  /** `bind` never changes bound function arguments, so binding after
      `bind_fargs` keeps them. */
  lemma BindKeepsFargs(ctx: Context, kv: Kwargs)
    requires DistinctKeys(kv)
    requires "fargs" in ctx
    ensures "fargs" in BoundContext(ctx, kv) && BoundContext(ctx, kv)["fargs"] == ctx["fargs"]
  {
  }
}

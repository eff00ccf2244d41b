/** lib/extend-query.js: the oldest generation of the query patch. The
    gate is a truthy `_ttl`, the key is the plain `JSON.stringify` of the
    key object (no sorting, no hashing, no RegExp replacer), every hit is
    marked `_fromCache` in strict mode, and `cache(false)` evicts. */
module LibQuery {
  import opened Json
  import opened JsonText
  import opened JsonDecode
  import opened Store
  import opened Mongoose
  import LibSrcQuery
  import SrcQuery

  // ---------------------------------------------------------------------
  // getCacheKey

  /** `getCacheKey()`: the JSON text of the same nine-property object as in
      lib-src/, written as it is. */
  function CacheKey(s: QueryState): (k: string)
    ensures Stringify(LibSrcQuery.Descriptor(s), false) == Some(k)
  {
    Stringify(LibSrcQuery.Descriptor(s), false).value
  }

  /** Two queries share a key exactly when their key objects denote the same
      JSON data, property order included. */
  lemma CacheKeySameIff(s1: QueryState, s2: QueryState)
    ensures CacheKey(s1) == CacheKey(s2) <==>
      View(LibSrcQuery.Descriptor(s1), false) == View(LibSrcQuery.Descriptor(s2), false)
  {
    StringifySameIff(LibSrcQuery.Descriptor(s1), LibSrcQuery.Descriptor(s2), false);
  }

  /** The key text holds the conditions under `_conditions`. */
  lemma ConditionsMember(s: QueryState)
    ensures MemberLookup(ViewProps(LibSrcQuery.Descriptor(s).props, false), "_conditions") == View(s.conditions, false)
  {
    var d := Labelled(LibSrcQuery.DescriptorNames, LibSrcQuery.DescriptorValues(s));
    LibSrcQuery.DescriptorNamesDistinct();
    MemberLookupViewProps(d, "_conditions", false);
    assert d[5] == Prop("_conditions", s.conditions);
    assert Lookup(d, "_conditions") == s.conditions by {
      assert forall j :: 0 <= j < 5 ==> d[j].name != "_conditions";
    }
  }

  /** Queries whose conditions denote different JSON data get different keys. */
  lemma ConditionsSeparateKeys(s1: QueryState, s2: QueryState)
    requires View(s1.conditions, false) != View(s2.conditions, false)
    ensures CacheKey(s1) != CacheKey(s2)
  {
    var d1, d2 := LibSrcQuery.Descriptor(s1), LibSrcQuery.Descriptor(s2);
    assert ViewProps(d1.props, false) != ViewProps(d2.props, false) by {
      ConditionsMember(s1);
      ConditionsMember(s2);
    }
    assert View(d1, false) != View(d2, false) by {
      assert View(d1, false) == Some(JObj(ViewProps(d1.props, false)));
      assert View(d2, false) == Some(JObj(ViewProps(d2.props, false)));
    }
    CacheKeySameIff(s1, s2);
  }

  /** Queries that differ only in their conditions, whose conditions denote
      the same JSON data, share a key. */
  lemma SameConditionsSameKey(s: QueryState, c1: Value, c2: Value)
    requires View(c1, false) == View(c2, false)
    ensures CacheKey(s.(conditions := c1)) == CacheKey(s.(conditions := c2))
  {
    var v1 := LibSrcQuery.DescriptorValues(s.(conditions := c1));
    var v2 := LibSrcQuery.DescriptorValues(s.(conditions := c2));
    var d1 := Labelled(LibSrcQuery.DescriptorNames, v1);
    var d2 := Labelled(LibSrcQuery.DescriptorNames, v2);
    forall k | 0 <= k < |d1| ensures View(d1[k].val, false) == View(d2[k].val, false) {
      assert d1[k].val == v1[k] && d2[k].val == v2[k];
      if k != 5 {
        assert v1[k] == v2[k];
      }
    }
    ViewPropsPointwise(d1, d2, false);
    CacheKeySameIff(s.(conditions := c1), s.(conditions := c2));
  }

  /** The key depends on property order: the same two conditions written in
      the other order give another key, so the two queries are cached apart. */
  lemma KeyDependsOnOrder(s: QueryState, a: string, x: Value, b: string, y: Value)
    requires a != b && x != Undefined && y != Undefined
    ensures CacheKey(s.(conditions := Obj([Prop(a, x), Prop(b, y)])))
         != CacheKey(s.(conditions := Obj([Prop(b, y), Prop(a, x)])))
  {
    var c1 := Obj([Prop(a, x), Prop(b, y)]);
    var c2 := Obj([Prop(b, y), Prop(a, x)]);
    StringifyDefined(x, false);
    StringifyDefined(y, false);
    var mx := View(x, false).value;
    var my := View(y, false).value;
    assert ViewProps([], false) == [];
    assert ViewProps([Prop(b, y)], false) == [Member(b, my)];
    assert ViewProps([Prop(a, x)], false) == [Member(a, mx)];
    assert ViewProps([Prop(a, x), Prop(b, y)], false) == [Member(a, mx), Member(b, my)];
    assert ViewProps([Prop(b, y), Prop(a, x)], false) == [Member(b, my), Member(a, mx)];
    assert View(c1, false) != View(c2, false);
    ConditionsSeparateKeys(s.(conditions := c1), s.(conditions := c2));
  }

  /** Without the replacer every RegExp is written `{}`: filters on two
      different patterns share one key, and the second is answered with the
      first one's results. */
  lemma RegexConditionsConflated(s: QueryState, path: string, s1: string, f1: string, s2: string, f2: string)
    ensures CacheKey(s.(conditions := Obj([Prop(path, Regex(s1, f1))])))
         == CacheKey(s.(conditions := Obj([Prop(path, Regex(s2, f2))])))
  {
    var c1 := Obj([Prop(path, Regex(s1, f1))]);
    var c2 := Obj([Prop(path, Regex(s2, f2))]);
    assert View(Regex(s1, f1), false) == Some(JObj([])) == View(Regex(s2, f2), false);
    assert ViewProps(c1.props, false) == [Member(path, JObj([]))] + ViewProps([], false);
    assert ViewProps(c2.props, false) == [Member(path, JObj([]))] + ViewProps([], false);
    SameConditionsSameKey(s, c1, c2);
  }

  // ---------------------------------------------------------------------
  // exec

  /** `v._fromCache = true` in strict mode: a primitive throws a TypeError. */
  function MarkStrict(v: Value): (r: Result)
    ensures r.Ok? <==> LibSrcQuery.IsObject(v)
    ensures r.Ok? ==> r.value == v
  {
    if LibSrcQuery.IsObject(v) then Ok(v) else Err(TypeError)
  }

  /** The outcome of one `exec`; `fromCache` says the result was marked. */
  datatype Run = Run(result: Result, fromCache: bool, state: QueryState, entries: Entries, executed: bool)

  /** The patched `exec`. There is no count case: a count hit is inflated
      like any other result unless the query is lean. */
  function ExecSpec(m: Mongoose, s: QueryState, ttl: Option<Value>, entries: Entries, arg: ExecArg): Run
  {
    if !Truthy(TtlValue(ttl)) then Run(m.queryExec(s, arg), false, s, entries, true)
    else
      var s' := SrcQuery.WithOp(s, arg);
      var key := CacheKey(s');
      var cached := Read(entries, key);
      if Truthy(cached) then
        var v := if IsLean(s') then cached else SrcQuery.InflateAll(m.model(s'.modelName), cached);
        var r := MarkStrict(v);
        Run(r, r.Ok?, s', entries, false)
      else
        match m.queryExec(s', NoArg)
        case Ok(results) => Run(Ok(results), false, s', entries[key := Entry(results, TtlValue(ttl))], true)
        case Err(e) => Run(Err(e), false, s', entries, true)
  }

  method Exec(m: Mongoose, backend: Backend, q: Query, arg: ExecArg) returns (r: Result, fromCache: bool)
    modifies q, backend
    ensures var run := ExecSpec(m, old(q.State()), old(q.ttl), old(backend.entries), arg);
      && r == run.result && fromCache == run.fromCache
      && q.State() == run.state && backend.entries == run.entries
    ensures q.ttl == old(q.ttl) && q.key == old(q.key)
  {
    if !Truthy(TtlValue(q.ttl)) {
      return m.queryExec(q.State(), arg), false;
    }
    if arg.OpName? {
      q.op := Str(arg.name);
    }
    var key := CacheKey(q.State());
    var ttl := TtlValue(q.ttl);
    var isLean := Truthy(Lookup(q.mongooseOptions, "lean"));
    var model := q.modelName;
    var cached := backend.Get(key);
    if Truthy(cached) {
      if !isLean {
        cached := SrcQuery.InflateAll(m.model(model), cached);
      }
      if !(cached.Obj? || cached.Arr? || cached.Regex?) {
        return Err(TypeError), false;
      }
      return Ok(cached), true;
    }
    var results := m.queryExec(q.State(), NoArg);
    if results.Ok? {
      backend.Set(key, results.value, ttl);
    }
    return results, false;
  }

  /** `query.cache(ttl)`: `false` deletes the query's entry and leaves the
      query uncached; anything else sets `_ttl`, a falsy TTL becoming 60. */
  method Cache(q: Query, ttl: Value, backend: Backend) returns (self: Query)
    modifies q, backend
    ensures self == q && q.State() == old(q.State()) && q.key == old(q.key)
    ensures ttl == Bool(false) ==> q.ttl == old(q.ttl) && backend.entries == old(backend.entries) - {CacheKey(q.State())}
    ensures ttl != Bool(false) ==> backend.entries == old(backend.entries)
    ensures ttl != Bool(false) ==> q.ttl == Some(if Truthy(ttl) then ttl else Num(60))
  {
    if ttl == Bool(false) {
      backend.Del(CacheKey(q.State()));
    } else {
      q.ttl := Some(if Truthy(ttl) then ttl else Num(60));
    }
    return q;
  }

  // ---------------------------------------------------------------------
  // Properties of exec

  /** A query without a truthy `_ttl` is the original `exec`. */
  lemma UncachedDelegates(m: Mongoose, s: QueryState, ttl: Option<Value>, entries: Entries, arg: ExecArg)
    requires !Truthy(TtlValue(ttl))
    ensures ExecSpec(m, s, ttl, entries, arg) == Run(m.queryExec(s, arg), false, s, entries, true)
  {
  }

  /** `cache()` with any TTL but `false` turns caching on: the next `exec`
      applies its operation argument, looks the derived key up, and runs the
      original `exec` only when the stored value is falsy; it no longer just
      delegates. */
  lemma CacheTurnsCachingOn(m: Mongoose, s: QueryState, ttl: Value, entries: Entries, arg: ExecArg)
    requires ttl != Bool(false)
    ensures var run := ExecSpec(m, s, Some(if Truthy(ttl) then ttl else Num(60)), entries, arg);
      && run.state == SrcQuery.WithOp(s, arg)
      && (run.executed <==> !Truthy(Read(entries, CacheKey(SrcQuery.WithOp(s, arg)))))
  {
  }

  /** A miss (a falsy stored value) runs the original `exec` without
      arguments; a result is stored under the derived key with `_ttl`, and an
      error leaves the store. */
  lemma MissRunsAndStores(m: Mongoose, s: QueryState, ttl: Option<Value>, entries: Entries, arg: ExecArg)
    requires Truthy(TtlValue(ttl))
    requires !Truthy(Read(entries, CacheKey(SrcQuery.WithOp(s, arg))))
    ensures var run := ExecSpec(m, s, ttl, entries, arg);
      var key := CacheKey(SrcQuery.WithOp(s, arg));
      && run.executed && !run.fromCache
      && run.result == m.queryExec(SrcQuery.WithOp(s, arg), NoArg)
      && (run.result.Ok? ==> run.entries == entries[key := Entry(run.result.value, TtlValue(ttl))])
      && (run.result.Err? ==> run.entries == entries)
  {
  }

  /** After `cache(false)` has evicted a query's entry, the next cached run of
      that query goes to the database. */
  lemma EvictedIsRefetched(m: Mongoose, s: QueryState, ttl: Option<Value>, entries: Entries, arg: ExecArg)
    requires Truthy(TtlValue(ttl)) && !arg.OpName?
    ensures var run := ExecSpec(m, s, ttl, entries - {CacheKey(s)}, arg);
      run.executed && run.result == m.queryExec(s, NoArg)
  {
  }

  /** A hit whose value, after inflation, is a primitive fails: strict mode
      refuses the `_fromCache` assignment. A lean count is such a case. */
  lemma PrimitiveHitThrows(m: Mongoose, s: QueryState, ttl: Option<Value>, entries: Entries, n: int)
    requires Truthy(TtlValue(ttl)) && IsLean(s) && IsCount(s) && n != 0
    requires Read(entries, CacheKey(s)) == Num(n)
    ensures ExecSpec(m, s, ttl, entries, NoArg) == Run(Err(TypeError), false, s, entries, false)
  {
  }

  /** A non-lean count hit is not the stored number: it is inflated into a
      document of the query's model. */
  lemma CountHitInflated(m: Mongoose, s: QueryState, ttl: Option<Value>, entries: Entries, n: int)
    requires Truthy(TtlValue(ttl)) && !IsLean(s) && IsCount(s) && n != 0
    requires Read(entries, CacheKey(s)) == Num(n)
    requires LibSrcQuery.IsObject(SrcQuery.InflateModel(m.model(s.modelName), Num(n)))
    ensures ExecSpec(m, s, ttl, entries, NoArg).result == Ok(SrcQuery.InflateModel(m.model(s.modelName), Num(n)))
    ensures ExecSpec(m, s, ttl, entries, NoArg).fromCache
  {
  }

  /** Errors are never cached. */
  lemma ErrorsNeverCached(m: Mongoose, s: QueryState, ttl: Option<Value>, entries: Entries, arg: ExecArg)
    requires ExecSpec(m, s, ttl, entries, arg).result.Err?
    ensures ExecSpec(m, s, ttl, entries, arg).entries == entries
  {
  }

  /** After a miss stored a truthy result, the same query hits. */
  lemma SecondCallHits(m: Mongoose, s: QueryState, ttl: Option<Value>, entries: Entries, arg: ExecArg)
    requires var first := ExecSpec(m, s, ttl, entries, arg);
      Truthy(TtlValue(ttl)) && first.executed && first.result.Ok? && Truthy(first.result.value)
    ensures var first := ExecSpec(m, s, ttl, entries, arg);
      var second := ExecSpec(m, first.state, ttl, first.entries, arg);
      && !second.executed && second.entries == first.entries
  {
    var s' := SrcQuery.WithOp(s, arg);
    assert SrcQuery.WithOp(s', arg) == s';
  }
}

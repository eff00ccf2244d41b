/** src/extend-query.js: the patched `Query.prototype.exec`, `cache` and
    `getCacheKey`, and `inflateModel`. */
module SrcQuery {
  import opened Json
  import opened Canonical
  import opened JsonText
  import opened GenerateKey
  import opened Store
  import opened SrcCache
  import opened Mongoose

  // ---------------------------------------------------------------------
  // cache(ttl = 60, customKey = '')

  datatype CacheArgs = CacheArgs(ttl: Value, key: string)

  /** The TTL and key that `cache(ttl, customKey)` records. An absent TTL
      defaults to 60; a string in the TTL position is the key, with TTL 60.
      An absent custom key is the empty string. */
  function NormaliseCacheArgs(ttl: Value, customKey: string): (a: CacheArgs)
    ensures ttl.Str? ==> a == CacheArgs(Num(60), ttl.s)
    ensures !ttl.Str? ==> a.key == customKey
    ensures !ttl.Str? ==> a.ttl == if ttl == Undefined then Num(60) else ttl
  {
    var t := if ttl == Undefined then Num(60) else ttl;
    if t.Str? then CacheArgs(Num(60), t.s) else CacheArgs(t, customKey)
  }

  /** `query.cache(ttl, customKey)`: records `_ttl` and `_key` and returns
      the same query. */
  method Cache(q: Query, ttl: Value, customKey: string) returns (self: Query)
    modifies q
    ensures self == q
    ensures q.ttl == Some(NormaliseCacheArgs(ttl, customKey).ttl)
    ensures q.key == NormaliseCacheArgs(ttl, customKey).key
    ensures q.State() == old(q.State())
  {
    var a := NormaliseCacheArgs(ttl, customKey);
    q.ttl := Some(a.ttl);
    q.key := a.key;
    return q;
  }

  // ---------------------------------------------------------------------
  // getCacheKey

  /** The property names of the object `getCacheKey` hands to
      `generateKey`, in the order it writes them. */
  const DescriptorNames: seq<string> :=
    ["model", "op", "skip", "limit", "sort", "_options", "_conditions", "_fields", "_path", "_distinct"]

  /** The values of those properties, read from the query. */
  function DescriptorValues(s: QueryState): (vs: seq<Value>)
    ensures |vs| == |DescriptorNames|
  {
    [Str(s.modelName), s.op, s.skip, s.limit, s.sort, Obj(s.mongooseOptions),
     s.conditions, s.fields, s.path, s.distinct]
  }

  /** The object `getCacheKey` hands to `generateKey`. */
  function Descriptor(s: QueryState): Value {
    Obj(Labelled(DescriptorNames, DescriptorValues(s)))
  }

  function CacheKeyText(s: QueryState): string {
    KeyText(Descriptor(s)).value
  }

  /** `getCacheKey()`: the generated key of the descriptor. */
  function CacheKey(sha1: string -> string, s: QueryState): (k: string)
    ensures k == sha1(CacheKeyText(s))
  {
    GenerateKey.GenerateKey(sha1, Descriptor(s)).value
  }

  /** `this._key || this.getCacheKey()`. */
  function SelectKey(sha1: string -> string, customKey: string, s: QueryState): (k: string)
    ensures customKey != "" ==> k == customKey
    ensures customKey == "" ==> k == CacheKey(sha1, s)
  {
    if customKey != "" then customKey else CacheKey(sha1, s)
  }

  // ---------------------------------------------------------------------
  // Turning cached data back into documents

  /** `inflateModel(constructor)(data)`: the model's own `inflate` when it
      has one; otherwise a new model built from the data, reset, and marked
      as not new. */
  function InflateModel(c: Constructor, data: Value): (d: Value)
    ensures c.hasInflate ==> d == c.inflate(data)
    ensures !c.hasInflate ==> Get(d, "isNew") == (if c.reset(c.construct(data)).Obj? then Bool(false) else Undefined)
    ensures !c.hasInflate && c.reset(c.construct(data)).Obj? ==>
      forall n :: n != "isNew" ==> Get(d, n) == Get(c.reset(c.construct(data)), n)
  {
    if c.hasInflate then c.inflate(data)
    else Put(c.reset(c.construct(data)), "isNew", Bool(false))
  }

  /** An array is inflated element by element, anything else once. */
  function InflateAll(c: Constructor, cached: Value): (r: Value)
    ensures cached.Arr? ==> r.Arr? && |r.items| == |cached.items|
    ensures cached.Arr? ==> forall i :: 0 <= i < |cached.items| ==> r.items[i] == InflateModel(c, cached.items[i])
    ensures !cached.Arr? ==> r == InflateModel(c, cached)
  {
    if cached.Arr? then Arr(seq(|cached.items|, i requires 0 <= i < |cached.items| => InflateModel(c, cached.items[i])))
    else InflateModel(c, cached)
  }

  /** What a hit returns: a count as stored, a lean result as stored, and
      anything else inflated through the query's model. */
  function HitValue(m: Mongoose, s: QueryState, cached: Value): Value {
    if IsCount(s) || IsLean(s) then cached else InflateAll(m.model(s.modelName), cached)
  }

  /** src tests for a hit with `!== undefined && !== null`. */
  predicate IsHit(cached: Value) {
    !Nullish(cached)
  }

  // ---------------------------------------------------------------------
  // exec

  /** The outcome of one `exec`: what it returns, the query's state after it,
      the store after it, and whether the original `exec` ran. */
  datatype Run = Run(result: Result, state: QueryState, entries: Entries, executed: bool)

  /** The query after `exec(op)` has looked at its argument: a string becomes
      the query's `op`. */
  function WithOp(s: QueryState, arg: ExecArg): QueryState {
    if arg.OpName? then s.(op := Str(arg.name)) else s
  }

  /** The patched `exec`, on a query with state `s`, `_ttl` `ttl` and `_key`
      `customKey`, against a store holding `entries`. */
  function ExecSpec(m: Mongoose, sha1: string -> string, s: QueryState, ttl: Option<Value>, customKey: string,
                    entries: Entries, arg: ExecArg): Run
  {
    if ttl.None? then Run(m.queryExec(s, arg), s, entries, true)
    else
      var s' := WithOp(s, arg);
      var key := SelectKey(sha1, customKey, s');
      var cached := Read(entries, key);
      if IsHit(cached) then Run(Ok(HitValue(m, s', cached)), s', entries, false)
      else
        match m.queryExec(s', NoArg)
        case Ok(results) => Run(Ok(results), s', AfterSet(entries, key, results, ttl.value), true)
        case Err(e) => Run(Err(e), s', entries, true)
  }

  method Exec(m: Mongoose, sha1: string -> string, cache: Cache, q: Query, arg: ExecArg) returns (r: Result)
    modifies q, cache.backend
    ensures var run := ExecSpec(m, sha1, old(q.State()), old(q.ttl), old(q.key), old(cache.backend.entries), arg);
      r == run.result && q.State() == run.state && cache.backend.entries == run.entries
    ensures q.ttl == old(q.ttl) && q.key == old(q.key)
  {
    if q.ttl.None? {
      return m.queryExec(q.State(), arg);
    }
    ghost var entries := cache.backend.entries;
    var s := WithOp(q.State(), arg);
    if arg.OpName? {
      q.op := Str(arg.name);
    }
    assert q.State() == s;
    var key := if q.key != "" then q.key else CacheKey(sha1, s);
    var ttl := q.ttl.value;
    var cached := cache.Get(key);
    if cached != Undefined && cached != Null {
      if IsCount(s) {
        return Ok(cached);
      }
      if !IsLean(s) {
        cached := InflateAll(m.model(s.modelName), cached);
      }
      return Ok(cached);
    }
    var results := m.queryExec(s, NoArg);
    if results.Ok? {
      cache.Set(key, results.value, ttl);
      assert cache.backend.entries == AfterSet(entries, key, results.value, ttl);
    }
    return results;
  }

  // ---------------------------------------------------------------------
  // Properties of exec

  /** A query on which `cache()` never ran is the original `exec`, and the
      store is not touched. */
  lemma UncachedDelegates(m: Mongoose, sha1: string -> string, s: QueryState, customKey: string, entries: Entries, arg: ExecArg)
    ensures ExecSpec(m, sha1, s, None, customKey, entries, arg) == Run(m.queryExec(s, arg), s, entries, true)
  {
  }

  /** Anything stored that is not undefined or null is a hit: the original
      `exec` does not run and the store is unchanged. A count hit and a lean
      hit return the stored value itself; any other hit is inflated through
      the query's model (element by element for an array). */
  lemma HitShortCircuits(m: Mongoose, sha1: string -> string, s: QueryState, ttl: Value, customKey: string, entries: Entries, arg: ExecArg)
    requires IsHit(Read(entries, SelectKey(sha1, customKey, WithOp(s, arg))))
    ensures var run := ExecSpec(m, sha1, s, Some(ttl), customKey, entries, arg);
      !run.executed && run.entries == entries
    ensures IsCount(WithOp(s, arg)) ==>
      ExecSpec(m, sha1, s, Some(ttl), customKey, entries, arg).result == Ok(Read(entries, SelectKey(sha1, customKey, WithOp(s, arg))))
  ensures !IsCount(WithOp(s, arg)) && IsLean(WithOp(s, arg)) ==>
      ExecSpec(m, sha1, s, Some(ttl), customKey, entries, arg).result == Ok(Read(entries, SelectKey(sha1, customKey, WithOp(s, arg))))
  ensures !IsCount(WithOp(s, arg)) && !IsLean(WithOp(s, arg)) ==>
      var s' := WithOp(s, arg);
      ExecSpec(m, sha1, s, Some(ttl), customKey, entries, arg).result
        == Ok(InflateAll(m.model(s'.modelName), Read(entries, SelectKey(sha1, customKey, s'))))
  {
  }

  /** An empty result set and a count of 0 are served from the store: a
      stored `[]` or `0` skips the database and leaves the store; a stored
      `[]` comes back as an empty array, and a count hit on `0` is 0. */
  lemma EmptyArrayAndZeroAreHits(m: Mongoose, sha1: string -> string, s: QueryState, ttl: Value, customKey: string,
                                 entries: Entries, arg: ExecArg)
    requires Read(entries, SelectKey(sha1, customKey, WithOp(s, arg))) in {Arr([]), Num(0)}
    ensures var run := ExecSpec(m, sha1, s, Some(ttl), customKey, entries, arg);
      !run.executed && run.entries == entries && run.state == WithOp(s, arg)
    ensures Read(entries, SelectKey(sha1, customKey, WithOp(s, arg))) == Arr([]) ==>
      ExecSpec(m, sha1, s, Some(ttl), customKey, entries, arg).result == Ok(Arr([]))
    ensures Read(entries, SelectKey(sha1, customKey, WithOp(s, arg))) == Num(0) && IsCount(WithOp(s, arg)) ==>
      ExecSpec(m, sha1, s, Some(ttl), customKey, entries, arg).result == Ok(Num(0))
  {
    var s' := WithOp(s, arg);
    if Read(entries, SelectKey(sha1, customKey, s')) == Arr([]) && !IsCount(s') && !IsLean(s') {
      assert InflateAll(m.model(s'.modelName), Arr([])).items == [];
    }
  }

  /** A non-lean, non-count hit on an array is inflated element by element,
      keeping its length and order. */
  lemma ArrayHitInflated(m: Mongoose, s: QueryState, cached: seq<Value>, i: int)
    requires !IsCount(s) && !IsLean(s) && 0 <= i < |cached|
    ensures HitValue(m, s, Arr(cached)).Arr?
    ensures |HitValue(m, s, Arr(cached)).items| == |cached|
    ensures HitValue(m, s, Arr(cached)).items[i] == InflateModel(m.model(s.modelName), cached[i])
  {
  }

  /** A miss runs the original `exec` with the query's state and no
      argument; a result is stored under the key with `_ttl` and returned as
      it is; an error is returned and nothing is stored. */
  lemma MissRunsAndStores(m: Mongoose, sha1: string -> string, s: QueryState, ttl: Value, customKey: string, entries: Entries, arg: ExecArg)
    requires !IsHit(Read(entries, SelectKey(sha1, customKey, WithOp(s, arg))))
    ensures var run := ExecSpec(m, sha1, s, Some(ttl), customKey, entries, arg);
      var key := SelectKey(sha1, customKey, WithOp(s, arg));
      && run.executed
      && run.result == m.queryExec(WithOp(s, arg), NoArg)
      && (run.result.Ok? ==> run.entries == AfterSet(entries, key, run.result.value, ttl))
      && (run.result.Err? ==> run.entries == entries)
  {
  }

  /** Errors are never cached: whatever path `exec` takes, when it ends in
      an error the store is as it was. */
  lemma ErrorsNeverCached(m: Mongoose, sha1: string -> string, s: QueryState, ttl: Option<Value>, customKey: string, entries: Entries, arg: ExecArg)
    requires ExecSpec(m, sha1, s, ttl, customKey, entries, arg).result.Err?
    ensures ExecSpec(m, sha1, s, ttl, customKey, entries, arg).entries == entries
  {
  }

  /** The second of two identical cached calls is served from the store: once
      a miss has stored a result that is not undefined or null (with a TTL
      other than null), the same query hits and the original `exec` does not
      run again. */
  lemma SecondCallHits(m: Mongoose, sha1: string -> string, s: QueryState, ttl: Value, customKey: string, entries: Entries, arg: ExecArg)
    requires ttl != Null
    requires var first := ExecSpec(m, sha1, s, Some(ttl), customKey, entries, arg);
      first.executed && first.result.Ok? && IsHit(first.result.value)
    ensures var first := ExecSpec(m, sha1, s, Some(ttl), customKey, entries, arg);
      var second := ExecSpec(m, sha1, first.state, Some(ttl), customKey, first.entries, arg);
      && !second.executed
      && second.entries == first.entries
      && second.result == Ok(HitValue(m, first.state, first.result.value))
  {
    var first := ExecSpec(m, sha1, s, Some(ttl), customKey, entries, arg);
    var s' := WithOp(s, arg);
    assert first.state == s' && WithOp(s', arg) == s';
    ReadAfterSet(entries, SelectKey(sha1, customKey, s'), first.result.value, ttl, SelectKey(sha1, customKey, s'));
  }

  /** Invalidating a custom key, as `clearCache(key)` does, makes the next
      run under that key a miss that goes to the database. */
  lemma InvalidatedKeyMisses(m: Mongoose, sha1: string -> string, s: QueryState, ttl: Value, customKey: string,
                             entries: Entries, arg: ExecArg)
    requires customKey != ""
    ensures var run := ExecSpec(m, sha1, s, Some(ttl), customKey, entries - {customKey}, arg);
      run.executed && run.result == m.queryExec(WithOp(s, arg), NoArg)
  {
    ReadAfterDel(entries, customKey, customKey);
  }

  /** A non-empty custom key names one store entry whatever the query: once
      a query has stored a result under that key, any other query run with
      the same key is answered from that entry without going to the
      database. */
  lemma CustomKeyWins(m: Mongoose, sha1: string -> string, s1: QueryState, s2: QueryState, ttl: Value, customKey: string,
                      entries: Entries, arg1: ExecArg, arg2: ExecArg)
    requires customKey != "" && ttl != Null
    requires var first := ExecSpec(m, sha1, s1, Some(ttl), customKey, entries, arg1);
      first.executed && first.result.Ok? && IsHit(first.result.value)
    ensures var first := ExecSpec(m, sha1, s1, Some(ttl), customKey, entries, arg1);
      var second := ExecSpec(m, sha1, s2, Some(ttl), customKey, first.entries, arg2);
      && !second.executed
      && second.entries == first.entries
      && second.result == Ok(HitValue(m, WithOp(s2, arg2), first.result.value))
  {
    var first := ExecSpec(m, sha1, s1, Some(ttl), customKey, entries, arg1);
    ReadAfterSet(entries, customKey, first.result.value, ttl, customKey);
  }

  // ---------------------------------------------------------------------
  // What the key depends on

  lemma DescriptorNamesDistinct()
    ensures Distinct(DescriptorNames)
  {
  }

  /** Two queries whose descriptors the key sees alike, field by field. */
  predicate SeenAlike(s1: QueryState, s2: QueryState) {
    && s1.modelName == s2.modelName
    && Seen(s1.op) == Seen(s2.op)
    && Seen(s1.skip) == Seen(s2.skip)
    && Seen(s1.limit) == Seen(s2.limit)
    && Seen(s1.sort) == Seen(s2.sort)
    && Seen(Obj(s1.mongooseOptions)) == Seen(Obj(s2.mongooseOptions))
    && Seen(s1.conditions) == Seen(s2.conditions)
    && Seen(s1.fields) == Seen(s2.fields)
    && Seen(s1.path) == Seen(s2.path)
    && Seen(s1.distinct) == Seen(s2.distinct)
  }

  lemma SeenAlikePointwise(s1: QueryState, s2: QueryState)
    ensures SeenAlike(s1, s2) <==>
      forall k :: 0 <= k < |DescriptorNames| ==> Seen(DescriptorValues(s1)[k]) == Seen(DescriptorValues(s2)[k])
  {
    if forall k :: 0 <= k < |DescriptorNames| ==> Seen(DescriptorValues(s1)[k]) == Seen(DescriptorValues(s2)[k]) {
      SeenAlikeOfPointwise(s1, s2);
    }
    if SeenAlike(s1, s2) {
      PointwiseOfSeenAlike(s1, s2);
    }
  }

  lemma SeenAlikeOfPointwise(s1: QueryState, s2: QueryState)
    requires forall k :: 0 <= k < |DescriptorNames| ==> Seen(DescriptorValues(s1)[k]) == Seen(DescriptorValues(s2)[k])
    ensures SeenAlike(s1, s2)
  {
    var v1, v2 := DescriptorValues(s1), DescriptorValues(s2);
    assert Seen(v1[0]) == Seen(v2[0]);
    assert Seen(Str(s1.modelName)) == Some(JStr(s1.modelName));
    assert Seen(Str(s2.modelName)) == Some(JStr(s2.modelName));
    assert Seen(v1[1]) == Seen(v2[1]) && Seen(v1[2]) == Seen(v2[2]) && Seen(v1[3]) == Seen(v2[3]);
    assert Seen(v1[4]) == Seen(v2[4]) && Seen(v1[5]) == Seen(v2[5]) && Seen(v1[6]) == Seen(v2[6]);
    assert Seen(v1[7]) == Seen(v2[7]) && Seen(v1[8]) == Seen(v2[8]) && Seen(v1[9]) == Seen(v2[9]);
  }

  lemma PointwiseOfSeenAlike(s1: QueryState, s2: QueryState)
    requires SeenAlike(s1, s2)
    ensures forall k :: 0 <= k < |DescriptorNames| ==> Seen(DescriptorValues(s1)[k]) == Seen(DescriptorValues(s2)[k])
  {
    FieldSeenAlike(s1, s2);
    ElementsSeenAlike(DescriptorValues(s1), DescriptorValues(s2));
  }

  lemma FieldSeenAlike(s1: QueryState, s2: QueryState)
    requires SeenAlike(s1, s2)
    ensures var v1, v2 := DescriptorValues(s1), DescriptorValues(s2);
      Seen(v1[0]) == Seen(v2[0]) && Seen(v1[1]) == Seen(v2[1]) && Seen(v1[2]) == Seen(v2[2]) && Seen(v1[3]) == Seen(v2[3]) && Seen(v1[4]) == Seen(v2[4]) && Seen(v1[5]) == Seen(v2[5]) && Seen(v1[6]) == Seen(v2[6]) && Seen(v1[7]) == Seen(v2[7]) && Seen(v1[8]) == Seen(v2[8]) && Seen(v1[9]) == Seen(v2[9])
  {
    DescriptorValuesAt(s1);
    DescriptorValuesAt(s2);
  }

  lemma ElementsSeenAlike(v1: seq<Value>, v2: seq<Value>)
    requires |v1| == |v2| == 10
    requires Seen(v1[0]) == Seen(v2[0]) && Seen(v1[1]) == Seen(v2[1]) && Seen(v1[2]) == Seen(v2[2]) && Seen(v1[3]) == Seen(v2[3]) && Seen(v1[4]) == Seen(v2[4]) && Seen(v1[5]) == Seen(v2[5]) && Seen(v1[6]) == Seen(v2[6]) && Seen(v1[7]) == Seen(v2[7]) && Seen(v1[8]) == Seen(v2[8]) && Seen(v1[9]) == Seen(v2[9])
    ensures forall k :: 0 <= k < 10 ==> Seen(v1[k]) == Seen(v2[k])
  {
    // One case per field; each closes by the matching requires.
    forall k | 0 <= k < 10 ensures Seen(v1[k]) == Seen(v2[k]) {
      if k == 0 { }
      else if k == 1 { }
      else if k == 2 { }
      else if k == 3 { }
      else if k == 4 { }
      else if k == 5 { }
      else if k == 6 { }
      else if k == 7 { }
      else if k == 8 { }
    }
  }

  lemma DescriptorValuesAt(s: QueryState)
    ensures DescriptorValues(s)[0] == Str(s.modelName)
    ensures DescriptorValues(s)[1] == s.op
    ensures DescriptorValues(s)[2] == s.skip
    ensures DescriptorValues(s)[3] == s.limit
    ensures DescriptorValues(s)[4] == s.sort
    ensures DescriptorValues(s)[5] == Obj(s.mongooseOptions)
    ensures DescriptorValues(s)[6] == s.conditions
    ensures DescriptorValues(s)[7] == s.fields
    ensures DescriptorValues(s)[8] == s.path
    ensures DescriptorValues(s)[9] == s.distinct
  {
  }

  /** `getCacheKey` depends on exactly model, op, skip, limit, sort,
      `_mongooseOptions`, `_conditions`, `_fields`, `_path` and `_distinct`:
      two queries have the same key text exactly when the key sees each of
      these fields alike. */
  lemma CacheKeyTextSameIff(s1: QueryState, s2: QueryState)
    ensures CacheKeyText(s1) == CacheKeyText(s2) <==> SeenAlike(s1, s2)
  {
    SeenAlikePointwise(s1, s2);
    if CacheKeyText(s1) == CacheKeyText(s2) {
      SameKeyTextPointwise(s1, s2);
    }
    if SeenAlike(s1, s2) {
      PointwiseSameKeyText(s1, s2);
    }
  }

  lemma SameKeyTextPointwise(s1: QueryState, s2: QueryState)
    requires CacheKeyText(s1) == CacheKeyText(s2)
    ensures forall k :: 0 <= k < |DescriptorNames| ==> Seen(DescriptorValues(s1)[k]) == Seen(DescriptorValues(s2)[k])
  {
    var d1 := Labelled(DescriptorNames, DescriptorValues(s1));
    var d2 := Labelled(DescriptorNames, DescriptorValues(s2));
    DescriptorNamesDistinct();
    assert KeyText(Obj(d1)) == KeyText(Obj(d2));
    forall k | 0 <= k < |d1| ensures Seen(DescriptorValues(s1)[k]) == Seen(DescriptorValues(s2)[k]) {
      KeyTextSeparatesPointwise(d1, d2, k);
    }
  }

  lemma PointwiseSameKeyText(s1: QueryState, s2: QueryState)
    requires forall k :: 0 <= k < |DescriptorNames| ==> Seen(DescriptorValues(s1)[k]) == Seen(DescriptorValues(s2)[k])
    ensures CacheKeyText(s1) == CacheKeyText(s2)
  {
    var d1 := Labelled(DescriptorNames, DescriptorValues(s1));
    var d2 := Labelled(DescriptorNames, DescriptorValues(s2));
    DescriptorNamesDistinct();
    KeyTextAgreesPointwise(d1, d2);
  }

  /** Two queries that differ in what the key sees of one field get
      different keys unless SHA-1 collides. */
  lemma DistinctQueriesDistinctKeys(sha1: string -> string, s1: QueryState, s2: QueryState)
    requires !SeenAlike(s1, s2)
    ensures CacheKeyText(s1) != CacheKeyText(s2)
    ensures (forall a, b :: sha1(a) == sha1(b) ==> a == b) ==> CacheKey(sha1, s1) != CacheKey(sha1, s2)
  {
    CacheKeyTextSameIff(s1, s2);
  }

  /** Lean and non-lean versions of a query get different keys (unless
      SHA-1 collides): the `lean` option is part of `_options`. */
  lemma LeanSeparatesKeys(s1: QueryState, s2: QueryState)
    requires DistinctNames(s1.mongooseOptions) && DistinctNames(s2.mongooseOptions)
    requires Seen(Lookup(s1.mongooseOptions, "lean")) != Seen(Lookup(s2.mongooseOptions, "lean"))
    ensures CacheKeyText(s1) != CacheKeyText(s2)
  {
    CacheKeyTextSameIff(s1, s2);
    if Seen(Obj(s1.mongooseOptions)) == Seen(Obj(s2.mongooseOptions)) {
      KeyTextSameIff(Obj(s1.mongooseOptions), Obj(s2.mongooseOptions));
      KeyTextSeparates(s1.mongooseOptions, s2.mongooseOptions);
    }
  }

  /** Queries that differ only in skip, or only in limit, get different
      key texts. */
  lemma SkipAndLimitSeparateKeys(s: QueryState, a: int, b: int)
    requires a != b
    ensures CacheKeyText(s.(skip := Num(a))) != CacheKeyText(s.(skip := Num(b)))
    ensures CacheKeyText(s.(limit := Num(a))) != CacheKeyText(s.(limit := Num(b)))
  {
    CacheKeyTextSameIff(s.(skip := Num(a)), s.(skip := Num(b)));
    CacheKeyTextSameIff(s.(limit := Num(a)), s.(limit := Num(b)));
  }

  /** A count and a find over the same query are cached apart. */
  lemma CountAndFindApart(s: QueryState)
    ensures CacheKeyText(s.(op := Str("count"))) != CacheKeyText(s.(op := Str("find")))
  {
    CacheKeyTextSameIff(s.(op := Str("count")), s.(op := Str("find")));
    assert Seen(Str("count")) == Some(JStr("count"));
    assert Seen(Str("find")) == Some(JStr("find"));
    assert "count"[0] != "find"[0];
  }

  /** Queries that differ only in sort get different key texts when the key
      sees the two sorts differently. */
  lemma SortSeparatesKeys(s: QueryState, a: Value, b: Value)
    requires Seen(a) != Seen(b)
    ensures CacheKeyText(s.(sort := a)) != CacheKeyText(s.(sort := b))
  {
    CacheKeyTextSameIff(s.(sort := a), s.(sort := b));
  }

  /** Conditions written with their properties in another order give the same
      key. */
  lemma ConditionOrderIrrelevant(sha1: string -> string, s: QueryState, c1: Value, c2: Value)
    requires WellFormed(c1) && WellFormed(c2) && SameUpToKeyOrder(c1, c2)
    ensures CacheKey(sha1, s.(conditions := c1)) == CacheKey(sha1, s.(conditions := c2))
  {
    CanonOrderIndependent(c1, c2);
    CacheKeyTextSameIff(s.(conditions := c1), s.(conditions := c2));
  }

  /** Regular-expression conditions with different patterns give different
      key texts. */
  lemma RegexConditionsSeparateKeys(s: QueryState, path: string, s1: string, f1: string, s2: string, f2: string)
    requires '/' !in f1 && '/' !in f2 && (s1 != s2 || f1 != f2)
    ensures CacheKeyText(s.(conditions := Obj([Prop(path, Obj([Prop("$regex", Regex(s1, f1))]))])))
         != CacheKeyText(s.(conditions := Obj([Prop(path, Obj([Prop("$regex", Regex(s2, f2))]))])))
  {
    var c1 := Obj([Prop(path, Obj([Prop("$regex", Regex(s1, f1))]))]);
    var c2 := Obj([Prop(path, Obj([Prop("$regex", Regex(s2, f2))]))]);
    CacheKeyTextSameIff(s.(conditions := c1), s.(conditions := c2));
    if Seen(c1) == Seen(c2) {
      KeyTextSameIff(c1, c2);
      KeyTextSeparates(c1.props, c2.props);
      assert Seen(Lookup(c1.props, path)) == Seen(Lookup(c2.props, path));
      var inner1 := Obj([Prop("$regex", Regex(s1, f1))]);
      var inner2 := Obj([Prop("$regex", Regex(s2, f2))]);
      KeyTextSameIff(inner1, inner2);
      KeyTextSeparates(inner1.props, inner2.props);
      assert Seen(Lookup(inner1.props, "$regex")) == Seen(Lookup(inner2.props, "$regex"));
      RegexesSeenApart(s1, f1, s2, f2);
    }
  }
}

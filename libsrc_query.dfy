/** lib-src/extend-query.js: the patched `Query.prototype.exec`, `cache`
    and `getCacheKey` of the intermediate generation. It differs from src/ in
    three ways: a hit is any truthy cached value, the key object has no
    `sort`, and an optional `debug` flag marks results served from the store
    with `_fromCache`. The file has no `'use strict'`, so marking a primitive
    is silently ignored. */
module LibSrcQuery {
  import opened Json
  import opened Canonical
  import opened GenerateKey
  import opened JsonText
  import opened Store
  import opened Mongoose
  import LibSrcCache
  import SrcQuery

  // ---------------------------------------------------------------------
  // getCacheKey

  /** The property names of the key object, in the order it writes them. */
  const DescriptorNames: seq<string> :=
    ["model", "op", "skip", "limit", "_options", "_conditions", "_fields", "_path", "_distinct"]

  function DescriptorValues(s: QueryState): (vs: seq<Value>)
    ensures |vs| == |DescriptorNames|
  {
    [Str(s.modelName), s.op, s.skip, s.limit, Obj(s.mongooseOptions), s.conditions, s.fields, s.path, s.distinct]
  }

  /** The object `getCacheKey` hands to `generateKey`. */
  function Descriptor(s: QueryState): Value {
    Obj(Labelled(DescriptorNames, DescriptorValues(s)))
  }

  function CacheKeyText(s: QueryState): string {
    KeyText(Descriptor(s)).value
  }

  /** `getCacheKey()`. */
  function CacheKey(sha1: string -> string, s: QueryState): (k: string)
    ensures k == sha1(CacheKeyText(s))
  {
    GenerateKey.GenerateKey(sha1, Descriptor(s)).value
  }

  function SelectKey(sha1: string -> string, customKey: string, s: QueryState): (k: string)
    ensures customKey != "" ==> k == customKey
    ensures customKey == "" ==> k == CacheKey(sha1, s)
  {
    if customKey != "" then customKey else CacheKey(sha1, s)
  }

  lemma DescriptorNamesDistinct()
    ensures Distinct(DescriptorNames)
  {
  }

  /** Two queries whose key objects the key sees alike, field by field. */
  predicate SeenAlike(s1: QueryState, s2: QueryState) {
    && s1.modelName == s2.modelName
    && Seen(s1.op) == Seen(s2.op)
    && Seen(s1.skip) == Seen(s2.skip)
    && Seen(s1.limit) == Seen(s2.limit)
    && Seen(Obj(s1.mongooseOptions)) == Seen(Obj(s2.mongooseOptions))
    && Seen(s1.conditions) == Seen(s2.conditions)
    && Seen(s1.fields) == Seen(s2.fields)
    && Seen(s1.path) == Seen(s2.path)
    && Seen(s1.distinct) == Seen(s2.distinct)
  }

  lemma SeenAlikePointwise(s1: QueryState, s2: QueryState)
    ensures SeenAlike(s1, s2) <==>
      forall k :: 0 <= k < |DescriptorNames| ==> Seen(DescriptorValues(s1)[k]) == Seen(DescriptorValues(s2)[k])
  {
    if forall k :: 0 <= k < |DescriptorNames| ==> Seen(DescriptorValues(s1)[k]) == Seen(DescriptorValues(s2)[k]) {
      SeenAlikeOfPointwise(s1, s2);
    }
    if SeenAlike(s1, s2) {
      FieldSeenAlike(s1, s2);
      ElementsSeenAlike(DescriptorValues(s1), DescriptorValues(s2));
    }
  }

  lemma SeenAlikeOfPointwise(s1: QueryState, s2: QueryState)
    requires forall k :: 0 <= k < |DescriptorNames| ==> Seen(DescriptorValues(s1)[k]) == Seen(DescriptorValues(s2)[k])
    ensures SeenAlike(s1, s2)
  {
    var v1, v2 := DescriptorValues(s1), DescriptorValues(s2);
    assert Seen(v1[0]) == Seen(v2[0]);
    assert Seen(Str(s1.modelName)) == Some(JStr(s1.modelName));
    assert Seen(Str(s2.modelName)) == Some(JStr(s2.modelName));
    assert Seen(v1[1]) == Seen(v2[1]) && Seen(v1[2]) == Seen(v2[2]) && Seen(v1[3]) == Seen(v2[3]);
    assert Seen(v1[4]) == Seen(v2[4]) && Seen(v1[5]) == Seen(v2[5]) && Seen(v1[6]) == Seen(v2[6]);
    assert Seen(v1[7]) == Seen(v2[7]) && Seen(v1[8]) == Seen(v2[8]);
  }

  lemma FieldSeenAlike(s1: QueryState, s2: QueryState)
    requires SeenAlike(s1, s2)
    ensures var v1, v2 := DescriptorValues(s1), DescriptorValues(s2);
      Seen(v1[0]) == Seen(v2[0]) && Seen(v1[1]) == Seen(v2[1]) && Seen(v1[2]) == Seen(v2[2]) && Seen(v1[3]) == Seen(v2[3]) && Seen(v1[4]) == Seen(v2[4]) && Seen(v1[5]) == Seen(v2[5]) && Seen(v1[6]) == Seen(v2[6]) && Seen(v1[7]) == Seen(v2[7]) && Seen(v1[8]) == Seen(v2[8])
  {
    DescriptorValuesAt(s1);
    DescriptorValuesAt(s2);
  }

  lemma ElementsSeenAlike(v1: seq<Value>, v2: seq<Value>)
    requires |v1| == |v2| == 9
    requires Seen(v1[0]) == Seen(v2[0]) && Seen(v1[1]) == Seen(v2[1]) && Seen(v1[2]) == Seen(v2[2]) && Seen(v1[3]) == Seen(v2[3]) && Seen(v1[4]) == Seen(v2[4]) && Seen(v1[5]) == Seen(v2[5]) && Seen(v1[6]) == Seen(v2[6]) && Seen(v1[7]) == Seen(v2[7]) && Seen(v1[8]) == Seen(v2[8])
    ensures forall k :: 0 <= k < 9 ==> Seen(v1[k]) == Seen(v2[k])
  {
    // One case per field; each closes by the matching requires.
    forall k | 0 <= k < 9 ensures Seen(v1[k]) == Seen(v2[k]) {
      if k == 0 { }
      else if k == 1 { }
      else if k == 2 { }
      else if k == 3 { }
      else if k == 4 { }
      else if k == 5 { }
      else if k == 6 { }
      else if k == 7 { }
    }
  }

  lemma DescriptorValuesAt(s: QueryState)
    ensures DescriptorValues(s)[0] == Str(s.modelName)
    ensures DescriptorValues(s)[1] == s.op
    ensures DescriptorValues(s)[2] == s.skip
    ensures DescriptorValues(s)[3] == s.limit
    ensures DescriptorValues(s)[4] == Obj(s.mongooseOptions)
    ensures DescriptorValues(s)[5] == s.conditions
    ensures DescriptorValues(s)[6] == s.fields
    ensures DescriptorValues(s)[7] == s.path
    ensures DescriptorValues(s)[8] == s.distinct
  {
  }

  /** The key depends on exactly model, op, skip, limit, `_mongooseOptions`,
      `_conditions`, `_fields`, `_path` and `_distinct`. */
  lemma CacheKeyTextSameIff(s1: QueryState, s2: QueryState)
    ensures CacheKeyText(s1) == CacheKeyText(s2) <==> SeenAlike(s1, s2)
  {
    SeenAlikePointwise(s1, s2);
    if CacheKeyText(s1) == CacheKeyText(s2) {
      SameKeyTextPointwise(s1, s2);
    }
    if SeenAlike(s1, s2) {
      PointwiseSameKeyText(s1, s2);
    }
  }

  lemma SameKeyTextPointwise(s1: QueryState, s2: QueryState)
    requires CacheKeyText(s1) == CacheKeyText(s2)
    ensures forall k :: 0 <= k < |DescriptorNames| ==> Seen(DescriptorValues(s1)[k]) == Seen(DescriptorValues(s2)[k])
  {
    var d1 := Labelled(DescriptorNames, DescriptorValues(s1));
    var d2 := Labelled(DescriptorNames, DescriptorValues(s2));
    DescriptorNamesDistinct();
    assert KeyText(Obj(d1)) == KeyText(Obj(d2));
    forall k | 0 <= k < |d1| ensures Seen(DescriptorValues(s1)[k]) == Seen(DescriptorValues(s2)[k]) {
      KeyTextSeparatesPointwise(d1, d2, k);
    }
  }

  lemma PointwiseSameKeyText(s1: QueryState, s2: QueryState)
    requires forall k :: 0 <= k < |DescriptorNames| ==> Seen(DescriptorValues(s1)[k]) == Seen(DescriptorValues(s2)[k])
    ensures CacheKeyText(s1) == CacheKeyText(s2)
  {
    var d1 := Labelled(DescriptorNames, DescriptorValues(s1));
    var d2 := Labelled(DescriptorNames, DescriptorValues(s2));
    DescriptorNamesDistinct();
    KeyTextAgreesPointwise(d1, d2);
  }

  /** Sort is not part of the key: the same query sorted two ways shares one
      store entry. */
  lemma SortIgnored(sha1: string -> string, s: QueryState, a: Value, b: Value)
    ensures CacheKey(sha1, s.(sort := a)) == CacheKey(sha1, s.(sort := b))
  {
    CacheKeyTextSameIff(s.(sort := a), s.(sort := b));
  }

  // ---------------------------------------------------------------------
  // exec

  /** A result as `exec` delivers it: the value, and whether `_fromCache =
      true` was set on it (it is an object and `debug` is on). */
  datatype Reply = Reply(value: Value, fromCache: bool)

  /** Values that can carry an own property: objects, arrays and RegExps. */
  predicate IsObject(v: Value) {
    v.Obj? || v.Arr? || v.Regex?
  }

  /** `if (debug) v._fromCache = true` in sloppy mode: a primitive is left
      unmarked. */
  function Mark(v: Value, debug: bool): (r: Reply)
    ensures r.value == v
    ensures r.fromCache <==> debug && IsObject(v)
  {
    Reply(v, debug && IsObject(v))
  }

  /** What a hit delivers: a count as stored (wrapped in `{count,
      _fromCache}` when debugging); otherwise the stored value, inflated
      unless the query is lean, and marked when debugging. */
  function HitReply(m: Mongoose, s: QueryState, cached: Value, debug: bool): Reply {
    if IsCount(s) then
      if debug then Reply(Obj([Prop("count", cached), Prop("_fromCache", Bool(true))]), false)
      else Reply(cached, false)
    else
      Mark(if IsLean(s) then cached else SrcQuery.InflateAll(m.model(s.modelName), cached), debug)
  }

  datatype Run = Run(result: Result, fromCache: bool, state: QueryState, entries: Entries, executed: bool)

  /** The patched `exec`. Keys are stored under the `cachegoose:` prefix; a
      hit is a truthy stored value; a TTL is handed to the store as it is. */
  function ExecSpec(m: Mongoose, sha1: string -> string, s: QueryState, ttl: Option<Value>, customKey: string,
                    entries: Entries, arg: ExecArg, debug: bool): Run
  {
    if ttl.None? then Run(m.queryExec(s, arg), false, s, entries, true)
    else
      var s' := SrcQuery.WithOp(s, arg);
      var key := LibSrcCache.Prefixed(SelectKey(sha1, customKey, s'));
      var cached := Read(entries, key);
      if Truthy(cached) then
        var reply := HitReply(m, s', cached, debug);
        Run(Ok(reply.value), reply.fromCache, s', entries, false)
      else
        match m.queryExec(s', NoArg)
        case Ok(results) => Run(Ok(results), false, s', entries[key := Entry(results, ttl.value)], true)
        case Err(e) => Run(Err(e), false, s', entries, true)
  }

  /** lib-src/index.js hands no `debug` to this file. */
  const Debug: bool := false

  method Exec(m: Mongoose, sha1: string -> string, cache: LibSrcCache.Cache, q: Query, arg: ExecArg, debug: bool)
    returns (r: Result, fromCache: bool)
    modifies q, cache.backend
    ensures var run := ExecSpec(m, sha1, old(q.State()), old(q.ttl), old(q.key), old(cache.backend.entries), arg, debug);
      && r == run.result && fromCache == run.fromCache
      && q.State() == run.state && cache.backend.entries == run.entries
    ensures q.ttl == old(q.ttl) && q.key == old(q.key)
  {
    if q.ttl.None? {
      return m.queryExec(q.State(), arg), false;
    }
    var s := SrcQuery.WithOp(q.State(), arg);
    if arg.OpName? {
      q.op := Str(arg.name);
    }
    assert q.State() == s;
    var key := if q.key != "" then q.key else CacheKey(sha1, s);
    var ttl := q.ttl.value;
    var cached := cache.Get(key);
    if Truthy(cached) {
      if IsCount(s) {
        if debug {
          cached := Obj([Prop("count", cached), Prop("_fromCache", Bool(true))]);
        }
        return Ok(cached), false;
      }
      if !IsLean(s) {
        cached := SrcQuery.InflateAll(m.model(s.modelName), cached);
      }
      var marked := debug && (cached.Obj? || cached.Arr? || cached.Regex?);
      return Ok(cached), marked;
    }
    var results := m.queryExec(s, NoArg);
    if results.Ok? {
      cache.Set(key, results.value, ttl);
    }
    return results, false;
  }

  /** `query.cache(ttl, customKey)`: the same defaults as in src/. */
  method Cache(q: Query, ttl: Value, customKey: string) returns (self: Query)
    modifies q
    ensures self == q
    ensures q.ttl == Some(SrcQuery.NormaliseCacheArgs(ttl, customKey).ttl)
    ensures q.key == SrcQuery.NormaliseCacheArgs(ttl, customKey).key
    ensures q.State() == old(q.State())
  {
    var a := SrcQuery.NormaliseCacheArgs(ttl, customKey);
    q.ttl := Some(a.ttl);
    q.key := a.key;
    return q;
  }

  // ---------------------------------------------------------------------
  // Properties of exec

  /** Any falsy stored value is a miss: nothing stored (undefined), a null,
      and also a cached count of 0, an empty string or `false` send the query
      to the database again; a fresh result replaces the entry under the
      prefixed key with the TTL as given, and an error leaves the store. */
  lemma FalsyIsMiss(m: Mongoose, sha1: string -> string, s: QueryState, ttl: Value, customKey: string, entries: Entries,
                    arg: ExecArg, debug: bool)
    requires !Truthy(Read(entries, LibSrcCache.Prefixed(SelectKey(sha1, customKey, SrcQuery.WithOp(s, arg)))))
    ensures var run := ExecSpec(m, sha1, s, Some(ttl), customKey, entries, arg, debug);
      var key := LibSrcCache.Prefixed(SelectKey(sha1, customKey, SrcQuery.WithOp(s, arg)));
      && run.executed && !run.fromCache
      && run.result == m.queryExec(SrcQuery.WithOp(s, arg), NoArg)
      && (run.result.Ok? ==> run.entries == entries[key := Entry(run.result.value, ttl)])
      && (run.result.Err? ==> run.entries == entries)
  {
  }

  /** A count hit returns the stored count, wrapped in `{count, _fromCache:
      true}` only when debugging. */
  lemma CountHit(m: Mongoose, sha1: string -> string, s: QueryState, ttl: Value, customKey: string, entries: Entries,
                 arg: ExecArg, debug: bool)
    requires IsCount(SrcQuery.WithOp(s, arg))
    requires Truthy(Read(entries, LibSrcCache.Prefixed(SelectKey(sha1, customKey, SrcQuery.WithOp(s, arg)))))
    ensures var run := ExecSpec(m, sha1, s, Some(ttl), customKey, entries, arg, debug);
      var cached := Read(entries, LibSrcCache.Prefixed(SelectKey(sha1, customKey, SrcQuery.WithOp(s, arg))));
      && !run.executed && run.entries == entries
      && (!debug ==> run.result == Ok(cached))
      && (debug ==> run.result.Ok? && Get(run.result.value, "count") == cached
                    && Get(run.result.value, "_fromCache") == Bool(true))
  {
    var cached := Read(entries, LibSrcCache.Prefixed(SelectKey(sha1, customKey, SrcQuery.WithOp(s, arg))));
    var ps := [Prop("count", cached), Prop("_fromCache", Bool(true))];
    assert "count"[0] != "_fromCache"[0];
    assert Lookup(ps, "_fromCache") == Lookup(ps[1..], "_fromCache") == Bool(true);
  }

  /** With `debug` off, as lib-src/index.js wires it, no result is ever
      marked, and a hit delivers what src/ would deliver for the same stored
      value. */
  lemma WiredWithoutMarks(m: Mongoose, sha1: string -> string, s: QueryState, ttl: Option<Value>, customKey: string,
                          entries: Entries, arg: ExecArg)
    ensures !ExecSpec(m, sha1, s, ttl, customKey, entries, arg, Debug).fromCache
    ensures var s' := SrcQuery.WithOp(s, arg);
      var cached := Read(entries, LibSrcCache.Prefixed(SelectKey(sha1, customKey, s')));
      ttl.Some? && Truthy(cached) ==>
        ExecSpec(m, sha1, s, ttl, customKey, entries, arg, Debug).result == Ok(SrcQuery.HitValue(m, s', cached))
  {
  }

  /** Errors are never cached. */
  lemma ErrorsNeverCached(m: Mongoose, sha1: string -> string, s: QueryState, ttl: Option<Value>, customKey: string,
                          entries: Entries, arg: ExecArg, debug: bool)
    requires ExecSpec(m, sha1, s, ttl, customKey, entries, arg, debug).result.Err?
    ensures ExecSpec(m, sha1, s, ttl, customKey, entries, arg, debug).entries == entries
  {
  }

  /** After a miss stored a truthy result, the same query hits. */
  lemma SecondCallHits(m: Mongoose, sha1: string -> string, s: QueryState, ttl: Value, customKey: string,
                       entries: Entries, arg: ExecArg, debug: bool)
    requires var first := ExecSpec(m, sha1, s, Some(ttl), customKey, entries, arg, debug);
      first.executed && first.result.Ok? && Truthy(first.result.value)
    ensures var first := ExecSpec(m, sha1, s, Some(ttl), customKey, entries, arg, debug);
      var second := ExecSpec(m, sha1, first.state, Some(ttl), customKey, first.entries, arg, debug);
      && !second.executed
      && second.entries == first.entries
      && second.result == Ok(HitReply(m, first.state, first.result.value, debug).value)
  {
    var s' := SrcQuery.WithOp(s, arg);
    assert SrcQuery.WithOp(s', arg) == s';
    var first := ExecSpec(m, sha1, s, Some(ttl), customKey, entries, arg, debug);
    var key := LibSrcCache.Prefixed(SelectKey(sha1, customKey, s'));
    assert Read(first.entries, key) == first.result.value;
  }
}

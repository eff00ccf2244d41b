/** lib-src/extend-aggregate.js: the same once-only patch of the Aggregate
    prototype as in src/ (SrcAggregate.AggregateHook), with a truthy hit, no
    ObjectId recovery and the optional `_fromCache` mark. */
module LibSrcAggregate {
  import opened Json
  import opened Store
  import opened Mongoose
  import LibSrcCache
  import LibSrcQuery
  import SrcQuery
  import SrcAggregate

  datatype Run = Run(result: Result, fromCache: bool, entries: Entries, executed: bool)

  /** The patched `exec`: a truthy stored value is returned as it is (marked
      when debugging); otherwise the original `exec` runs and its result is
      stored under the prefixed key with the TTL as given. */
  function ExecSpec(m: Mongoose, sha1: string -> string, pipeline: seq<Value>, ttl: Option<Value>, customKey: string,
                    entries: Entries, arg: ExecArg, debug: bool): Run
  {
    if ttl.None? then Run(m.aggregateExec(pipeline, arg), false, entries, true)
    else
      var key := LibSrcCache.Prefixed(SrcAggregate.SelectKey(sha1, customKey, pipeline));
      var cached := Read(entries, key);
      if Truthy(cached) then Run(Ok(cached), LibSrcQuery.Mark(cached, debug).fromCache, entries, false)
      else
        match m.aggregateExec(pipeline, NoArg)
        case Ok(results) => Run(Ok(results), false, entries[key := Entry(results, ttl.value)], true)
        case Err(e) => Run(Err(e), false, entries, true)
  }

  method Exec(m: Mongoose, sha1: string -> string, cache: LibSrcCache.Cache, a: Aggregate, arg: ExecArg, debug: bool)
    returns (r: Result, fromCache: bool)
    modifies cache.backend
    ensures var run := ExecSpec(m, sha1, a.pipeline, a.ttl, a.key, old(cache.backend.entries), arg, debug);
      r == run.result && fromCache == run.fromCache && cache.backend.entries == run.entries
  {
    if a.ttl.None? {
      return m.aggregateExec(a.pipeline, arg), false;
    }
    var key := if a.key != "" then a.key else SrcAggregate.CacheKey(sha1, a.pipeline);
    var ttl := a.ttl.value;
    var cached := cache.Get(key);
    if Truthy(cached) {
      return Ok(cached), debug && (cached.Obj? || cached.Arr? || cached.Regex?);
    }
    var results := m.aggregateExec(a.pipeline, NoArg);
    if results.Ok? {
      cache.Set(key, results.value, ttl);
    }
    return results, false;
  }

  /** `aggregate.cache(ttl, customKey)`: the same defaults as a query's. */
  method Cache(a: Aggregate, ttl: Value, customKey: string) returns (self: Aggregate)
    modifies a
    ensures self == a
    ensures a.ttl == Some(SrcQuery.NormaliseCacheArgs(ttl, customKey).ttl)
    ensures a.key == SrcQuery.NormaliseCacheArgs(ttl, customKey).key
    ensures a.pipeline == old(a.pipeline)
  {
    var args := SrcQuery.NormaliseCacheArgs(ttl, customKey);
    a.ttl := Some(args.ttl);
    a.key := args.key;
    return a;
  }

  /** A hit returns the stored value itself: unlike src/, `_id`s are not
      re-typed. */
  lemma HitReturnsStored(m: Mongoose, sha1: string -> string, pipeline: seq<Value>, ttl: Value, customKey: string,
                         entries: Entries, arg: ExecArg, debug: bool)
    requires Truthy(Read(entries, LibSrcCache.Prefixed(SrcAggregate.SelectKey(sha1, customKey, pipeline))))
    ensures var run := ExecSpec(m, sha1, pipeline, Some(ttl), customKey, entries, arg, debug);
      && !run.executed && run.entries == entries
      && run.result == Ok(Read(entries, LibSrcCache.Prefixed(SrcAggregate.SelectKey(sha1, customKey, pipeline))))
  {
  }

  /** Any falsy stored value is a miss: nothing stored (undefined), a null,
      a 0, an empty string or `false` make the original `exec` run without
      arguments; a fresh result replaces the entry under the prefixed key
      with the TTL as given, and an error leaves the store. (A stored `[]` is
      truthy, so an empty result set is a hit.) */
  lemma FalsyIsMiss(m: Mongoose, sha1: string -> string, pipeline: seq<Value>, ttl: Value, customKey: string,
                    entries: Entries, arg: ExecArg, debug: bool)
    requires !Truthy(Read(entries, LibSrcCache.Prefixed(SrcAggregate.SelectKey(sha1, customKey, pipeline))))
    ensures var run := ExecSpec(m, sha1, pipeline, Some(ttl), customKey, entries, arg, debug);
      var key := LibSrcCache.Prefixed(SrcAggregate.SelectKey(sha1, customKey, pipeline));
      && run.executed && !run.fromCache
      && run.result == m.aggregateExec(pipeline, NoArg)
      && (run.result.Ok? ==> run.entries == entries[key := Entry(run.result.value, ttl)])
      && (run.result.Err? ==> run.entries == entries)
  {
  }

  /** Errors are never cached. */
  lemma ErrorsNeverCached(m: Mongoose, sha1: string -> string, pipeline: seq<Value>, ttl: Option<Value>, customKey: string,
                          entries: Entries, arg: ExecArg, debug: bool)
    requires ExecSpec(m, sha1, pipeline, ttl, customKey, entries, arg, debug).result.Err?
    ensures ExecSpec(m, sha1, pipeline, ttl, customKey, entries, arg, debug).entries == entries
  {
  }

  /** After a miss stored a truthy result, the same aggregate hits and gets
      that result back. */
  lemma SecondCallHits(m: Mongoose, sha1: string -> string, pipeline: seq<Value>, ttl: Value, customKey: string,
                       entries: Entries, arg: ExecArg, debug: bool)
    requires var first := ExecSpec(m, sha1, pipeline, Some(ttl), customKey, entries, arg, debug);
      first.executed && first.result.Ok? && Truthy(first.result.value)
    ensures var first := ExecSpec(m, sha1, pipeline, Some(ttl), customKey, entries, arg, debug);
      var second := ExecSpec(m, sha1, pipeline, Some(ttl), customKey, first.entries, arg, debug);
      && !second.executed && second.entries == first.entries && second.result == first.result
  {
  }
}

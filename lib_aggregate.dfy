/** lib/extend-aggregate.js: the oldest aggregate patch. The prototype is
    patched once, as in src/ (SrcAggregate.AggregateHook); the patched `exec`
    has no gate and always goes through the store, keyed by the plain JSON
    text of the pipeline. */
module LibAggregate {
  import opened Json
  import opened JsonText
  import opened JsonDecode
  import opened Store
  import opened Mongoose
  import LibQuery

  /** `getCacheKey()`: `JSON.stringify(this._pipeline)`. */
  function CacheKey(pipeline: seq<Value>): (k: string)
    ensures Stringify(Arr(pipeline), false) == Some(k)
  {
    Stringify(Arr(pipeline), false).value
  }

  /** Two pipelines share a key exactly when they denote the same JSON data. */
  lemma CacheKeySameIff(p1: seq<Value>, p2: seq<Value>)
    ensures CacheKey(p1) == CacheKey(p2) <==> View(Arr(p1), false) == View(Arr(p2), false)
  {
    StringifySameIff(Arr(p1), Arr(p2), false);
  }

  datatype Run = Run(result: Result, fromCache: bool, entries: Entries, executed: bool)

  /** The patched `exec`: the caller's callback only listens to the promise,
      and the original `exec` is always called without arguments. A truthy
      stored value is marked in strict mode; any other value leads to the
      original `exec`, whose result is stored with the `_ttl` as read
      (undefined when `cache()` never ran). */
  function ExecSpec(m: Mongoose, pipeline: seq<Value>, ttl: Option<Value>, entries: Entries): Run
  {
    var key := CacheKey(pipeline);
    var cached := Read(entries, key);
    if Truthy(cached) then
      var r := LibQuery.MarkStrict(cached);
      Run(r, r.Ok?, entries, false)
    else
      match m.aggregateExec(pipeline, NoArg)
      case Ok(results) => Run(Ok(results), false, entries[key := Entry(results, TtlValue(ttl))], true)
      case Err(e) => Run(Err(e), false, entries, true)
  }

  method Exec(m: Mongoose, backend: Backend, a: Aggregate) returns (r: Result, fromCache: bool)
    modifies backend
    ensures var run := ExecSpec(m, a.pipeline, a.ttl, old(backend.entries));
      r == run.result && fromCache == run.fromCache && backend.entries == run.entries
  {
    var key := CacheKey(a.pipeline);
    var ttl := TtlValue(a.ttl);
    var cached := backend.Get(key);
    if Truthy(cached) {
      if !(cached.Obj? || cached.Arr? || cached.Regex?) {
        return Err(TypeError), false;
      }
      return Ok(cached), true;
    }
    var results := m.aggregateExec(a.pipeline, NoArg);
    if results.Ok? {
      backend.Set(key, results.value, ttl);
    }
    return results, false;
  }

  /** `aggregate.cache(ttl)`: `false` deletes the pipeline's entry; anything
      else sets `_ttl`, a falsy TTL becoming 60. */
  method Cache(a: Aggregate, ttl: Value, backend: Backend) returns (self: Aggregate)
    modifies a, backend
    ensures self == a && a.pipeline == old(a.pipeline) && a.key == old(a.key)
    ensures ttl == Bool(false) ==> a.ttl == old(a.ttl) && backend.entries == old(backend.entries) - {CacheKey(a.pipeline)}
    ensures ttl != Bool(false) ==> backend.entries == old(backend.entries)
    ensures ttl != Bool(false) ==> a.ttl == Some(if Truthy(ttl) then ttl else Num(60))
  {
    if ttl == Bool(false) {
      backend.Del(CacheKey(a.pipeline));
    } else {
      a.ttl := Some(if Truthy(ttl) then ttl else Num(60));
    }
    return a;
  }

  /** Every aggregate is cached, even one on which `cache()` never ran: a
      miss stores the result with an undefined TTL. */
  lemma UncachedAggregateIsStored(m: Mongoose, pipeline: seq<Value>, entries: Entries)
    requires !Truthy(Read(entries, CacheKey(pipeline)))
    requires m.aggregateExec(pipeline, NoArg).Ok?
    ensures var run := ExecSpec(m, pipeline, None, entries);
      run.executed && run.entries == entries[CacheKey(pipeline) := Entry(m.aggregateExec(pipeline, NoArg).value, Undefined)]
  {
  }

  /** A miss (a falsy stored value) runs the original `exec` without
      arguments; a result is stored under the pipeline's key with `_ttl` as
      read, and an error leaves the store. */
  lemma MissRunsAndStores(m: Mongoose, pipeline: seq<Value>, ttl: Option<Value>, entries: Entries)
    requires !Truthy(Read(entries, CacheKey(pipeline)))
    ensures var run := ExecSpec(m, pipeline, ttl, entries);
      && run.executed && !run.fromCache
      && run.result == m.aggregateExec(pipeline, NoArg)
      && (run.result.Ok? ==> run.entries == entries[CacheKey(pipeline) := Entry(run.result.value, TtlValue(ttl))])
      && (run.result.Err? ==> run.entries == entries)
  {
  }

  /** A truthy primitive in the store makes `exec` fail: strict mode refuses
      the `_fromCache` assignment. */
  lemma PrimitiveHitThrows(m: Mongoose, pipeline: seq<Value>, ttl: Option<Value>, entries: Entries)
    requires Truthy(Read(entries, CacheKey(pipeline))) && !LibQuery.MarkStrict(Read(entries, CacheKey(pipeline))).Ok?
    ensures ExecSpec(m, pipeline, ttl, entries) == Run(Err(TypeError), false, entries, false)
  {
  }

  /** Errors are never cached. */
  lemma ErrorsNeverCached(m: Mongoose, pipeline: seq<Value>, ttl: Option<Value>, entries: Entries)
    requires ExecSpec(m, pipeline, ttl, entries).result.Err?
    ensures ExecSpec(m, pipeline, ttl, entries).entries == entries
  {
  }

  /** After a miss stored an array or object, the same pipeline hits and
      gets it back marked. */
  lemma SecondCallHits(m: Mongoose, pipeline: seq<Value>, ttl: Option<Value>, entries: Entries)
    requires var first := ExecSpec(m, pipeline, ttl, entries);
      first.executed && first.result.Ok? && (first.result.value.Arr? || first.result.value.Obj?)
    ensures var first := ExecSpec(m, pipeline, ttl, entries);
      var second := ExecSpec(m, pipeline, ttl, first.entries);
      second == Run(first.result, true, first.entries, false)
  {
  }
}

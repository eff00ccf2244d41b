/** src/extend-aggregate.js: the wrapper around `Model.aggregate` that
    patches the Aggregate prototype the first time it sees one, and the
    patched `exec`, `cache` and `getCacheKey`. */
module SrcAggregate {
  import opened Json
  import opened Canonical
  import opened GenerateKey
  import opened Store
  import opened SrcCache
  import opened Mongoose
  import opened RecoverObjectId
  import SrcQuery

  // ---------------------------------------------------------------------
  // Patching the prototype once

  /** What `aggregate.apply(this, arguments)` returned, as far as the wrapper
      looks at it: the name of its constructor, if it has one. */
  datatype AggregateResult = AggregateResult(ctorName: Option<string>, pipeline: seq<Value>)

  /** `res.constructor && res.constructor.name === 'Aggregate'`. */
  predicate IsAggregate(res: AggregateResult) {
    res.ctorName == Some("Aggregate")
  }

  /** Whether one call of the wrapper patches the prototype, given the flag
      before the call. */
  predicate Extends(hasBeenExtended: bool, res: AggregateResult) {
    !hasBeenExtended && IsAggregate(res)
  }

  /** How many times a run of wrapper calls, starting from the flag
      `hasBeenExtended`, patches the prototype. */
  function Extensions(hasBeenExtended: bool, calls: seq<AggregateResult>): nat
    decreases |calls|
  {
    if calls == [] then 0
    else
      (if Extends(hasBeenExtended, calls[0]) then 1 else 0)
      + Extensions(hasBeenExtended || IsAggregate(calls[0]), calls[1..])
  }

  /** The prototype is patched at most once, and never once the flag is set,
      however many aggregates are built. */
  lemma {:induction false} ExtendedAtMostOnce(hasBeenExtended: bool, calls: seq<AggregateResult>)
    ensures Extensions(hasBeenExtended, calls) <= if hasBeenExtended then 0 else 1
    decreases |calls|
  {
    if calls != [] {
      ExtendedAtMostOnce(hasBeenExtended || IsAggregate(calls[0]), calls[1..]);
      if !hasBeenExtended && IsAggregate(calls[0]) {
        assert Extensions(true, calls[1..]) == 0;
      }
    }
  }

  /** A run with an Aggregate in it patches the prototype, if it was not
      patched before. */
  lemma {:induction false} ExtendedOnceAggregateSeen(calls: seq<AggregateResult>, i: int)
    requires 0 <= i < |calls| && IsAggregate(calls[i])
    ensures Extensions(false, calls) == 1
    decreases |calls|
  {
    ExtendedAtMostOnce(IsAggregate(calls[0]), calls[1..]);
    if !IsAggregate(calls[0]) {
      ExtendedOnceAggregateSeen(calls[1..], i - 1);
    }
  }

  /** The module-level flag of the file and the number of times it has
      patched `Aggregate.prototype`. */
  class AggregateHook {
    var hasBeenExtended: bool
    var extensions: nat

    ghost predicate Valid()
      reads this
    {
      extensions == if hasBeenExtended then 1 else 0
    }

    constructor ()
      ensures Valid() && !hasBeenExtended
    {
      hasBeenExtended, extensions := false, 0;
    }

    /** The wrapped `Model.aggregate`: returns what the original returned,
        and patches the prototype the first time that is an Aggregate. */
    method ModelAggregate(res: AggregateResult) returns (r: AggregateResult)
      requires Valid()
      modifies this
      ensures Valid() && r == res
      ensures hasBeenExtended == (old(hasBeenExtended) || IsAggregate(res))
      ensures extensions == old(extensions) + Extensions(old(hasBeenExtended), [res])
    {
      if !hasBeenExtended && res.ctorName == Some("Aggregate") {
        extensions := extensions + 1;
        hasBeenExtended := true;
      }
      return res;
    }
  }

  // ---------------------------------------------------------------------
  // cache and getCacheKey

  /** `aggregate.cache(ttl, customKey)`, with the same defaults as a query's. */
  method Cache(a: Aggregate, ttl: Value, customKey: string) returns (self: Aggregate)
    modifies a
    ensures self == a
    ensures a.ttl == Some(SrcQuery.NormaliseCacheArgs(ttl, customKey).ttl)
    ensures a.key == SrcQuery.NormaliseCacheArgs(ttl, customKey).key
    ensures a.pipeline == old(a.pipeline)
  {
    var args := SrcQuery.NormaliseCacheArgs(ttl, customKey);
    a.ttl := Some(args.ttl);
    a.key := args.key;
    return a;
  }

  /** `getCacheKey()`: the generated key of the pipeline. */
  function CacheKey(sha1: string -> string, pipeline: seq<Value>): (k: string)
    ensures k == sha1(KeyText(Arr(pipeline)).value)
  {
    GenerateKey.GenerateKey(sha1, Arr(pipeline)).value
  }

  function SelectKey(sha1: string -> string, customKey: string, pipeline: seq<Value>): (k: string)
    ensures customKey != "" ==> k == customKey
    ensures customKey == "" ==> k == CacheKey(sha1, pipeline)
  {
    if customKey != "" then customKey else CacheKey(sha1, pipeline)
  }

  /** Pipelines whose stages differ only in property order share a key. */
  lemma StageOrderIrrelevant(sha1: string -> string, p1: seq<Value>, p2: seq<Value>)
    requires WellFormed(Arr(p1)) && WellFormed(Arr(p2)) && SameUpToKeyOrder(Arr(p1), Arr(p2))
    ensures CacheKey(sha1, p1) == CacheKey(sha1, p2)
  {
    KeyOrderIndependent(sha1, Arr(p1), Arr(p2));
  }

  /** Two pipelines have the same key text exactly when the key sees them alike. */
  lemma PipelineKeyTextSameIff(p1: seq<Value>, p2: seq<Value>)
    ensures KeyText(Arr(p1)) == KeyText(Arr(p2)) <==> Seen(Arr(p1)) == Seen(Arr(p2))
  {
    KeyTextSameIff(Arr(p1), Arr(p2));
  }

  // ---------------------------------------------------------------------
  // exec

  /** The outcome of one `exec`: its result, the store after it, and whether
      the original `exec` ran. */
  datatype Run = Run(result: Result, entries: Entries, executed: bool)

  /** The patched `exec` on an aggregate with pipeline `pipeline`, `_ttl`
      `ttl` and `_key` `customKey`. A hit is anything but undefined or null,
      and goes through `recoverObjectId`. */
  function ExecSpec(m: Mongoose, sha1: string -> string, pipeline: seq<Value>, ttl: Option<Value>, customKey: string,
                    entries: Entries, arg: ExecArg): Run
  {
    if ttl.None? then Run(m.aggregateExec(pipeline, arg), entries, true)
    else
      var key := SelectKey(sha1, customKey, pipeline);
      var cached := Read(entries, key);
      if !Nullish(cached) then Run(RecoverAll(m, cached), entries, false)
      else
        match m.aggregateExec(pipeline, NoArg)
        case Ok(results) => Run(Ok(results), AfterSet(entries, key, results, ttl.value), true)
        case Err(e) => Run(Err(e), entries, true)
  }

  method Exec(m: Mongoose, sha1: string -> string, cache: Cache, a: Aggregate, arg: ExecArg) returns (r: Result)
    modifies cache.backend
    ensures var run := ExecSpec(m, sha1, a.pipeline, a.ttl, a.key, old(cache.backend.entries), arg);
      r == run.result && cache.backend.entries == run.entries
  {
    if a.ttl.None? {
      return m.aggregateExec(a.pipeline, arg);
    }
    var key := if a.key != "" then a.key else CacheKey(sha1, a.pipeline);
    var ttl := a.ttl.value;
    var cached := cache.Get(key);
    if cached != Undefined && cached != Null {
      r := Recover(m, cached);
      return r;
    }
    var results := m.aggregateExec(a.pipeline, NoArg);
    if results.Ok? {
      cache.Set(key, results.value, ttl);
    }
    return results;
  }

  // ---------------------------------------------------------------------
  // Properties of exec

  /** Without `cache()` the original `exec` runs with the caller's argument. */
  lemma UncachedDelegates(m: Mongoose, sha1: string -> string, pipeline: seq<Value>, customKey: string, entries: Entries, arg: ExecArg)
    ensures ExecSpec(m, sha1, pipeline, None, customKey, entries, arg) == Run(m.aggregateExec(pipeline, arg), entries, true)
  {
  }

  /** A hit on an array of documents returns them in order, each with a truthy
      `_id` re-typed through ObjectId and every other field kept; the store is
      unchanged and the original `exec` does not run. */
  lemma HitRecovers(m: Mongoose, sha1: string -> string, pipeline: seq<Value>, ttl: Value, customKey: string, entries: Entries,
                    arg: ExecArg, i: nat)
    requires Read(entries, SelectKey(sha1, customKey, pipeline)).Arr?
    requires var run := ExecSpec(m, sha1, pipeline, Some(ttl), customKey, entries, arg);
      run.result.Ok? && i < |Read(entries, SelectKey(sha1, customKey, pipeline)).items|
    ensures var run := ExecSpec(m, sha1, pipeline, Some(ttl), customKey, entries, arg);
      var docs := Read(entries, SelectKey(sha1, customKey, pipeline)).items;
      && !run.executed && run.entries == entries
      && run.result.value.Arr? && |run.result.value.items| == |docs|
      && RecoverOne(m, docs[i]).Ok?
      && run.result.value.items[i] == RecoverOne(m, docs[i]).value
  {
    var docs := Read(entries, SelectKey(sha1, customKey, pipeline)).items;
    RecoverItemsAt(m, docs, i);
  }

  /** A cached array holding a null document makes `exec` fail with a
      TypeError once the documents before it have been recovered. */
  lemma NullDocumentFails(m: Mongoose, sha1: string -> string, pipeline: seq<Value>, ttl: Value, customKey: string, entries: Entries,
                          arg: ExecArg, i: nat)
    requires var cached := Read(entries, SelectKey(sha1, customKey, pipeline));
      cached.Arr? && i < |cached.items| && Nullish(cached.items[i])
      && forall j :: 0 <= j < i ==> RecoverOne(m, cached.items[j]).Ok?
    ensures ExecSpec(m, sha1, pipeline, Some(ttl), customKey, entries, arg).result == Err(TypeError)
  {
    RecoverItemsError(m, Read(entries, SelectKey(sha1, customKey, pipeline)).items, i);
  }

  /** A miss runs the original `exec` and stores what it returns. */
  lemma MissRunsAndStores(m: Mongoose, sha1: string -> string, pipeline: seq<Value>, ttl: Value, customKey: string, entries: Entries, arg: ExecArg)
    requires Nullish(Read(entries, SelectKey(sha1, customKey, pipeline)))
    ensures var run := ExecSpec(m, sha1, pipeline, Some(ttl), customKey, entries, arg);
      var key := SelectKey(sha1, customKey, pipeline);
      && run.executed
      && run.result == m.aggregateExec(pipeline, NoArg)
      && (run.result.Ok? ==> run.entries == AfterSet(entries, key, run.result.value, ttl))
      && (run.result.Err? ==> run.entries == entries)
  {
  }

  /** Errors are never cached. */
  lemma ErrorsNeverCached(m: Mongoose, sha1: string -> string, pipeline: seq<Value>, ttl: Option<Value>, customKey: string, entries: Entries, arg: ExecArg)
    requires ExecSpec(m, sha1, pipeline, ttl, customKey, entries, arg).result.Err?
    ensures ExecSpec(m, sha1, pipeline, ttl, customKey, entries, arg).entries == entries
  {
  }

  /** After a miss has stored results (not undefined or null, TTL not null),
      the same aggregate hits and returns those results recovered. */
  lemma SecondCallHits(m: Mongoose, sha1: string -> string, pipeline: seq<Value>, ttl: Value, customKey: string, entries: Entries, arg: ExecArg)
    requires ttl != Null
    requires var first := ExecSpec(m, sha1, pipeline, Some(ttl), customKey, entries, arg);
      first.executed && first.result.Ok? && !Nullish(first.result.value)
    ensures var first := ExecSpec(m, sha1, pipeline, Some(ttl), customKey, entries, arg);
      var second := ExecSpec(m, sha1, pipeline, Some(ttl), customKey, first.entries, arg);
      && !second.executed
      && second.entries == first.entries
      && second.result == RecoverAll(m, first.result.value)
  {
    var first := ExecSpec(m, sha1, pipeline, Some(ttl), customKey, entries, arg);
    var key := SelectKey(sha1, customKey, pipeline);
    ReadAfterSet(entries, key, first.result.value, ttl, key);
  }
}

/** src/index.js: `init`, which sets the layer up once per process, and
    `clearCache`. */
module SrcIndex {
  import opened Json
  import opened Store
  import opened Mongoose
  import opened SrcCache

  const IncompatibleMessage: string := "Cachegoose is only compatible with mongoose 3.7+"

  /** What one call of `init` does, given `compareVersions(mongoose.version,
      '3.7')` and whether it ran before: it throws for an older Mongoose
      (whether or not it ran before), does nothing when it already ran, and
      otherwise sets up the cache and patches Query and Aggregate. */
  datatype InitOutcome = Rejected | AlreadyRun | SetUp

  function InitStep(comparison: int, hasRun: bool): (o: InitOutcome)
    ensures o == Rejected <==> comparison == -1
    ensures o == SetUp <==> comparison != -1 && !hasRun
  {
    if comparison == -1 then Rejected
    else if hasRun then AlreadyRun
    else SetUp
  }

  /** How many times a run of `init` calls, with the given version
      comparisons, sets the layer up. */
  function SetUps(hasRun: bool, comparisons: seq<int>): nat
    decreases |comparisons|
  {
    if comparisons == [] then 0
    else
      var o := InitStep(comparisons[0], hasRun);
      (if o == SetUp then 1 else 0) + SetUps(hasRun || o == SetUp, comparisons[1..])
  }

  /** However often `init` is called, the layer is set up, and the
      prototypes patched, at most once. */
  lemma {:induction false} SetUpAtMostOnce(hasRun: bool, comparisons: seq<int>)
    ensures SetUps(hasRun, comparisons) <= if hasRun then 0 else 1
    decreases |comparisons|
  {
    if comparisons != [] {
      var o := InitStep(comparisons[0], hasRun);
      SetUpAtMostOnce(hasRun || o == SetUp, comparisons[1..]);
    }
  }

  /** The outcomes of a run of `init` calls, with the given version
      comparisons, one per call. */
  function Outcomes(hasRun: bool, comparisons: seq<int>): (os: seq<InitOutcome>)
    ensures |os| == |comparisons|
    decreases |comparisons|
  {
    if comparisons == [] then []
    else
      var o := InitStep(comparisons[0], hasRun);
      [o] + Outcomes(hasRun || o == SetUp, comparisons[1..])
  }

  /** The version check comes before the once-only guard: in any run of
      `init` calls, a call is rejected exactly when its Mongoose is older
      than 3.7, whatever came before it, and a call sets the layer up
      exactly when it is accepted and every earlier call was rejected. */
  lemma {:induction false} OldVersionAlwaysRejected(hasRun: bool, comparisons: seq<int>, i: nat)
    requires i < |comparisons|
    ensures Outcomes(hasRun, comparisons)[i] == Rejected <==> comparisons[i] == -1
    ensures Outcomes(hasRun, comparisons)[i] == SetUp <==>
      comparisons[i] != -1 && !hasRun && forall j :: 0 <= j < i ==> comparisons[j] == -1
    decreases i
  {
    if i > 0 {
      var o := InitStep(comparisons[0], hasRun);
      var rest := comparisons[1..];
      OldVersionAlwaysRejected(hasRun || o == SetUp, rest, i - 1);
      assert Outcomes(hasRun, comparisons)[i] == Outcomes(hasRun || o == SetUp, rest)[i - 1];
      assert forall j :: 1 <= j < i ==> comparisons[j] == rest[j - 1];
    }
  }

  /** The module state of src/index.js: `hasRun`, `cache` (also exposed as
      `init._cache`), and how many times it patched Query and Aggregate. */
  class Cachegoose {
    var hasRun: bool
    var cache: Cache?
    var queryPatches: nat
    var aggregatePatches: nat

    ghost predicate Valid()
      reads this
    {
      && (hasRun <==> cache != null)
      && queryPatches == (if hasRun then 1 else 0)
      && aggregatePatches == queryPatches
    }

    constructor ()
      ensures Valid() && !hasRun
    {
      hasRun, cache, queryPatches, aggregatePatches := false, null, 0, 0;
    }

    /** `init(mongoose, cacheOptions)`; `compareVersions` stands for the
        compare-versions package. */
    method Init(m: Mongoose, compareVersions: (string, string) -> int) returns (r: Result)
      requires Valid()
      modifies this
      ensures Valid()
      ensures var o := InitStep(compareVersions(m.version, "3.7"), old(hasRun));
        && (o == Rejected ==> r == Err(Thrown(Str(IncompatibleMessage))))
        && (o != Rejected ==> r == Ok(Undefined))
        && hasRun == (old(hasRun) || o == SetUp)
        && (o != SetUp ==> cache == old(cache) && queryPatches == old(queryPatches))
        && (o == SetUp ==> cache != null && fresh(cache) && fresh(cache.backend) && cache.backend.entries == map[])
    {
      if compareVersions(m.version, "3.7") == -1 {
        return Err(Thrown(Str(IncompatibleMessage)));
      }
      if hasRun {
        return Ok(Undefined);
      }
      hasRun := true;
      cache := new Cache();
      queryPatches := queryPatches + 1;
      aggregatePatches := aggregatePatches + 1;
      return Ok(Undefined);
    }

    /** `clearCache(customKey)`: no key (or an empty one) clears the whole
        store, a key deletes that entry; before `init` there is no cache to
        call into. */
    method ClearCache(customKey: string) returns (r: Result)
      requires Valid()
      modifies if cache != null then {cache.backend} else {}
      ensures cache == old(cache)
      ensures cache == null ==> r == Err(TypeError)
      ensures cache != null ==> r == Ok(Undefined)
      ensures cache != null && customKey == "" ==> cache.backend.entries == map[]
      ensures cache != null && customKey != "" ==> cache.backend.entries == old(cache.backend.entries) - {customKey}
    {
      if cache == null {
        return Err(TypeError);
      }
      if customKey == "" {
        cache.Clear();
      } else {
        cache.Del(customKey);
      }
      return Ok(Undefined);
    }
  }
}

/** lib/index.js: `init` with the string version guard of lib-src/. This
    generation has no `clearCache`; its cache wrapper only forwards to the
    store, so the store is used directly. */
module LibIndex {
  import opened Json
  import opened Store
  import opened Mongoose
  import SrcIndex
  import LibSrcIndex

  class Cachegoose {
    var hasRun: bool
    var cache: Backend?
    var queryPatches: nat
    var aggregatePatches: nat

    ghost predicate Valid()
      reads this
    {
      && (hasRun <==> cache != null)
      && queryPatches == (if hasRun then 1 else 0)
      && aggregatePatches == queryPatches
    }

    constructor ()
      ensures Valid() && !hasRun
    {
      hasRun, cache, queryPatches, aggregatePatches := false, null, 0, 0;
    }

    /** `init(mongoose, cacheOptions)`. */
    method Init(m: Mongoose) returns (r: Result)
      requires Valid()
      modifies this
      ensures Valid()
      ensures var o := SrcIndex.InitStep(if LibSrcIndex.StringRejected(m.version) then -1 else 0, old(hasRun));
        && (o == SrcIndex.Rejected ==> r == Err(Thrown(Str(SrcIndex.IncompatibleMessage))))
        && (o != SrcIndex.Rejected ==> r == Ok(Undefined))
        && hasRun == (old(hasRun) || o == SrcIndex.SetUp)
        && (o != SrcIndex.SetUp ==> cache == old(cache) && queryPatches == old(queryPatches))
        && (o == SrcIndex.SetUp ==> cache != null && fresh(cache) && cache.entries == map[])
    {
      if Below(m.version, "3.7") {
        return Err(Thrown(Str(SrcIndex.IncompatibleMessage)));
      }
      if hasRun {
        return Ok(Undefined);
      }
      hasRun := true;
      cache := new Backend();
      queryPatches := queryPatches + 1;
      aggregatePatches := aggregatePatches + 1;
      return Ok(Undefined);
    }
  }
}

/** lib-src/index.js: `init` with its version guard, and a `clearCache` that
    only deletes single keys. */
module LibSrcIndex {
  import opened Json
  import opened JsonText
  import opened Store
  import opened Mongoose
  import opened Versions
  import LibSrcCache
  import SrcIndex

  /** `mongoose.version < '3.7'`: JavaScript compares the two strings
      character by character. */
  predicate StringRejected(version: string) {
    Below(version, "3.7")
  }

  /** For a one-digit major version other than 3 the string guard decides
      by the major version alone, as intended. */
  lemma StringGuardOneDigitMajor(major: nat, tail: string)
    requires major < 10 && major != 3
    ensures StringRejected([DigitChar(major)] + tail) <==> major < 3
  {
    var v := [DigitChar(major)] + tail;
    assert v[0] == DigitChar(major) && "3.7"[0] == '3';
  }

  /** As written, the guard refuses Mongoose 10.0, which the numeric
      comparison accepts. */
  lemma StringGuardRejectsTen()
    ensures StringRejected("10.0")
    ensures !NumericRejected("10.0")
  {
    assert "10.0"[0] == '1' && "3.7"[0] == '3';
    NumericRejectedIff(10, 0, "");
    assert NatText(10) + "." + NatText(0) + "" == "10.0";
  }

  /** The module state of lib-src/index.js. */
  class Cachegoose {
    var hasRun: bool
    var cache: LibSrcCache.Cache?
    var queryPatches: nat
    var aggregatePatches: nat

    ghost predicate Valid()
      reads this
    {
      && (hasRun <==> cache != null)
      && queryPatches == (if hasRun then 1 else 0)
      && aggregatePatches == queryPatches
    }

    constructor ()
      ensures Valid() && !hasRun
    {
      hasRun, cache, queryPatches, aggregatePatches := false, null, 0, 0;
    }

    /** `init(mongoose, cacheOptions)`: the guard of src/ with the string
        comparison in place of compare-versions. */
    method Init(m: Mongoose) returns (r: Result)
      requires Valid()
      modifies this
      ensures Valid()
      ensures var o := SrcIndex.InitStep(if StringRejected(m.version) then -1 else 0, old(hasRun));
        && (o == SrcIndex.Rejected ==> r == Err(Thrown(Str(SrcIndex.IncompatibleMessage))))
        && (o != SrcIndex.Rejected ==> r == Ok(Undefined))
        && hasRun == (old(hasRun) || o == SrcIndex.SetUp)
        && (o != SrcIndex.SetUp ==> cache == old(cache) && queryPatches == old(queryPatches))
        && (o == SrcIndex.SetUp ==> cache != null && fresh(cache) && fresh(cache.backend) && cache.backend.entries == map[])
    {
      if Below(m.version, "3.7") {
        return Err(Thrown(Str(SrcIndex.IncompatibleMessage)));
      }
      if hasRun {
        return Ok(Undefined);
      }
      hasRun := true;
      cache := new LibSrcCache.Cache();
      queryPatches := queryPatches + 1;
      aggregatePatches := aggregatePatches + 1;
      return Ok(Undefined);
    }

    /** `clearCache(customKey)`: without a key it only calls back; with one
        it deletes that (prefixed) key. There is no way to empty the store. */
    method ClearCache(customKey: string) returns (r: Result)
      requires Valid()
      modifies if cache != null then {cache.backend} else {}
      ensures cache == old(cache)
      ensures customKey == "" ==> r == Ok(Undefined)
      ensures customKey == "" && cache != null ==> cache.backend.entries == old(cache.backend.entries)
      ensures customKey != "" && cache == null ==> r == Err(TypeError)
      ensures customKey != "" && cache != null ==>
        r == Ok(Undefined) && cache.backend.entries == old(cache.backend.entries) - {LibSrcCache.Prefixed(customKey)}
    {
      if customKey == "" {
        return Ok(Undefined);
      }
      if cache == null {
        return Err(TypeError);
      }
      cache.Del(customKey);
      return Ok(Undefined);
    }
  }
}

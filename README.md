# cachegoose in Dafny

cachegoose is a cache-aside layer for Mongoose. It patches
`Query.prototype.exec` and `Aggregate.prototype.exec`. A query or aggregate
marked with `.cache(ttl, customKey)` computes a key, either the custom key or
a hash of a canonical JSON description. It then looks that key up in a
Cacheman store:
- on a hit it returns the stored value, re-inflated into model documents for
  non-lean queries, or with its `_id`s re-typed for aggregates;
- on a miss it runs the original `exec` and stores the result under the key.

`init(mongoose)` sets the layer up once per process, behind a version guard.
`clearCache(key)` invalidates one entry or the whole store.

The repository ships three generations of this code, and the model keeps them
apart, one Dafny module per file:

| generation | files | modules |
|---|---|---|
| `src/` (current) | index, cache, extend-query, extend-aggregate, recover-objectid | `SrcIndex`, `SrcCache`, `SrcQuery`, `SrcAggregate`, `RecoverObjectId` |
| `lib-src/` | index, cache, extend-query, extend-aggregate, generate-key | `LibSrcIndex`, `LibSrcCache`, `LibSrcQuery`, `LibSrcAggregate`, `GenerateKey` |
| `lib/` (oldest) | index, extend-query, extend-aggregate | `LibIndex`, `LibQuery`, `LibAggregate` |

The supporting modules:
- `Json` holds JavaScript values: undefined, null, booleans, integers,
  strings, arrays, objects with ordered properties, and RegExps.
- `Canonical` models `jsosort`, which sorts object keys recursively.
- `JsonText` models `JSON.stringify`, with and without the RegExp replacer of
  generate-key. `View` is the JSON data a value denotes, and `Encode` is its
  text.
- `JsonDecode` is a decoder for that text. It proves `Encode` injective, so
  two values stringify alike exactly when they denote the same data.
- `Store` is the Cacheman backend, a map from key to (value, TTL).
- `Mongoose` holds the host:
  - the query state that `getCacheKey` reads;
  - the original `exec`s, as functions of the query or pipeline;
  - `mongoose.model(name)` with `inflate`, the constructor and `$__reset`;
  - `Types.ObjectId`.
- `Versions` is the numeric major.minor comparison that compare-versions
  performs.

Each patched `exec` is written twice:
- as a pure function `ExecSpec`, giving the result, the new store and
  whether the original `exec` ran;
- as a `method Exec` over the cache object, whose `ensures` ties its result
  and the new store to `ExecSpec` of the old state.

The lemmas state the cache-aside laws against `ExecSpec`:
- an uncached query delegates;
- a hit short-circuits;
- a miss runs and stores;
- errors are never cached;
- a second identical call hits.

The index modules are classes holding the module-level state (`hasRun`,
`cache`, the patches made). The set-up-once law is proved about the pure step
function `InitStep` that `Init` follows.

The hash (`sha1`), `compareVersions` and the Mongoose collaborators are
parameters. Nothing is assumed of them beyond what the code uses.

What the code does, generation by generation, where it is easy to misread:
- src/cache.js stores keys unprefixed. Only lib-src/cache.js:2 adds the
  `cachegoose:` prefix.
- A TTL of 0 is stored with TTL -1 (src/cache.js:16). Only a null TTL writes
  nothing (src/cache.js:15).
- ObjectIds are recovered only on aggregate hits. Query hits are inflated
  through the model instead.
- src/index.js has no debug flag. lib-src/index.js:13-14 wires the patches
  without one, so `_fromCache` is never set there (`LibSrcQuery.Debug`).

## Model

| member | source | states |
|---|---|---|
| Json.Lookup | lib-src/extend-query.js:19 | a property read gives the first property of that name, and undefined when there is none |
| Json.Put | src/recover-objectid.js:23 | setting a property on an object changes that property and no other; on a non-object it changes nothing |
| Json.BelowTotal | lib-src/index.js:7 | the JavaScript `<` on strings is a total order: of two different strings one is below the other |
| Json.BelowTransitive | lib-src/index.js:7 | the string order is transitive |
| Json.BelowIrreflexive | lib-src/index.js:7 | no string is below itself |
| Canonical.SortPropsSorted | lib-src/generate-key.js:7 | sorting an object's properties yields them sorted by name |
| Canonical.SortProps | lib-src/generate-key.js:7 | sorting keeps exactly the same properties (a permutation) |
| Canonical.CanonIsCanonical | lib-src/generate-key.js:7 | the sorted form is sorted at every depth and still well formed |
| Canonical.CanonIdempotent | lib-src/generate-key.js:7 | sorting twice is sorting once |
| Canonical.CanonKeepsProperties | lib-src/generate-key.js:7 | sorting an object keeps its property names and each property's value up to sorting |
| Canonical.CanonOrderIndependent | lib-src/generate-key.js:7 | two values equal up to the order of object properties sort to the same value |
| JsonText.RegexText | lib-src/generate-key.js:9 | `String(regex)` is `/source/flags` |
| JsonText.RegexTextInjective | lib-src/generate-key.js:9 | different RegExps have different texts |
| JsonText.RegexWithoutReplacer | lib/extend-query.js:63-73 | without the replacer every RegExp stringifies to `{}` |
| JsonText.StringifyDefined | lib-src/generate-key.js:8-10 | `JSON.stringify` gives a text for every value except undefined |
| JsonText.UndefinedPropVanishes | lib-src/generate-key.js:8-10 | a property whose value is undefined is left out of the JSON text |
| JsonText.MemberLookupViewProps | lib-src/generate-key.js:8-10 | the JSON text of an object holds under each name the text of that property's value |
| JsonDecode.DecodeOfEncode | lib-src/generate-key.js:8-10 | decoding the JSON text of any data gives that data back |
| JsonDecode.EncodeInjective | lib-src/generate-key.js:8-10 | different JSON data have different texts |
| JsonDecode.StringifySameIff | lib-src/generate-key.js:8-10 | two values stringify to the same text exactly when they denote the same JSON data |
| GenerateKey.KeyText | lib-src/generate-key.js:6-10 | the text that is hashed exists for every value but undefined |
| GenerateKey.GenerateKey | lib-src/generate-key.js:6-13 | a key exists for every value but undefined (it is the hash of the text) |
| GenerateKey.KeyOrderIndependent | lib-src/generate-key.js:7-12 | values equal up to key order get the same key text and the same key |
| GenerateKey.KeyTextSameIff | lib-src/generate-key.js:7-10 | two values have the same key text exactly when their sorted forms denote the same data, RegExps as text |
| GenerateKey.KeyTextSeparates | lib-src/generate-key.js:7-10 | objects with the same key text agree, property by property, in what the key sees |
| GenerateKey.KeyTextAgrees | lib-src/generate-key.js:7-10 | objects with the same names that agree property by property have the same key text |
| GenerateKey.DistinctKeysUnlessCollision | lib-src/generate-key.js:7-12 | objects differing in one property get different texts, and different keys under any collision-free hash |
| GenerateKey.RegexesSeenApart | lib-src/generate-key.js:9 | different RegExps are seen apart by the key |
| GenerateKey.RegexSeenAsItsText | lib-src/generate-key.js:9 | the key sees a RegExp exactly as the string of its text |
| Store.Read | src/cache.js:10-12 | a lookup gives the stored value, and undefined for a missing key |
| Store.Backend.Get | src/cache.js:10-12 | get returns what is stored under the key |
| Store.Backend.Set | src/cache.js:17 | set stores the value with its TTL under the key and changes nothing else |
| Store.Backend.Del | src/cache.js:20-22 | del removes that key only |
| Store.Backend.Clear | src/cache.js:24-26 | clear empties the store |
| SrcCache.StoredTtl | src/cache.js:14-18 | a null TTL writes nothing, 0 becomes -1, any other TTL is kept |
| SrcCache.Cache.Get | src/cache.js:10-12 | get reads the key unprefixed |
| SrcCache.Cache.Set | src/cache.js:14-18 | set updates the store as `StoredTtl` says |
| SrcCache.Cache.Del | src/cache.js:20-22 | del removes exactly that key |
| SrcCache.Cache.Clear | src/cache.js:24-26 | clear empties the store |
| SrcCache.ReadAfterSet | src/cache.js:14-18 | after a set with a non-null TTL the key reads back the value, and other keys are unchanged |
| SrcCache.SetNullWritesNothing | src/cache.js:15 | a set with a null TTL leaves the store as it was |
| SrcCache.SetZeroStoresMinusOne | src/cache.js:16 | a set with TTL 0 stores the value with TTL -1 |
| SrcCache.ReadAfterDel | src/cache.js:20-22 | after del the key reads undefined, and other keys are unchanged |
| LibSrcCache.Prefixed | lib-src/cache.js:2 | a store key is `cachegoose:` followed by the key |
| LibSrcCache.PrefixedInjective | lib-src/cache.js:2 | different keys have different prefixed store keys |
| LibSrcCache.Cache.Get | lib-src/cache.js:10-12 | get reads the prefixed key |
| LibSrcCache.Cache.Set | lib-src/cache.js:14-16 | set stores under the prefixed key with the TTL unchanged |
| LibSrcCache.Cache.Del | lib-src/cache.js:18-20 | del removes the prefixed key only |
| LibSrcCache.Cache.Clear | lib-src/cache.js:22-24 | clear empties the whole store |
| LibSrcCache.ReadAfterSet | lib-src/cache.js:14-16 | after a set the key reads back the value, and other keys are unchanged |
| LibSrcCache.ReadAfterDel | lib-src/cache.js:18-20 | after del the key reads undefined, and other keys are unchanged |
| RecoverObjectId.RecoverOne | src/recover-objectid.js:17-24 | a null or undefined document is a TypeError; one without a truthy `_id` comes back unchanged; otherwise recovery succeeds exactly when `ObjectId(_id)` does, giving the document with `_id` replaced and every other field kept, and its error is passed on when it throws |
| RecoverObjectId.RecoverItems | src/recover-objectid.js:8-14 | recovering a list gives a list of the same length |
| RecoverObjectId.Recover | src/recover-objectid.js:3-15 | the loop computes what the dispatcher specifies: an array element by element, anything else once |
| RecoverObjectId.RecoverItemsAt | src/recover-objectid.js:10-12 | element i of a recovered list is element i of the input, recovered |
| RecoverObjectId.RecoverItemsError | src/recover-objectid.js:10-12 | the first document that fails makes the whole list fail with its error |
| RecoverObjectId.RecoverItemsAllOk | src/recover-objectid.js:10-12 | a list whose documents all recover is recovered |
| SrcQuery.NormaliseCacheArgs | src/extend-query.js:59-66 | a string TTL is the custom key, with TTL 60; an absent TTL is 60; otherwise both are kept |
| SrcQuery.Cache | src/extend-query.js:59-68 | `cache()` records the normalised TTL and key, leaves the query unchanged and returns it |
| SrcQuery.CacheKey | src/extend-query.js:70-85 | the key is the hash of the key text of the ten-property descriptor |
| SrcQuery.SelectKey | src/extend-query.js:18 | a non-empty custom key wins over the generated key |
| SrcQuery.InflateModel | src/extend-query.js:88-99 | the model's `inflate` when it has one; otherwise the constructed, reset document with `isNew` false |
| SrcQuery.InflateAll | src/extend-query.js:32-37 | an array hit is inflated element by element, anything else once |
| SrcQuery.Exec | src/extend-query.js:8-57 | the patched `exec` returns, stores and leaves the query as `ExecSpec` says |
| SrcQuery.UncachedDelegates | src/extend-query.js:9 | without `_ttl` the original `exec` runs with the caller's argument and the store is untouched |
| SrcQuery.HitShortCircuits | src/extend-query.js:26-41 | a hit (neither undefined nor null) does not run the query and leaves the store; a count hit and a lean hit are returned as stored, any other hit inflated through the model |
| SrcQuery.EmptyArrayAndZeroAreHits | src/extend-query.js:26-41 | a stored `[]` or `0` is served without running the query and leaves the store; `[]` comes back as an empty array and a count hit on `0` as 0 |
| SrcQuery.ArrayHitInflated | src/extend-query.js:32-37 | a non-lean array hit is inflated element by element |
| SrcQuery.MissRunsAndStores | src/extend-query.js:43-50 | a miss runs the original `exec` and, on success, stores its result under the key with the TTL |
| SrcQuery.ErrorsNeverCached | src/extend-query.js:51-54 | an `exec` that fails leaves the store as it was |
| SrcQuery.SecondCallHits | src/extend-query.js:26-49 | after a successful miss, the same query is served from the store without running |
| SrcQuery.InvalidatedKeyMisses | test/index.js:279-291 | once its custom key is deleted, a query runs again |
| SrcQuery.CustomKeyWins | src/extend-query.js:18-49 | once a query stored a result under a custom key, any other query run with that key is answered from that entry without running |
| SrcQuery.CacheKeyTextSameIff | src/extend-query.js:70-84 | two queries have the same key text exactly when they agree, field by field, on the ten descriptor fields as the key sees them |
| SrcQuery.DistinctQueriesDistinctKeys | src/extend-query.js:70-84 | queries differing in what the key sees of a field get different texts, and different keys under any collision-free hash |
| SrcQuery.LeanSeparatesKeys | test/index.js:133-147 | lean and non-lean versions of a query get different keys |
| SrcQuery.SkipAndLimitSeparateKeys | test/index.js:149-183 | queries differing only in skip, or only in limit, get different keys |
| SrcQuery.CountAndFindApart | test/index.js:293-302 | a count and a find over the same query are cached apart |
| SrcQuery.SortSeparatesKeys | src/extend-query.js:76 | queries differing only in sort get different keys |
| SrcQuery.ConditionOrderIrrelevant | test/index.js:346-353 | conditions written in another property order give the same key |
| SrcQuery.RegexConditionsSeparateKeys | test/index.js:337-343 | `$regex` filters with different patterns get different keys |
| SrcAggregate.Extensions | src/extend-aggregate.js:10-19 | counts how many calls of the wrapper patch the prototype |
| SrcAggregate.ExtendedAtMostOnce | src/extend-aggregate.js:13-16 | over any run of `Model.aggregate` calls the prototype is patched at most once, never once the flag is set |
| SrcAggregate.ExtendedOnceAggregateSeen | src/extend-aggregate.js:13-16 | a run that returns an Aggregate patches the prototype exactly once |
| SrcAggregate.AggregateHook.ModelAggregate | src/extend-aggregate.js:10-19 | the wrapper returns what the original returned and sets the flag when it sees an Aggregate |
| SrcAggregate.Cache | src/extend-aggregate.js:55-64 | `cache()` on an aggregate normalises like a query's and keeps the pipeline |
| SrcAggregate.CacheKey | src/extend-aggregate.js:66-68 | the key is the hash of the pipeline's key text |
| SrcAggregate.SelectKey | src/extend-aggregate.js:27 | a non-empty custom key wins over the generated key |
| SrcAggregate.StageOrderIrrelevant | src/extend-aggregate.js:66-68 | pipelines equal up to property order share a key |
| SrcAggregate.PipelineKeyTextSameIff | src/extend-aggregate.js:66-68 | two pipelines have the same key text exactly when the key sees them alike |
| SrcAggregate.Exec | src/extend-aggregate.js:24-53 | the patched `exec` returns and stores as `ExecSpec` says |
| SrcAggregate.UncachedDelegates | src/extend-aggregate.js:25 | without `_ttl` the original `exec` runs and the store is untouched |
| SrcAggregate.HitRecovers | src/extend-aggregate.js:32-37 | an array hit returns the documents in order, each with its `_id` re-typed, without running |
| SrcAggregate.NullDocumentFails | src/recover-objectid.js:18 | a cached array holding a null document makes `exec` fail with a TypeError |
| SrcAggregate.MissRunsAndStores | src/extend-aggregate.js:39-46 | a miss runs the original `exec` and stores its result |
| SrcAggregate.ErrorsNeverCached | src/extend-aggregate.js:47-50 | a failing `exec` leaves the store as it was |
| SrcAggregate.SecondCallHits | src/extend-aggregate.js:32-46 | after a successful miss the same aggregate is served from the store |
| SrcIndex.InitStep | src/index.js:8-17 | `init` throws exactly when the version compares below 3.7, and sets up exactly when it does not and has not run |
| SrcIndex.SetUpAtMostOnce | src/index.js:10-11 | over any run of `init` calls the layer is set up at most once, never after it has run |
| SrcIndex.OldVersionAlwaysRejected | src/index.js:9-11 | in any run of `init` calls, a call is refused exactly when its Mongoose is older than 3.7, whatever came before, and sets up exactly when it is accepted and every earlier call was refused |
| SrcIndex.Cachegoose.Init | src/index.js:8-17 | `init` follows `InitStep`: it throws, returns, or creates an empty cache and patches once |
| SrcIndex.Cachegoose.ClearCache | src/index.js:19-25 | no key clears the whole store, a key deletes that key, and before `init` it fails |
| LibSrcQuery.CacheKey | lib-src/extend-query.js:73-87 | the key is the hash of the nine-property descriptor, without sort |
| LibSrcQuery.SelectKey | lib-src/extend-query.js:16 | a non-empty custom key wins over the generated key |
| LibSrcQuery.CacheKeyTextSameIff | lib-src/extend-query.js:73-87 | two queries have the same key text exactly when they agree, field by field, on the nine descriptor fields |
| LibSrcQuery.SortIgnored | lib-src/extend-query.js:74-84 | the same query sorted two ways shares one key |
| LibSrcQuery.Mark | lib-src/extend-query.js:41 | setting `_fromCache` marks objects, arrays and RegExps when debugging; a primitive is left as it is |
| LibSrcQuery.Cache | lib-src/extend-query.js:62-71 | `cache()` records the same normalised TTL and key as src |
| LibSrcQuery.Exec | lib-src/extend-query.js:6-60 | the patched `exec` returns, marks and stores as `ExecSpec` says, under the prefixed key |
| LibSrcQuery.FalsyIsMiss | lib-src/extend-query.js:26-57 | every falsy stored value (undefined, null, 0, empty string, false) is a miss: the query runs without arguments, a result replaces the prefixed entry with the TTL as given, an error leaves the store |
| LibSrcQuery.CountHit | lib-src/extend-query.js:27-32 | a count hit returns the stored count, or `{count, _fromCache: true}` when debugging |
| LibSrcQuery.WiredWithoutMarks | lib-src/index.js:13-14 | as `init` wires it, no result is ever marked and a count hit is the raw count |
| LibSrcQuery.ErrorsNeverCached | lib-src/extend-query.js:54-57 | a failing `exec` leaves the store as it was |
| LibSrcQuery.SecondCallHits | lib-src/extend-query.js:26-52 | after a miss stored a truthy result, the same query is served from the store |
| LibSrcAggregate.Exec | lib-src/extend-aggregate.js:22-51 | the patched `exec` returns and stores as `ExecSpec` says |
| LibSrcAggregate.Cache | lib-src/extend-aggregate.js:58-67 | `cache()` normalises like a query's and keeps the pipeline |
| LibSrcAggregate.HitReturnsStored | lib-src/extend-aggregate.js:32-36 | a truthy hit returns the stored value itself, without running |
| LibSrcAggregate.FalsyIsMiss | lib-src/extend-aggregate.js:31-49 | every falsy stored value is a miss: the aggregate runs without arguments, a result replaces the prefixed entry with the TTL as given, an error leaves the store |
| LibSrcAggregate.ErrorsNeverCached | lib-src/extend-aggregate.js:46-49 | a failing `exec` leaves the store as it was |
| LibSrcAggregate.SecondCallHits | lib-src/extend-aggregate.js:32-45 | after a truthy result is stored, the same aggregate hits |
| LibSrcIndex.StringGuardOneDigitMajor | lib-src/index.js:7 | for a one-digit major version other than 3, the string guard rejects exactly the majors below 3 |
| LibSrcIndex.StringGuardRejectsTen | lib-src/index.js:7 | the string guard rejects "10.0", which the numeric guard accepts |
| LibSrcIndex.Cachegoose.Init | lib-src/index.js:6-15 | `init` follows `InitStep` with the string guard |
| LibSrcIndex.Cachegoose.ClearCache | lib-src/index.js:17-20 | no key is a no-op; a key deletes its prefixed entry; before `init` it fails |
| LibQuery.CacheKey | lib/extend-query.js:62-74 | the key is the plain JSON text of the nine-property object, unhashed and unsorted |
| LibQuery.CacheKeySameIff | lib/extend-query.js:62-74 | two queries share a key exactly when their key objects denote the same JSON data |
| LibQuery.ConditionsSeparateKeys | lib/extend-query.js:69 | queries whose conditions denote different data get different keys |
| LibQuery.SameConditionsSameKey | lib/extend-query.js:69 | queries differing only in conditions that denote the same data share a key |
| LibQuery.KeyDependsOnOrder | lib/extend-query.js:62-74 | the same two conditions in the other order give a different key |
| LibQuery.RegexConditionsConflated | lib/extend-query.js:62-74 | filters on two different RegExps share a key |
| LibQuery.MarkStrict | lib/extend-query.js:37 | setting `_fromCache` succeeds exactly on objects, arrays and RegExps; on a primitive it throws |
| LibQuery.Exec | lib/extend-query.js:6-50 | the patched `exec` returns, marks and stores as `ExecSpec` says |
| LibQuery.Cache | lib/extend-query.js:52-60 | `cache(false)` deletes the query's entry; any other TTL sets `_ttl` to it, or 60 when falsy |
| LibQuery.UncachedDelegates | lib/extend-query.js:7 | a query without a truthy `_ttl` runs the original `exec` |
| LibQuery.CacheTurnsCachingOn | lib/extend-query.js:7-40 | after `cache(t)` with `t` not false, `exec` applies its operation, looks the derived key up and runs the query exactly when the stored value is falsy |
| LibQuery.MissRunsAndStores | lib/extend-query.js:28-45 | a miss runs the query without arguments, a result is stored under the derived key with `_ttl`, an error leaves the store |
| LibQuery.EvictedIsRefetched | lib/extend-query.js:53-54 | after `cache(false)` evicted the entry, the next cached run executes |
| LibQuery.PrimitiveHitThrows | lib/extend-query.js:37 | a lean count hit is a number, and marking it throws |
| LibQuery.CountHitInflated | lib/extend-query.js:29-37 | a non-lean count hit is inflated into a model and marked |
| LibQuery.ErrorsNeverCached | lib/extend-query.js:40-41 | a failing `exec` leaves the store as it was |
| LibQuery.SecondCallHits | lib/extend-query.js:29-45 | after a miss stored a truthy result, the same query hits |
| LibAggregate.CacheKey | lib/extend-aggregate.js:58-60 | the key is the JSON text of the pipeline |
| LibAggregate.CacheKeySameIff | lib/extend-aggregate.js:58-60 | two pipelines share a key exactly when they denote the same JSON data |
| LibAggregate.Exec | lib/extend-aggregate.js:22-46 | the patched `exec` returns, marks and stores as `ExecSpec` says |
| LibAggregate.Cache | lib/extend-aggregate.js:48-56 | `cache(false)` deletes the pipeline's entry; any other TTL sets `_ttl` to it, or 60 when falsy |
| LibAggregate.MissRunsAndStores | lib/extend-aggregate.js:31-41 | a miss runs the aggregate without arguments, a result is stored under the pipeline key with `_ttl` as read, an error leaves the store |
| LibAggregate.UncachedAggregateIsStored | lib/extend-aggregate.js:22-41 | with no gate, an aggregate without `cache()` is still run and stored |
| LibAggregate.PrimitiveHitThrows | lib/extend-aggregate.js:33 | a truthy primitive hit makes `exec` throw |
| LibAggregate.ErrorsNeverCached | lib/extend-aggregate.js:36-37 | a failing `exec` leaves the store as it was |
| LibAggregate.SecondCallHits | lib/extend-aggregate.js:32-41 | after a miss stored an object or array, the same pipeline hits |
| LibIndex.Cachegoose.Init | lib/index.js:7-16 | `init` follows `InitStep` with the string guard |
| Versions.CompareParsed | src/index.js:9 | the comparison is -1 exactly when the first version is older, major first, and 0 exactly when equal |
| Versions.ParseVersionText | src/index.js:9 | `major.minor` text parses back to its two numbers |
| Versions.NumericRejectedIff | src/index.js:9 | the numeric guard rejects exactly the versions below 3.7 |

## Left out

- TTL expiry: there is no clock. An entry stays until it is deleted, and its TTL is only recorded.
- Cacheman backends (memory, redis, mongo, file), their options and the serialisation of values: the store is one map, and a fresh store is empty.
- Backend errors: `cache.get`'s error argument is ignored by the code, and a store that fails is not modelled.
- Callbacks and promises: each `exec` is one call that returns a `Result`. On the paths where the store answers normally, the callback and the resolve/reject pair carry that same value.
- Exceptions inside the store callback: two kinds of hit throw inside the `cache.get` callback, and the model writes each as an `Err` result.
  - The strict-mode `_fromCache` assignment on a primitive, at lib/extend-query.js:37 and lib/extend-aggregate.js:33 (`LibQuery.PrimitiveHitThrows`, `LibAggregate.PrimitiveHitThrows`).
  - `recoverObjectId` on a null document or a throwing `ObjectId`, at src/extend-aggregate.js:32-33 (`SrcAggregate.NullDocumentFails`, `RecoverObjectId.RecoverOne`).
  - In the source the `exec` callback is then never called. In lib/ the promise is never settled. In src/ the promise is rejected only when the store calls back synchronously, inside the promise executor. Otherwise the exception is uncaught and the promise stays pending. The model does not capture this difference between a thrown exception and a rejected `exec`.
- Concurrency: overlapping misses on one key are not modelled.
- Floating point: numbers are integers.
- JavaScript's ordering of integer-like property names before other names is not modelled. Property order is as the value lists it.
- Strings are compared by code point. JavaScript compares UTF-16 code units, which differs only outside the Basic Multilingual Plane.
- `toJSON` on values such as Dates: the value kinds are those of `Json.Value`.
- Documents are values. `recoverObjectId`, `$__reset` and the `_fromCache` assignment mutate objects in place, and the model returns the changed copy. Aliasing between the stored value and the returned one is not modelled.
- sha1, jsosort and compare-versions are library code. The hash is a parameter. The sort is modelled by its documented effect (`Canonical.Canon`). compare-versions is a parameter of `SrcIndex.Cachegoose.Init`, and `Versions` gives the numeric comparison it stands for.
- `GenerateKey.GenerateKey`: the hash of `undefined` is modelled as no key. Descriptors are objects, so it never arises in the layer.
- Custom keys are strings. A non-string custom key is not modelled.
- cacheOptions are passed through to Cacheman and are not modelled.
- `mongoose.Promise`, `Promise.ES6` and `promise.onResolve` are left out. They are only plumbing for the result.
- The statements at lib-src/extend-aggregate.js:53-55 follow a `return` and never run. They are left out.
- lib/cache.js delegates each call to Cacheman unchanged. The lib modules use `Store.Backend` directly.
- The `lib/` `init` has no `clearCache`, so there is nothing to model for it.
- `Versions.NumericRejected`: a version string that does not start with `digits.digits` is treated as rejected. compare-versions' handling of such strings (it throws) is not modelled.
- The arguments of `exec` are reduced to three kinds (`Mongoose.ExecArg`): none, an operation name, or a callback.

## Findings

| source | as written | input that shows it | evidently intended | confidence | as-written member | corrected member |
|---|---|---|---|---|---|---|
| lib-src/index.js:7 | `mongoose.version < '3.7'` compares the version strings character by character | Mongoose version "10.0" is below "3.7" as a string and is refused | refuse only versions numerically below 3.7, as src/index.js:9 does with compare-versions | not executed | LibSrcIndex.StringGuardRejectsTen | Versions.NumericRejectedIff |
| lib/index.js:8 | the same string comparison as lib-src/index.js:7 | "10.0" is refused | the numeric comparison | not executed | LibSrcIndex.StringGuardRejectsTen | Versions.NumericRejectedIff |

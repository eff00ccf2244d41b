/** The parts of Mongoose the caching layer touches, as abstract
    collaborators: the original `exec` of queries and aggregates, model
    lookup with its `inflate`, and ObjectId construction. A query and an
    aggregate are objects whose fields the layer reads and assigns. */
module Mongoose {
  import opened Json

  /** An exception: a value thrown by Mongoose or the store, or a TypeError
      raised by the layer itself (reading a property of null, assigning a
      property on a primitive in strict code, calling into a cache that was
      never created). */
  datatype Error = Thrown(reason: Value) | TypeError

  /** How a call ends: with a value (a resolved promise, a normal return) or
      with an error (a rejection, a throw). */
  datatype Result = Ok(value: Value) | Err(error: Error)

  /** The first argument of a query's `exec`: absent (or neither a string nor
      a function), an operation name, or a callback. */
  datatype ExecArg = NoArg | OpName(name: string) | Callback

  /** What `mongoose.model(name)` returns, as far as inflating a cached
      document goes: whether it has an `inflate` method, that method, the
      constructor called as a function, and `$__reset` on a new model. */
  datatype Constructor = Constructor(
    hasInflate: bool,
    inflate: Value -> Value,
    construct: Value -> Value,
    reset: Value -> Value)

  /** The fields of a query that `exec` and `getCacheKey` read:
      `model.modelName`, `op`, `options.skip`, `options.limit`,
      `options.sort`, `_mongooseOptions`, `_conditions`, `_fields`, `_path`
      and `_distinct`. */
  datatype QueryState = QueryState(
    modelName: string,
    op: Value,
    skip: Value,
    limit: Value,
    sort: Value,
    mongooseOptions: seq<Prop>,
    conditions: Value,
    fields: Value,
    path: Value,
    distinct: Value)

  datatype Mongoose = Mongoose(
    version: string,
    model: string -> Constructor,
    objectId: Value -> Result,
    queryExec: (QueryState, ExecArg) -> Result,
    aggregateExec: (seq<Value>, ExecArg) -> Result)

  /** `isLean`: the `lean` option read from `_mongooseOptions`. */
  predicate IsLean(s: QueryState) {
    Truthy(Lookup(s.mongooseOptions, "lean"))
  }

  /** `isCount`: `this.op === 'count'`. */
  predicate IsCount(s: QueryState) {
    s.op == Str("count")
  }

  /** A Mongoose Query, with the two properties the caching layer adds:
      `_ttl`, present only once `cache()` has run on this query, and `_key`. */
  class Query {
    var modelName: string
    var op: Value
    var skip: Value
    var limit: Value
    var sort: Value
    var mongooseOptions: seq<Prop>
    var conditions: Value
    var fields: Value
    var path: Value
    var distinct: Value
    /** The query's own `_ttl` property; None while it has none. */
    var ttl: Option<Value>
    /** `_key`; the empty string while unset, which is just as falsy. */
    var key: string

    function State(): QueryState
      reads this
    {
      QueryState(modelName, op, skip, limit, sort, mongooseOptions, conditions, fields, path, distinct)
    }

    constructor (s: QueryState)
      ensures State() == s && ttl == None && key == ""
    {
      modelName, op, skip, limit, sort := s.modelName, s.op, s.skip, s.limit, s.sort;
      mongooseOptions, conditions, fields, path, distinct := s.mongooseOptions, s.conditions, s.fields, s.path, s.distinct;
      ttl, key := None, "";
    }
  }

  /** A Mongoose Aggregate: its `_pipeline` and the caching properties. */
  class Aggregate {
    var pipeline: seq<Value>
    var ttl: Option<Value>
    var key: string

    constructor (stages: seq<Value>)
      ensures pipeline == stages && ttl == None && key == ""
    {
      pipeline, ttl, key := stages, None, "";
    }
  }

  /** The `_ttl` value as read: undefined while the object has none. */
  function TtlValue(ttl: Option<Value>): Value {
    match ttl
    case Some(t) => t
    case None => Undefined
  }
}

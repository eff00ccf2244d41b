/** src/recover-objectid.js: cached aggregate results come back with plain
    `_id`s, which are re-typed through `mongoose.Types.ObjectId`. */
module RecoverObjectId {
  import opened Json
  import opened Mongoose

  /** `recoverObjectId(mongoose, doc)`: reading `_id` of null or undefined is
      a TypeError; a falsy `_id` leaves the document as it is; a truthy one
      is replaced by `ObjectId(_id)`, which may throw. */
  function RecoverOne(m: Mongoose, doc: Value): (r: Result)
    ensures Nullish(doc) ==> r == Err(TypeError)
    ensures !Nullish(doc) && !Truthy(Get(doc, "_id")) ==> r == Ok(doc)
    ensures !Nullish(doc) && Truthy(Get(doc, "_id")) && r.Ok? ==>
      && m.objectId(Get(doc, "_id")) == Ok(Get(r.value, "_id"))
      && (forall n :: n != "_id" ==> Get(r.value, n) == Get(doc, n))
      && r.value.Obj?
    ensures !Nullish(doc) && Truthy(Get(doc, "_id")) ==> (r.Ok? <==> m.objectId(Get(doc, "_id")).Ok?)
    ensures !Nullish(doc) && Truthy(Get(doc, "_id")) && m.objectId(Get(doc, "_id")).Err? ==>
      r == Err(m.objectId(Get(doc, "_id")).error)
  {
    if Nullish(doc) then Err(TypeError)
    else if !Truthy(Get(doc, "_id")) then Ok(doc)
    else
      match m.objectId(Get(doc, "_id"))
      case Ok(id) => Ok(Put(doc, "_id", id))
      case Err(e) => Err(e)
  }

  /** The documents of an array recovered one after the other; the first
      document that throws ends the loop with its error. */
  function RecoverItems(m: Mongoose, docs: seq<Value>): (r: Result)
    ensures r.Ok? ==> r.value.Arr? && |r.value.items| == |docs|
    decreases |docs|
  {
    if docs == [] then Ok(Arr([]))
    else
      match RecoverItems(m, docs[..|docs| - 1])
      case Err(e) => Err(e)
      case Ok(done) =>
        match RecoverOne(m, docs[|docs| - 1])
        case Err(e) => Err(e)
        case Ok(d) => Ok(Arr(done.items + [d]))
  }

  /** The exported function: an array is recovered element by element into a
      new array, anything else as a single document. */
  function RecoverAll(m: Mongoose, cached: Value): Result {
    if cached.Arr? then RecoverItems(m, cached.items) else RecoverOne(m, cached)
  }

  method Recover(m: Mongoose, cached: Value) returns (r: Result)
    ensures r == RecoverAll(m, cached)
  {
    if !cached.Arr? {
      return RecoverOne(m, cached);
    }
    var docs := cached.items;
    var recovered: seq<Value> := [];
    for i := 0 to |docs|
      invariant RecoverItems(m, docs[..i]) == Ok(Arr(recovered))
    {
      var one := RecoverOne(m, docs[i]);
      assert docs[..i + 1][..i] == docs[..i];
      if one.Err? {
        RecoverItemsStops(m, docs, i + 1);
        return one;
      }
      recovered := recovered + [one.value];
    }
    assert docs[..|docs|] == docs;
    return Ok(Arr(recovered));
  }

  /** A successful recovery keeps length and order: element `i` of the
      result is the recovery of element `i` of the input. */
  lemma {:induction false} RecoverItemsAt(m: Mongoose, docs: seq<Value>, i: nat)
    requires RecoverItems(m, docs).Ok? && i < |docs|
    ensures RecoverOne(m, docs[i]).Ok?
    ensures RecoverItems(m, docs).value.items[i] == RecoverOne(m, docs[i]).value
    decreases |docs|
  {
    var front := docs[..|docs| - 1];
    if i < |docs| - 1 {
      RecoverItemsAt(m, front, i);
      assert front[i] == docs[i];
    }
  }

  /** Once a prefix of the array has failed, the rest is never looked at. */
  lemma {:induction false} RecoverItemsStops(m: Mongoose, docs: seq<Value>, k: nat)
    requires k <= |docs| && RecoverItems(m, docs[..k]).Err?
    ensures RecoverItems(m, docs) == RecoverItems(m, docs[..k])
    decreases |docs| - k
  {
    if k < |docs| {
      var front := docs[..|docs| - 1];
      assert front[..k] == docs[..k];
      RecoverItemsStops(m, front, k);
    } else {
      assert docs[..k] == docs;
    }
  }

  /** Recovery fails exactly when some document throws, and then with the
      error of the first one that does. */
  lemma RecoverItemsError(m: Mongoose, docs: seq<Value>, i: nat)
    requires i < |docs| && RecoverOne(m, docs[i]).Err?
    requires forall j :: 0 <= j < i ==> RecoverOne(m, docs[j]).Ok?
    ensures RecoverItems(m, docs) == RecoverOne(m, docs[i])
  {
    var front := docs[..i];
    assert forall j :: 0 <= j < |front| ==> front[j] == docs[j];
    RecoverItemsAllOk(m, front);
    assert docs[..i + 1][..i] == front;
    RecoverItemsStops(m, docs, i + 1);
  }

  /** When no document throws, neither does the array. */
  lemma {:induction false} RecoverItemsAllOk(m: Mongoose, docs: seq<Value>)
    requires forall j :: 0 <= j < |docs| ==> RecoverOne(m, docs[j]).Ok?
    ensures RecoverItems(m, docs).Ok?
    decreases |docs|
  {
    if docs != [] {
      var front := docs[..|docs| - 1];
      assert forall j :: 0 <= j < |front| ==> front[j] == docs[j];
      RecoverItemsAllOk(m, front);
    }
  }
}

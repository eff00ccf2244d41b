/** JavaScript values as the caching layer sees them: query descriptors,
    cached results and documents are all trees of these. */
module Json {

  datatype Option<T> = None | Some(value: T)

  /** A JavaScript value. Numbers are integers only; a RegExp keeps its
      `source` and `flags` strings. */
  datatype Value =
    | Undefined
    | Null
    | Bool(b: bool)
    | Num(n: int)
    | Str(s: string)
    | Regex(source: string, flags: string)
    | Arr(items: seq<Value>)
    | Obj(props: seq<Prop>)

  /** One own enumerable property of an object, in enumeration order. */
  datatype Prop = Prop(name: string, val: Value)

  function Names(ps: seq<Prop>): (ns: seq<string>)
    ensures |ns| == |ps|
    ensures forall i :: 0 <= i < |ps| ==> ns[i] == ps[i].name
  {
    if ps == [] then [] else [ps[0].name] + Names(ps[1..])
  }

  /** An object literal: the i-th name paired with the i-th value. */
  function Labelled(ns: seq<string>, vs: seq<Value>): (ps: seq<Prop>)
    requires |ns| == |vs|
    ensures |ps| == |ns| && Names(ps) == ns
    ensures forall i :: 0 <= i < |ps| ==> ps[i] == Prop(ns[i], vs[i])
    ensures Distinct(ns) ==> DistinctNames(ps)
  {
    var ps := seq(|ns|, i requires 0 <= i < |ns| => Prop(ns[i], vs[i]));
    assert Names(ps) == ns;
    ps
  }

  /** No name occurs twice in a list of names. */
  predicate Distinct(ns: seq<string>) {
    forall i, j :: 0 <= i < j < |ns| ==> ns[i] != ns[j]
  }

  /** No two properties of one object share a name, as in every JavaScript object. */
  predicate DistinctNames(ps: seq<Prop>) {
    forall i, j :: 0 <= i < j < |ps| ==> ps[i].name != ps[j].name
  }

  /** Every object inside `v`, at every depth, has distinct property names. */
  predicate WellFormed(v: Value)
    decreases v
  {
    match v
    case Arr(xs) => forall i :: 0 <= i < |xs| ==> WellFormed(xs[i])
    case Obj(ps) => DistinctNames(ps) && forall i :: 0 <= i < |ps| ==> WellFormed(ps[i].val)
    case _ => true
  }

  /** `obj[name]`: the value of the first property called `name`, or undefined. */
  function Lookup(ps: seq<Prop>, name: string): (v: Value)
    ensures (forall i :: 0 <= i < |ps| ==> ps[i].name != name) ==> v == Undefined
    ensures forall i :: 0 <= i < |ps| && ps[i].name == name && (forall j :: 0 <= j < i ==> ps[j].name != name) ==> v == ps[i].val
  {
    if ps == [] then Undefined
    else if ps[0].name == name then ps[0].val
    else Lookup(ps[1..], name)
  }

  /** `v.name` on a value that is not null or undefined: only objects have
      named properties here. */
  function Get(v: Value, name: string): (r: Value)
    ensures v.Obj? ==> r == Lookup(v.props, name)
    ensures !v.Obj? ==> r == Undefined
  {
    if v.Obj? then Lookup(v.props, name) else Undefined
  }

  /** JavaScript truthiness. */
  predicate Truthy(v: Value) {
    match v
    case Undefined => false
    case Null => false
    case Bool(b) => b
    case Num(n) => n != 0
    case Str(s) => s != ""
    case _ => true
  }

  /** `v == null` in JavaScript: undefined or null. */
  predicate Nullish(v: Value) {
    v.Undefined? || v.Null?
  }

  /** Assigning `name` on a property list: an existing property keeps its
      position, a new one is appended. */
  function PutProp(ps: seq<Prop>, name: string, x: Value): (qs: seq<Prop>)
    ensures Lookup(qs, name) == x
    ensures forall n :: n != name ==> Lookup(qs, n) == Lookup(ps, n)
    ensures (exists i :: 0 <= i < |ps| && ps[i].name == name) ==> Names(qs) == Names(ps)
    ensures (forall i :: 0 <= i < |ps| ==> ps[i].name != name) ==> Names(qs) == Names(ps) + [name]
  {
    if ps == [] then [Prop(name, x)]
    else if ps[0].name == name then [Prop(name, x)] + ps[1..]
    else [ps[0]] + PutProp(ps[1..], name, x)
  }

  /** `v.name = x` on an object; other values are left as they are. */
  function Put(v: Value, name: string, x: Value): (r: Value)
    ensures v.Obj? ==> r.Obj? && Get(r, name) == x
    ensures v.Obj? ==> forall n :: n != name ==> Get(r, n) == Get(v, n)
    ensures !v.Obj? ==> r == v
  {
    if v.Obj? then Obj(PutProp(v.props, name, x)) else v
  }

  /** Strict lexicographic order on strings, character by character, as the
      default `Array.prototype.sort` and the `<` operator compare strings. */
  predicate Below(a: string, b: string)
    decreases |a|
  {
    if a == [] then b != []
    else if b == [] then false
    else if a[0] == b[0] then Below(a[1..], b[1..])
    else a[0] < b[0]
  }

  lemma {:induction false} BelowIrreflexive(a: string)
    ensures !Below(a, a)
    decreases |a|
  {
    if a != [] {
      BelowIrreflexive(a[1..]);
    }
  }

  lemma {:induction false} BelowTransitive(a: string, b: string, c: string)
    requires Below(a, b) && Below(b, c)
    ensures Below(a, c)
    decreases |a|
  {
    if a != [] && b != [] && c != [] && a[0] == b[0] && b[0] == c[0] {
      BelowTransitive(a[1..], b[1..], c[1..]);
    }
  }

  lemma {:induction false} BelowTotal(a: string, b: string)
    requires a != b
    ensures Below(a, b) || Below(b, a)
    decreases |a|
  {
    if a != [] && b != [] && a[0] == b[0] {
      BelowTotal(a[1..], b[1..]);
    }
  }

  lemma {:induction false} BelowAsymmetric(a: string, b: string)
    requires Below(a, b)
    ensures !Below(b, a)
  {
    if Below(b, a) {
      BelowTransitive(a, b, a);
      BelowIrreflexive(a);
    }
  }
}

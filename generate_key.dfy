/** lib-src/generate-key.js, also used by src/: the cache key of a value is
    the SHA-1 of the JSON text of its canonical form, written with the
    replacer that turns a RegExp into its `String(re)` display. The hash
    function is a parameter. */
module GenerateKey {
  import opened Json
  import opened Canonical
  import opened JsonText
  import opened JsonDecode

  /** The text that is hashed: `JSON.stringify(jsosort(v), replacer)`;
      None for undefined, where `JSON.stringify` returns undefined. */
  function KeyText(v: Value): (t: Option<string>)
    ensures t.Some? <==> v != Undefined
  {
    StringifyDefined(Canon(v), true);
    Stringify(Canon(v), true)
  }

  /** The exported key function. `sha1` stands for the hash library; the
      value hashed for undefined is not modelled. */
  function GenerateKey(sha1: string -> string, v: Value): (k: Option<string>)
    ensures k.Some? <==> v != Undefined
  {
    match KeyText(v)
    case Some(t) => Some(sha1(t))
    case None => None
  }

  /** What a key can see of a value: the JSON data of its canonical form
      (None for undefined). */
  function Seen(v: Value): Option<Data> {
    View(Canon(v), true)
  }

  /** Two values that differ only in the order of their properties, at any
      depth, get the same key. */
  lemma KeyOrderIndependent(sha1: string -> string, a: Value, b: Value)
    requires WellFormed(a) && WellFormed(b)
    requires SameUpToKeyOrder(a, b)
    ensures KeyText(a) == KeyText(b)
    ensures GenerateKey(sha1, a) == GenerateKey(sha1, b)
  {
    CanonOrderIndependent(a, b);
  }

  /** Equal key texts mean equal views of the canonical forms, and back. */
  lemma KeyTextSameIff(a: Value, b: Value)
    ensures KeyText(a) == KeyText(b) <==> Seen(a) == Seen(b)
  {
    StringifySameIff(Canon(a), Canon(b), true);
  }

  /** Objects with the same key text agree, property by property, on what
      the key sees. */
  lemma KeyTextSeparates(ps: seq<Prop>, qs: seq<Prop>)
    requires DistinctNames(ps) && DistinctNames(qs)
    requires KeyText(Obj(ps)) == KeyText(Obj(qs))
    ensures forall n :: Seen(Lookup(ps, n)) == Seen(Lookup(qs, n))
  {
    KeyTextSameIff(Obj(ps), Obj(qs));
    CanonObj(ps);
    CanonObj(qs);
    var x := Canon(Obj(ps)).props;
    var y := Canon(Obj(qs)).props;
    assert ViewProps(x, true) == ViewProps(y, true);
    forall n ensures Seen(Lookup(ps, n)) == Seen(Lookup(qs, n)) {
      MemberLookupViewProps(x, n, true);
      MemberLookupViewProps(y, n, true);
    }
  }

  /** Objects named alike, in the same order, whose properties the key sees
      alike, have the same key text. */
  lemma KeyTextAgrees(ps: seq<Prop>, qs: seq<Prop>)
    requires DistinctNames(ps) && DistinctNames(qs)
    requires Names(ps) == Names(qs)
    requires forall n :: Seen(Lookup(ps, n)) == Seen(Lookup(qs, n))
    ensures KeyText(Obj(ps)) == KeyText(Obj(qs))
  {
    CanonObj(ps);
    CanonObj(qs);
    CanonObjNames(ps, qs);
    var x := Canon(Obj(ps)).props;
    var y := Canon(Obj(qs)).props;
    forall k | 0 <= k < |x| ensures View(x[k].val, true) == View(y[k].val, true) {
      var n := x[k].name;
      assert Names(x)[k] == n && Names(y)[k] == y[k].name;
      LookupMember(x, x[k]);
      LookupMember(y, y[k]);
      assert Seen(Lookup(ps, n)) == Seen(Lookup(qs, n));
    }
    ViewPropsPointwise(x, y, true);
    KeyTextSameIff(Obj(ps), Obj(qs));
  }

  /** Position by position, for two objects named alike: equal key texts
      mean every value is seen alike... */
  lemma KeyTextSeparatesPointwise(ps: seq<Prop>, qs: seq<Prop>, k: int)
    requires DistinctNames(ps) && DistinctNames(qs)
    requires Names(ps) == Names(qs) && 0 <= k < |ps|
    requires KeyText(Obj(ps)) == KeyText(Obj(qs))
    ensures Seen(ps[k].val) == Seen(qs[k].val)
  {
    KeyTextSeparates(ps, qs);
    assert Names(ps)[k] == ps[k].name && Names(qs)[k] == qs[k].name;
    LookupMember(ps, ps[k]);
    LookupMember(qs, qs[k]);
    assert Seen(Lookup(ps, ps[k].name)) == Seen(Lookup(qs, ps[k].name));
  }

  /** ...and values seen alike at every position give equal key texts. */
  lemma KeyTextAgreesPointwise(ps: seq<Prop>, qs: seq<Prop>)
    requires DistinctNames(ps) && DistinctNames(qs)
    requires Names(ps) == Names(qs)
    requires forall k :: 0 <= k < |ps| ==> Seen(ps[k].val) == Seen(qs[k].val)
    ensures KeyText(Obj(ps)) == KeyText(Obj(qs))
  {
    forall n ensures Seen(Lookup(ps, n)) == Seen(Lookup(qs, n)) {
      LookupAlike(ps, qs, n);
    }
    KeyTextAgrees(ps, qs);
  }

  lemma LookupAlike(ps: seq<Prop>, qs: seq<Prop>, n: string)
    requires DistinctNames(ps) && DistinctNames(qs)
    requires Names(ps) == Names(qs)
    requires forall k :: 0 <= k < |ps| ==> Seen(ps[k].val) == Seen(qs[k].val)
    ensures Seen(Lookup(ps, n)) == Seen(Lookup(qs, n))
  {
    if k :| 0 <= k < |ps| && ps[k].name == n {
      assert Names(ps)[k] == ps[k].name && Names(qs)[k] == qs[k].name;
      LookupMember(ps, ps[k]);
      LookupMember(qs, qs[k]);
    } else {
      forall p | p in qs ensures p.name != n {
        var k :| 0 <= k < |qs| && qs[k] == p;
        assert Names(ps)[k] == ps[k].name && Names(qs)[k] == qs[k].name;
      }
      LookupAbsent(qs, n);
      LookupAbsent(ps, n);
    }
  }

  /** Objects with different key texts get different keys unless the hash
      collides. */
  lemma DistinctKeysUnlessCollision(sha1: string -> string, ps: seq<Prop>, qs: seq<Prop>, n: string)
    requires DistinctNames(ps) && DistinctNames(qs)
    requires Seen(Lookup(ps, n)) != Seen(Lookup(qs, n))
    ensures KeyText(Obj(ps)) != KeyText(Obj(qs))
    ensures (forall a, b :: sha1(a) == sha1(b) ==> a == b) ==> GenerateKey(sha1, Obj(ps)) != GenerateKey(sha1, Obj(qs))
  {
    if KeyText(Obj(ps)) == KeyText(Obj(qs)) {
      KeyTextSeparates(ps, qs);
    }
  }

  /** RegExps with different source or flags are seen differently. */
  lemma RegexesSeenApart(s1: string, f1: string, s2: string, f2: string)
    requires '/' !in f1 && '/' !in f2
    requires s1 != s2 || f1 != f2
    ensures Seen(Regex(s1, f1)) != Seen(Regex(s2, f2))
  {
    if Seen(Regex(s1, f1)) == Seen(Regex(s2, f2)) {
      RegexTextInjective(s1, f1, s2, f2);
    }
  }

  /** A RegExp and the string that displays it are seen alike, so a filter
      on a pattern and a filter on that literal string share a key. */
  lemma RegexSeenAsItsText(source: string, flags: string)
    ensures Seen(Regex(source, flags)) == Seen(Str(RegexText(source, flags)))
  {
  }
}

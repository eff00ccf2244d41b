/** The `jsosort` step of lib-src/generate-key.js: every object's properties
    are re-created in sorted name order, recursively; arrays keep their order
    and every other value is a leaf (a RegExp included). */
module Canonical {
  import opened Json

  /** Property names strictly increasing. */
  predicate SortedByName(ps: seq<Prop>) {
    forall i, j :: 0 <= i < j < |ps| ==> Below(ps[i].name, ps[j].name)
  }

  /** Insert `p` in front of the first property whose name is not below its own. */
  function Insert(p: Prop, ps: seq<Prop>): (r: seq<Prop>)
    ensures multiset(r) == multiset(ps) + multiset{p}
  {
    if ps == [] then [p]
    else if Below(ps[0].name, p.name) then
      assert ps == [ps[0]] + ps[1..];
      [ps[0]] + Insert(p, ps[1..])
    else [p] + ps
  }

  /** Insertion sort by property name. */
  function SortProps(ps: seq<Prop>): (r: seq<Prop>)
    ensures multiset(r) == multiset(ps)
  {
    if ps == [] then []
    else
      assert ps == [ps[0]] + ps[1..];
      Insert(ps[0], SortProps(ps[1..]))
  }

  lemma SortPropsMembers(ps: seq<Prop>)
    ensures forall p :: p in SortProps(ps) <==> p in ps
  {
    var r := SortProps(ps);
    forall p ensures p in r <==> p in ps {
      assert p in r <==> p in multiset(r);
      assert p in ps <==> p in multiset(ps);
    }
  }

  /** jsosort: the canonical form of a value. */
  function Canon(v: Value): Value
    decreases v
  {
    match v
    case Arr(xs) => Arr(CanonItems(xs))
    case Obj(ps) => Obj(SortProps(CanonProps(ps)))
    case _ => v
  }

  function CanonItems(xs: seq<Value>): (r: seq<Value>)
    decreases xs
  {
    if xs == [] then [] else [Canon(xs[0])] + CanonItems(xs[1..])
  }

  function CanonProps(ps: seq<Prop>): (r: seq<Prop>)
    decreases ps
  {
    if ps == [] then [] else [Prop(ps[0].name, Canon(ps[0].val))] + CanonProps(ps[1..])
  }

  /** Every object level has its properties in strictly sorted name order. */
  predicate IsCanonical(v: Value)
    decreases v
  {
    match v
    case Arr(xs) => forall i :: 0 <= i < |xs| ==> IsCanonical(xs[i])
    case Obj(ps) => SortedByName(ps) && forall i :: 0 <= i < |ps| ==> IsCanonical(ps[i].val)
    case _ => true
  }

  /** `a` and `b` differ at most in the order of properties of their objects,
      at any depth: arrays match element by element, objects match by
      PropsMatch, and leaves are equal. */
  predicate SameUpToKeyOrder(a: Value, b: Value)
    decreases a
  {
    match a
    case Arr(xs) =>
      && b.Arr? && |xs| == |b.items|
      && forall i :: 0 <= i < |xs| ==> SameUpToKeyOrder(xs[i], b.items[i])
    case Obj(ps) => b.Obj? && PropsMatch(ps, b.props)
    case _ => a == b
  }

  /** Every property of `ps` has a property of the same name in `qs` with an
      equivalent value, and every name of `qs` occurs in `ps`. */
  predicate PropsMatch(ps: seq<Prop>, qs: seq<Prop>)
    decreases ps
  {
    && (forall i :: 0 <= i < |ps| ==> HasMatch(ps[i], qs))
    && (forall j :: 0 <= j < |qs| ==> qs[j].name in Names(ps))
  }

  /** Some property of `qs` has the name of `p` and a value equivalent to its value. */
  predicate HasMatch(p: Prop, qs: seq<Prop>)
    decreases p
  {
    exists j :: 0 <= j < |qs| && qs[j].name == p.name && SameUpToKeyOrder(p.val, qs[j].val)
  }

  /** Matching values of `ps` and `qs` have equal canonical forms. */
  ghost predicate CanonAgree(ps: seq<Prop>, qs: seq<Prop>) {
    forall i, j :: 0 <= i < |ps| && 0 <= j < |qs| && qs[j].name == ps[i].name && SameUpToKeyOrder(ps[i].val, qs[j].val) ==>
      Canon(ps[i].val) == Canon(qs[j].val)
  }

  // ---------------------------------------------------------------------
  // Facts about the element-wise maps

  lemma {:induction false} CanonItemsAt(xs: seq<Value>)
    ensures |CanonItems(xs)| == |xs|
    ensures forall i :: 0 <= i < |xs| ==> CanonItems(xs)[i] == Canon(xs[i])
    decreases xs
  {
    if xs != [] {
      CanonItemsAt(xs[1..]);
    }
  }

  lemma {:induction false} CanonPropsAt(ps: seq<Prop>)
    ensures |CanonProps(ps)| == |ps|
    ensures forall i :: 0 <= i < |ps| ==> CanonProps(ps)[i] == Prop(ps[i].name, Canon(ps[i].val))
    decreases ps
  {
    if ps != [] {
      CanonPropsAt(ps[1..]);
    }
  }

  // ---------------------------------------------------------------------
  // Sorting

  lemma {:induction false} InsertSorted(p: Prop, ps: seq<Prop>)
    requires SortedByName(ps)
    requires forall q | q in ps :: q.name != p.name
    ensures SortedByName(Insert(p, ps))
    decreases ps
  {
    if ps != [] {
      if Below(ps[0].name, p.name) {
        InsertSorted(p, ps[1..]);
        var r := Insert(p, ps[1..]);
        assert multiset(r) == multiset(ps[1..]) + multiset{p};
        forall q | q in r ensures Below(ps[0].name, q.name) {
          assert q in multiset(r);
          if q != p {
            assert q in multiset(ps[1..]);
            var k :| 0 <= k < |ps[1..]| && ps[1..][k] == q;
            assert ps[k + 1] == q;
          }
        }
      } else {
        assert ps[0] in ps;
        BelowTotal(ps[0].name, p.name);
        forall i | 0 < i < |ps| ensures Below(p.name, ps[i].name) {
          BelowTransitive(p.name, ps[0].name, ps[i].name);
        }
      }
    }
  }

  lemma {:induction false} SortPropsSorted(ps: seq<Prop>)
    requires DistinctNames(ps)
    ensures SortedByName(SortProps(ps))
    decreases ps
  {
    if ps != [] {
      var rest := SortProps(ps[1..]);
      SortPropsSorted(ps[1..]);
      forall q | q in rest ensures q.name != ps[0].name {
        assert q in multiset(rest);
        assert q in multiset(ps[1..]);
        var k :| 0 <= k < |ps[1..]| && ps[1..][k] == q;
        assert ps[k + 1] == q;
      }
      InsertSorted(ps[0], rest);
    }
  }

  /** A strictly sorted list is determined by its elements. */
  lemma {:induction false} SortedUnique(x: seq<Prop>, y: seq<Prop>)
    requires SortedByName(x) && SortedByName(y)
    requires forall p :: p in x <==> p in y
    ensures x == y
    decreases |x|
  {
    assert y != [] ==> y[0] in y;
    if x != [] {
      assert x[0] in x;
      assert y != [];
      assert y[0] in y;
      if x[0] != y[0] {
        var k :| 0 <= k < |x| && x[k] == y[0];
        var m :| 0 <= m < |y| && y[m] == x[0];
        assert k != 0 && m != 0;
        BelowAsymmetric(x[0].name, y[0].name);
      }
      forall p ensures p in x[1..] <==> p in y[1..] {
        if p in x[1..] {
          var k :| 0 <= k < |x[1..]| && x[1..][k] == p;
          assert x[k + 1] == p;
          BelowIrreflexive(p.name);
          assert p in y;
        }
        if p in y[1..] {
          var k :| 0 <= k < |y[1..]| && y[1..][k] == p;
          assert y[k + 1] == p;
          BelowIrreflexive(p.name);
          assert p in x;
        }
      }
      SortedUnique(x[1..], y[1..]);
      assert x == [x[0]] + x[1..] && y == [y[0]] + y[1..];
    }
  }

  lemma {:induction false} SortPropsOfSorted(ps: seq<Prop>)
    requires SortedByName(ps)
    ensures SortProps(ps) == ps
    decreases ps
  {
    if ps != [] {
      SortPropsOfSorted(ps[1..]);
      assert SortProps(ps) == Insert(ps[0], ps[1..]);
      if ps[1..] != [] {
        assert Below(ps[0].name, ps[1].name);
        BelowAsymmetric(ps[0].name, ps[1].name);
      }
    }
  }

  // ---------------------------------------------------------------------
  // Lookups by name

  lemma {:induction false} LookupMember(ps: seq<Prop>, p: Prop)
    requires DistinctNames(ps) && p in ps
    ensures Lookup(ps, p.name) == p.val
  {
    var k :| 0 <= k < |ps| && ps[k] == p;
  }

  lemma LookupAbsent(ps: seq<Prop>, n: string)
    requires forall p | p in ps :: p.name != n
    ensures Lookup(ps, n) == Undefined
  {
  }

  /** Sorting a list with distinct names leaves every lookup as it was. */
  lemma {:induction false} SortPropsLookup(ps: seq<Prop>, n: string)
    requires DistinctNames(ps)
    ensures Lookup(SortProps(ps), n) == Lookup(ps, n)
  {
    var r := SortProps(ps);
    SortPropsSorted(ps);
    assert DistinctNames(r) by {
      forall i, j | 0 <= i < j < |r| ensures r[i].name != r[j].name {
        BelowIrreflexive(r[i].name);
      }
    }
    if exists p :: p in ps && p.name == n {
      var p :| p in ps && p.name == n;
      assert p in multiset(ps);
      assert p in r;
      LookupMember(ps, p);
      LookupMember(r, p);
    } else {
      forall q | q in r ensures q.name != n {
        assert q in multiset(r);
        assert q in ps;
      }
      LookupAbsent(ps, n);
      LookupAbsent(r, n);
    }
  }

  lemma {:induction false} DistinctCanonProps(ps: seq<Prop>)
    requires DistinctNames(ps)
    ensures DistinctNames(CanonProps(ps))
  {
    CanonPropsAt(ps);
  }

  // ---------------------------------------------------------------------
  // The properties of jsosort

  /** Canonicalisation leaves every object level sorted by name, and keeps
      names distinct. */
  lemma {:induction false} CanonIsCanonical(v: Value)
    requires WellFormed(v)
    ensures WellFormed(Canon(v)) && IsCanonical(Canon(v))
    decreases v
  {
    match v
    case Arr(xs) =>
      CanonItemsAt(xs);
      forall i | 0 <= i < |xs| ensures WellFormed(Canon(xs[i])) && IsCanonical(Canon(xs[i])) {
        CanonIsCanonical(xs[i]);
      }
    case Obj(ps) =>
      var cp := CanonProps(ps);
      var r := SortProps(cp);
      CanonPropsAt(ps);
      DistinctCanonProps(ps);
      SortPropsSorted(cp);
      forall i | 0 <= i < |r| ensures WellFormed(r[i].val) && IsCanonical(r[i].val) {
        assert r[i] in multiset(cp);
        var k :| 0 <= k < |cp| && cp[k] == r[i];
        CanonIsCanonical(ps[k].val);
      }
      assert DistinctNames(r) by {
        forall i, j | 0 <= i < j < |r| ensures r[i].name != r[j].name {
          BelowIrreflexive(r[i].name);
        }
      }
    case _ =>
  }

  /** A value already in canonical form is left alone. */
  lemma {:induction false} CanonOfCanonical(v: Value)
    requires IsCanonical(v)
    ensures Canon(v) == v
    decreases v
  {
    match v
    case Arr(xs) =>
      CanonItemsAt(xs);
      forall i | 0 <= i < |xs| ensures Canon(xs[i]) == xs[i] {
        CanonOfCanonical(xs[i]);
      }
    case Obj(ps) =>
      CanonPropsAt(ps);
      forall i | 0 <= i < |ps| ensures CanonProps(ps)[i] == ps[i] {
        CanonOfCanonical(ps[i].val);
      }
      assert CanonProps(ps) == ps;
      SortPropsOfSorted(ps);
    case _ =>
  }

  /** jsosort is idempotent. */
  lemma CanonIdempotent(v: Value)
    requires WellFormed(v)
    ensures Canon(Canon(v)) == Canon(v)
  {
    CanonIsCanonical(v);
    CanonOfCanonical(Canon(v));
  }

  /** Canonicalising an object keeps the same property names and, under each
      name, the canonical form of the same value: it only reorders. */
  lemma CanonKeepsProperties(ps: seq<Prop>)
    requires DistinctNames(ps)
    ensures Canon(Obj(ps)).Obj?
    ensures multiset(Names(Canon(Obj(ps)).props)) == multiset(Names(ps))
    ensures forall n :: Lookup(Canon(Obj(ps)).props, n) == Canon(Lookup(ps, n))
  {
    var cp := CanonProps(ps);
    assert Canon(Obj(ps)) == Obj(SortProps(cp));
    CanonPropsAt(ps);
    DistinctCanonProps(ps);
    assert Names(cp) == Names(ps);
    NamesSortProps(cp);
    forall n ensures Lookup(SortProps(cp), n) == Canon(Lookup(ps, n)) {
      SortPropsLookup(cp, n);
      CanonPropsLookup(ps, n);
    }
  }

  lemma {:induction false} CanonPropsLookup(ps: seq<Prop>, n: string)
    ensures Lookup(CanonProps(ps), n) == Canon(Lookup(ps, n))
    decreases ps
  {
    if ps != [] {
      CanonPropsLookup(ps[1..], n);
    }
  }

  /** Inserting puts `p` at one place and keeps the rest in order. */
  lemma {:induction false} InsertSplit(p: Prop, ps: seq<Prop>) returns (k: nat)
    ensures k <= |ps| && Insert(p, ps) == ps[..k] + [p] + ps[k..]
    decreases ps
  {
    if ps == [] {
      k := 0;
    } else if Below(ps[0].name, p.name) {
      var k' := InsertSplit(p, ps[1..]);
      k := k' + 1;
      assert ps[..k] == [ps[0]] + ps[1..][..k'];
      assert ps[k..] == ps[1..][k'..];
    } else {
      k := 0;
      assert ps[..0] == [] && ps[0..] == ps;
    }
  }

  lemma NamesAppend(a: seq<Prop>, b: seq<Prop>)
    ensures Names(a + b) == Names(a) + Names(b)
  {
    var l, r := Names(a + b), Names(a) + Names(b);
    forall i | 0 <= i < |l| ensures l[i] == r[i] {
      if i < |a| {
        assert (a + b)[i] == a[i];
      } else {
        assert (a + b)[i] == b[i - |a|];
      }
    }
  }

  lemma NamesInsert(p: Prop, ps: seq<Prop>)
    ensures multiset(Names(Insert(p, ps))) == multiset(Names(ps)) + multiset{p.name}
  {
    var k := InsertSplit(p, ps);
    var a, b := ps[..k], ps[k..];
    NamesAppend(a + [p], b);
    NamesAppend(a, [p]);
    assert Names([p]) == [p.name];
    assert ps == a + b;
    NamesAppend(a, b);
    assert Names(Insert(p, ps)) == Names(a) + [p.name] + Names(b);
  }

  lemma {:induction false} NamesSortProps(ps: seq<Prop>)
    ensures multiset(Names(SortProps(ps))) == multiset(Names(ps))
    decreases ps
  {
    if ps != [] {
      NamesSortProps(ps[1..]);
      NamesInsert(ps[0], SortProps(ps[1..]));
      assert Names(ps) == [ps[0].name] + Names(ps[1..]);
    }
  }

  /** Where insertion puts a property depends only on the names involved. */
  lemma {:induction false} NamesInsertByName(p: Prop, ps: seq<Prop>, q: Prop, qs: seq<Prop>)
    requires p.name == q.name && Names(ps) == Names(qs)
    ensures Names(Insert(p, ps)) == Names(Insert(q, qs))
    decreases ps
  {
    if ps != [] {
      assert qs != [] && ps[0].name == qs[0].name by {
        assert |Names(qs)| == |Names(ps)| && Names(ps)[0] == Names(qs)[0];
      }
      assert Names(ps[1..]) == Names(qs[1..]) by {
        assert Names(ps) == [ps[0].name] + Names(ps[1..]);
        assert Names(qs) == [qs[0].name] + Names(qs[1..]);
      }
      if Below(ps[0].name, p.name) {
        NamesInsertByName(p, ps[1..], q, qs[1..]);
        NamesCons(ps[0], Insert(p, ps[1..]));
        NamesCons(qs[0], Insert(q, qs[1..]));
      } else {
        NamesCons(p, ps);
        NamesCons(q, qs);
      }
    }
  }

  lemma NamesCons(p: Prop, ps: seq<Prop>)
    ensures Names([p] + ps) == [p.name] + Names(ps)
  {
    assert ([p] + ps)[1..] == ps;
  }

  /** The order sorting produces depends only on the names. */
  lemma {:induction false} NamesSortPropsByName(ps: seq<Prop>, qs: seq<Prop>)
    requires Names(ps) == Names(qs)
    ensures Names(SortProps(ps)) == Names(SortProps(qs))
    decreases ps
  {
    if ps != [] {
      assert qs != [] && ps[0].name == qs[0].name by {
        assert |Names(qs)| == |Names(ps)| && Names(ps)[0] == Names(qs)[0];
      }
      assert Names(ps[1..]) == Names(qs[1..]) by {
        assert Names(ps) == [ps[0].name] + Names(ps[1..]);
        assert Names(qs) == [qs[0].name] + Names(qs[1..]);
      }
      NamesSortPropsByName(ps[1..], qs[1..]);
      NamesInsertByName(ps[0], SortProps(ps[1..]), qs[0], SortProps(qs[1..]));
    }
  }

  lemma SortedDistinct(ps: seq<Prop>)
    requires SortedByName(ps)
    ensures DistinctNames(ps)
  {
    forall i, j | 0 <= i < j < |ps| ensures ps[i].name != ps[j].name {
      BelowIrreflexive(ps[i].name);
    }
  }

  /** The canonical form of an object with distinct names: sorted, distinct,
      and named as `ps` is named, in an order fixed by those names. */
  lemma CanonObj(ps: seq<Prop>)
    requires DistinctNames(ps)
    ensures Canon(Obj(ps)).Obj?
    ensures SortedByName(Canon(Obj(ps)).props) && DistinctNames(Canon(Obj(ps)).props)
    ensures forall n :: Lookup(Canon(Obj(ps)).props, n) == Canon(Lookup(ps, n))
  {
    DistinctCanonProps(ps);
    SortPropsSorted(CanonProps(ps));
    SortedDistinct(SortProps(CanonProps(ps)));
    CanonKeepsProperties(ps);
  }

  /** Two property lists named alike, in the same order, canonicalise to
      lists named alike. */
  lemma CanonObjNames(ps: seq<Prop>, qs: seq<Prop>)
    requires Names(ps) == Names(qs)
    ensures Names(Canon(Obj(ps)).props) == Names(Canon(Obj(qs)).props)
  {
    CanonPropsAt(ps);
    CanonPropsAt(qs);
    assert Names(CanonProps(ps)) == Names(ps);
    assert Names(CanonProps(qs)) == Names(qs);
    NamesSortPropsByName(CanonProps(ps), CanonProps(qs));
  }

  /** Every canonicalised property of `ps` is one of `qs`, when names match
      up and matching values have equal canonical forms. */
  lemma CanonPropsCovered(ps: seq<Prop>, qs: seq<Prop>, p: Prop)
    requires PropsMatch(ps, qs) && CanonAgree(ps, qs)
    requires p in CanonProps(ps)
    ensures p in CanonProps(qs)
  {
    CanonPropsAt(ps);
    CanonPropsAt(qs);
    var x := CanonProps(ps);
    var i :| 0 <= i < |x| && x[i] == p;
    var j := MatchOf(ps, qs, i);
    CanonPropsAt(qs);
    assert CanonProps(qs)[j] == p;
  }

  /** The index in `qs` of the property matching `ps[i]`. */
  lemma MatchOf(ps: seq<Prop>, qs: seq<Prop>, i: int) returns (j: int)
    requires PropsMatch(ps, qs) && CanonAgree(ps, qs)
    requires 0 <= i < |ps|
    ensures 0 <= j < |qs| && qs[j].name == ps[i].name
    ensures SameUpToKeyOrder(ps[i].val, qs[j].val)
    ensures Canon(ps[i].val) == Canon(qs[j].val)
  {
    assert HasMatch(ps[i], qs);
    j :| 0 <= j < |qs| && qs[j].name == ps[i].name && SameUpToKeyOrder(ps[i].val, qs[j].val);
  }

  lemma CanonPropsCoveredBack(ps: seq<Prop>, qs: seq<Prop>, p: Prop)
    requires DistinctNames(qs)
    requires PropsMatch(ps, qs) && CanonAgree(ps, qs)
    requires p in CanonProps(qs)
    ensures p in CanonProps(ps)
  {
    CanonPropsAt(ps);
    CanonPropsAt(qs);
    var y := CanonProps(qs);
    var j :| 0 <= j < |y| && y[j] == p;
    assert qs[j].name in Names(ps);
    var i :| 0 <= i < |ps| && Names(ps)[i] == qs[j].name;
    var j' := MatchOf(ps, qs, i);
    assert j' == j;
    assert CanonProps(ps)[i] == p;
  }

  /** The object case of CanonOrderIndependent, given that corresponding
      values already have equal canonical forms. */
  lemma SortedCanonPropsEqual(ps: seq<Prop>, qs: seq<Prop>)
    requires DistinctNames(ps) && DistinctNames(qs)
    requires PropsMatch(ps, qs) && CanonAgree(ps, qs)
    ensures SortProps(CanonProps(ps)) == SortProps(CanonProps(qs))
  {
    var x := CanonProps(ps);
    var y := CanonProps(qs);
    forall p ensures p in x <==> p in y {
      if p in x {
        CanonPropsCovered(ps, qs, p);
      }
      if p in y {
        CanonPropsCoveredBack(ps, qs, p);
      }
    }
    DistinctCanonProps(ps);
    DistinctCanonProps(qs);
    SortPropsSorted(x);
    SortPropsSorted(y);
    SortPropsMembers(x);
    SortPropsMembers(y);
    SortedUnique(SortProps(x), SortProps(y));
  }

  lemma CanonItemsEqual(xs: seq<Value>, ys: seq<Value>)
    requires |xs| == |ys|
    requires forall i :: 0 <= i < |xs| ==> Canon(xs[i]) == Canon(ys[i])
    ensures CanonItems(xs) == CanonItems(ys)
  {
    CanonItemsAt(xs);
    CanonItemsAt(ys);
  }

  /** Two values that differ only in the order of their properties have the
      same canonical form. */
  lemma {:induction false} CanonOrderIndependent(a: Value, b: Value)
    requires WellFormed(a) && WellFormed(b)
    requires SameUpToKeyOrder(a, b)
    ensures Canon(a) == Canon(b)
    decreases a
  {
    match a
    case Arr(xs) =>
      var ys := b.items;
      forall i | 0 <= i < |xs| ensures Canon(xs[i]) == Canon(ys[i]) {
        CanonOrderIndependent(xs[i], ys[i]);
      }
      CanonItemsEqual(xs, ys);
    case Obj(ps) =>
      var qs := b.props;
      forall i, j | 0 <= i < |ps| && 0 <= j < |qs| && qs[j].name == ps[i].name && SameUpToKeyOrder(ps[i].val, qs[j].val)
        ensures Canon(ps[i].val) == Canon(qs[j].val)
      {
        CanonOrderIndependent(ps[i].val, qs[j].val);
      }
      SortedCanonPropsEqual(ps, qs);
    case _ =>
  }
}

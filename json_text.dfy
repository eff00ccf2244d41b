/** `JSON.stringify` on the values of the Json module: first the value is
    turned into the JSON data it denotes (View), then that data is written
    out as text (Encode). */
module JsonText {
  import opened Json

  /** JSON data: what remains of a value once `JSON.stringify` has applied
      its replacer and dropped what JSON cannot hold. */
  datatype Data =
    | JNull
    | JBool(b: bool)
    | JNum(n: int)
    | JStr(s: string)
    | JArr(items: seq<Data>)
    | JObj(members: seq<Member>)

  datatype Member = Member(key: string, val: Data)

  // ---------------------------------------------------------------------
  // From values to JSON data

  /** The JSON data `JSON.stringify` writes for `v`, or None where it writes
      nothing (undefined). With `regexAsText` a RegExp goes through the
      replacer `val instanceof RegExp ? String(val) : val`, which yields
      `"/" + source + "/" + flags`; without a replacer a RegExp, which has no
      own enumerable properties, is written as an empty object. Inside an
      array a value that writes nothing becomes `null`; inside an object the
      property is dropped. */
  function View(v: Value, regexAsText: bool): (r: Option<Data>)
    decreases v
  {
    match v
    case Undefined => None
    case Null => Some(JNull)
    case Bool(b) => Some(JBool(b))
    case Num(n) => Some(JNum(n))
    case Str(s) => Some(JStr(s))
    case Regex(source, flags) =>
      if regexAsText then Some(JStr(RegexText(source, flags))) else Some(JObj([]))
    case Arr(xs) => Some(JArr(ViewItems(xs, regexAsText)))
    case Obj(ps) => Some(JObj(ViewProps(ps, regexAsText)))
  }

  /** `String(re)` for a RegExp. */
  function RegexText(source: string, flags: string): (t: string)
    ensures |t| == |source| + |flags| + 2 && t[0] == '/' && t[|source| + 1] == '/'
  {
    "/" + source + "/" + flags
  }

  function ViewItems(xs: seq<Value>, regexAsText: bool): (r: seq<Data>)
    decreases xs
  {
    if xs == [] then []
    else [match View(xs[0], regexAsText) case Some(d) => d case None => JNull] + ViewItems(xs[1..], regexAsText)
  }

  function ViewProps(ps: seq<Prop>, regexAsText: bool): (r: seq<Member>)
    decreases ps
  {
    if ps == [] then []
    else
      match View(ps[0].val, regexAsText)
      case Some(d) => [Member(ps[0].name, d)] + ViewProps(ps[1..], regexAsText)
      case None => ViewProps(ps[1..], regexAsText)
  }

  /** The data stored under `key` in an object's members, if any. */
  function MemberLookup(ms: seq<Member>, key: string): (r: Option<Data>)
    ensures r.Some? <==> exists i :: 0 <= i < |ms| && ms[i].key == key
  {
    if ms == [] then None
    else if ms[0].key == key then Some(ms[0].val)
    else MemberLookup(ms[1..], key)
  }

  // ---------------------------------------------------------------------
  // From JSON data to text

  predicate IsDigit(c: char) {
    '0' <= c <= '9'
  }

  function DigitChar(d: nat): (c: char)
    requires d < 10
    ensures IsDigit(c)
  {
    ('0' as int + d) as char
  }

  /** A lower-case hexadecimal digit. */
  function HexChar(d: nat): (c: char)
    requires d < 16
    ensures IsDigit(c) || 'a' <= c <= 'f'
  {
    if d < 10 then DigitChar(d) else ('a' as int + d - 10) as char
  }

  /** The decimal digits of `n`, without leading zeros. */
  function NatText(n: nat): (t: string)
    ensures t != [] && forall i :: 0 <= i < |t| ==> IsDigit(t[i])
  {
    if n < 10 then [DigitChar(n)] else NatText(n / 10) + [DigitChar(n % 10)]
  }

  function NumText(n: int): (t: string)
    ensures t != []
  {
    if n < 0 then "-" + NatText(-n) else NatText(n)
  }

  /** How `JSON.stringify` writes one character of a string: the two-character
      escapes for `"`, `\` and the five named control characters, `\u00xx`
      in lower-case hex for the other control characters, and the character
      itself otherwise. */
  function EscapeChar(c: char): (t: string)
    ensures t != []
  {
    if c == '"' then "\\\""
    else if c == '\\' then "\\\\"
    else if c == '\U{8}' then "\\b"
    else if c == '\U{C}' then "\\f"
    else if c == '\n' then "\\n"
    else if c == '\r' then "\\r"
    else if c == '\t' then "\\t"
    else if c < ' ' then "\\u00" + [HexChar(c as int / 16), HexChar(c as int % 16)]
    else [c]
  }

  function Escape(s: string): (t: string)
  {
    if s == [] then [] else EscapeChar(s[0]) + Escape(s[1..])
  }

  function Quote(s: string): (t: string)
  {
    "\"" + Escape(s) + "\""
  }

  /** The JSON text of `d`, without whitespace, as `JSON.stringify` writes it. */
  function Encode(d: Data): (t: string)
    ensures t != []
    decreases d
  {
    match d
    case JNull => "null"
    case JBool(b) => if b then "true" else "false"
    case JNum(n) => NumText(n)
    case JStr(s) => Quote(s)
    case JArr(xs) => "[" + EncodeItems(xs)
    case JObj(ms) => "{" + EncodeMembers(ms)
  }

  /** The elements of an array after its `[`, with the closing `]`. */
  function EncodeItems(xs: seq<Data>): (t: string)
    decreases xs
  {
    if xs == [] then "]"
    else if |xs| == 1 then Encode(xs[0]) + "]"
    else Encode(xs[0]) + "," + EncodeItems(xs[1..])
  }

  /** The members of an object after its `{`, with the closing `}`. */
  function EncodeMembers(ms: seq<Member>): (t: string)
    decreases ms
  {
    if ms == [] then "}"
    else if |ms| == 1 then EncodeMember(ms[0]) + "}"
    else EncodeMember(ms[0]) + "," + EncodeMembers(ms[1..])
  }

  /** One member: its quoted key, a colon and its value. */
  function EncodeMember(m: Member): (t: string)
    decreases m
  {
    Quote(m.key) + ":" + Encode(m.val)
  }

  /** `JSON.stringify(v)` or `JSON.stringify(v, replacer)`; None where it
      returns undefined. */
  function Stringify(v: Value, regexAsText: bool): (r: Option<string>)
  {
    match View(v, regexAsText)
    case Some(d) => Some(Encode(d))
    case None => None
  }

  // ---------------------------------------------------------------------
  // Facts about the view

  /** `JSON.stringify` produces text exactly for the values that are not undefined. */
  lemma StringifyDefined(v: Value, regexAsText: bool)
    ensures Stringify(v, regexAsText).Some? <==> v != Undefined
  {
  }

  /** With the replacer, a RegExp is written exactly like the string that displays it. */
  lemma RegexLikeItsText(source: string, flags: string)
    ensures Stringify(Regex(source, flags), true) == Stringify(Str(RegexText(source, flags)), true)
  {
  }

  /** Without a replacer, every RegExp is written as `{}`. */
  lemma RegexWithoutReplacer(s1: string, f1: string, s2: string, f2: string)
    ensures Stringify(Regex(s1, f1), false) == Stringify(Regex(s2, f2), false) == Some("{}")
  {
    assert View(Regex(s1, f1), false) == Some(JObj([]));
    assert EncodeMembers([]) == "}";
    assert Encode(JObj([])) == "{}";
  }

  /** `String(re)` tells RegExps apart: flags never contain `/`, so the last
      `/` separates the source from the flags. */
  lemma {:induction false} RegexTextInjective(s1: string, f1: string, s2: string, f2: string)
    requires '/' !in f1 && '/' !in f2
    requires RegexText(s1, f1) == RegexText(s2, f2)
    ensures s1 == s2 && f1 == f2
  {
    var t := RegexText(s1, f1);
    assert |s1| == |s2|;
    assert s1 == t[1..|s1| + 1] == s2;
    assert f1 == t[|s1| + 2..] == f2;
  }

  /** A property whose value writes nothing is dropped from its object. */
  lemma {:induction false} UndefinedPropVanishes(ps: seq<Prop>, n: string, regexAsText: bool)
    ensures View(Obj(ps + [Prop(n, Undefined)]), regexAsText) == View(Obj(ps), regexAsText)
    decreases ps
  {
    if ps == [] {
      assert ps + [Prop(n, Undefined)] == [Prop(n, Undefined)];
      assert ViewProps([Prop(n, Undefined)], regexAsText) == [];
    } else {
      assert (ps + [Prop(n, Undefined)])[1..] == ps[1..] + [Prop(n, Undefined)];
      UndefinedPropVanishes(ps[1..], n, regexAsText);
    }
  }

  /** In an object with distinct names, the member written under `n` is the
      view of the property called `n`. */
  lemma {:induction false} MemberLookupViewProps(ps: seq<Prop>, n: string, regexAsText: bool)
    requires DistinctNames(ps)
    ensures MemberLookup(ViewProps(ps, regexAsText), n) == View(Lookup(ps, n), regexAsText)
    decreases ps
  {
    if ps != [] {
      assert DistinctNames(ps[1..]) by {
        forall i, j | 0 <= i < j < |ps[1..]| ensures ps[1..][i].name != ps[1..][j].name {
          assert ps[1..][i] == ps[i + 1] && ps[1..][j] == ps[j + 1];
        }
      }
      MemberLookupViewProps(ps[1..], n, regexAsText);
      if ps[0].name == n {
        assert forall i :: 0 <= i < |ps[1..]| ==> ps[1..][i].name != n by {
          forall i | 0 <= i < |ps[1..]| ensures ps[1..][i].name != n {
            assert ps[1..][i] == ps[i + 1];
          }
        }
        assert Lookup(ps[1..], n) == Undefined;
      }
    }
  }

  /** Two property lists with the same names, in the same order, whose values
      view alike one by one, view alike. */
  lemma {:induction false} ViewPropsPointwise(ps: seq<Prop>, qs: seq<Prop>, regexAsText: bool)
    requires Names(ps) == Names(qs)
    requires forall k :: 0 <= k < |ps| ==> View(ps[k].val, regexAsText) == View(qs[k].val, regexAsText)
    ensures ViewProps(ps, regexAsText) == ViewProps(qs, regexAsText)
    decreases ps
  {
    if ps != [] {
      assert Names(ps[1..]) == Names(qs[1..]) by {
        assert Names(ps) == [ps[0].name] + Names(ps[1..]);
        assert Names(qs) == [qs[0].name] + Names(qs[1..]);
      }
      assert ps[0].name == qs[0].name by {
        assert Names(ps)[0] == ps[0].name && Names(qs)[0] == qs[0].name;
      }
      forall k | 0 <= k < |ps[1..]|
        ensures View(ps[1..][k].val, regexAsText) == View(qs[1..][k].val, regexAsText)
      {
        assert ps[1..][k] == ps[k + 1] && qs[1..][k] == qs[k + 1];
      }
      ViewPropsPointwise(ps[1..], qs[1..], regexAsText);
    }
  }
}

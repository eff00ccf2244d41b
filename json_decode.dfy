/** Reading JSON text back into JSON data. The parser accepts at least
    everything Encode writes and returns the data it was written from, so
    Encode, and with it `JSON.stringify` on JSON data, loses nothing. */
module JsonDecode {
  import opened Json
  import opened JsonText

  function DigitValue(c: char): (d: nat)
    requires IsDigit(c)
    ensures d < 10
  {
    c as int - '0' as int
  }

  predicate IsHex(c: char) {
    IsDigit(c) || 'a' <= c <= 'f'
  }

  function HexValue(c: char): (d: nat)
    requires IsHex(c)
    ensures d < 16
  {
    if IsDigit(c) then DigitValue(c) else c as int - 'a' as int + 10
  }

  /** The length of the longest prefix of `s` made of decimal digits. */
  function DigitRun(s: string): (k: nat)
    ensures k <= |s|
    ensures forall i :: 0 <= i < k ==> IsDigit(s[i])
    ensures k < |s| ==> !IsDigit(s[k])
  {
    if s == [] || !IsDigit(s[0]) then 0 else 1 + DigitRun(s[1..])
  }

  /** The number a string of decimal digits denotes. */
  function DigitsValue(ds: string): nat
    requires forall i :: 0 <= i < |ds| ==> IsDigit(ds[i])
  {
    if ds == [] then 0 else DigitsValue(ds[..|ds| - 1]) * 10 + DigitValue(ds[|ds| - 1])
  }

  /** A natural number at the start of `s` and what follows it. */
  function ParseNat(s: string): (r: Option<(nat, string)>)
    ensures r.Some? ==> |r.value.1| < |s|
  {
    var k := DigitRun(s);
    if k == 0 then None else Some((DigitsValue(s[..k]), s[k..]))
  }

  /** The character an escape sequence stands for, given the text after its
      backslash, and the number of characters of that text it uses. */
  function Unescape(s: string): (r: Option<(char, nat)>)
    ensures r.Some? ==> 1 <= r.value.1 <= |s|
  {
    if s == [] then None
    else if s[0] == '"' then Some(('"', 1))
    else if s[0] == '\\' then Some(('\\', 1))
    else if s[0] == 'b' then Some(('\U{8}', 1))
    else if s[0] == 'f' then Some(('\U{C}', 1))
    else if s[0] == 'n' then Some(('\n', 1))
    else if s[0] == 'r' then Some(('\r', 1))
    else if s[0] == 't' then Some(('\t', 1))
    else if s[0] == 'u' && |s| >= 5 && s[1] == '0' && s[2] == '0' && IsHex(s[3]) && IsHex(s[4]) then
      Some(((HexValue(s[3]) * 16 + HexValue(s[4])) as char, 5))
    else None
  }

  /** The characters of a string literal after its opening quote, and the
      text after its closing quote. */
  function ParseChars(s: string): (r: Option<(string, string)>)
    ensures r.Some? ==> |r.value.1| < |s|
    decreases |s|
  {
    if s == [] then None
    else if s[0] == '"' then Some(([], s[1..]))
    else if s[0] == '\\' then
      match Unescape(s[1..])
      case None => None
      case Some((c, k)) =>
        match ParseChars(s[1 + k..])
        case None => None
        case Some((cs, rest)) => Some(([c] + cs, rest))
    else
      match ParseChars(s[1..])
      case None => None
      case Some((cs, rest)) => Some(([s[0]] + cs, rest))
  }

  /** One JSON value at the start of `s` and the text after it. */
  function ParseValue(s: string): (r: Option<(Data, string)>)
    ensures r.Some? ==> |r.value.1| < |s|
    decreases |s|, 1
  {
    if s == [] then None
    else if s[0] == 'n' then (if |s| >= 4 && s[..4] == "null" then Some((JNull, s[4..])) else None)
    else if s[0] == 't' then (if |s| >= 4 && s[..4] == "true" then Some((JBool(true), s[4..])) else None)
    else if s[0] == 'f' then (if |s| >= 5 && s[..5] == "false" then Some((JBool(false), s[5..])) else None)
    else if s[0] == '"' then
      match ParseChars(s[1..])
      case None => None
      case Some((cs, rest)) => Some((JStr(cs), rest))
    else if s[0] == '[' then
      match ParseItems(s[1..])
      case None => None
      case Some((xs, rest)) => Some((JArr(xs), rest))
    else if s[0] == '{' then
      match ParseMembers(s[1..])
      case None => None
      case Some((ms, rest)) => Some((JObj(ms), rest))
    else if s[0] == '-' then
      match ParseNat(s[1..])
      case None => None
      case Some((n, rest)) => Some((JNum(-(n as int)), rest))
    else
      match ParseNat(s)
      case None => None
      case Some((n, rest)) => Some((JNum(n), rest))
  }

  /** The elements of an array after its `[`, and the text after its `]`. */
  function ParseItems(s: string): (r: Option<(seq<Data>, string)>)
    ensures r.Some? ==> |r.value.1| < |s|
    decreases |s|, 2
  {
    if s != [] && s[0] == ']' then Some(([], s[1..]))
    else
      match ParseValue(s)
      case None => None
      case Some((x, rest)) =>
        if rest != [] && rest[0] == ']' then Some(([x], rest[1..]))
        else if rest != [] && rest[0] == ',' then
          match ParseItems(rest[1..])
          case None => None
          case Some((xs, rest')) => Some(([x] + xs, rest'))
        else None
  }

  /** The members of an object after its `{`, and the text after its `}`. */
  function ParseMembers(s: string): (r: Option<(seq<Member>, string)>)
    ensures r.Some? ==> |r.value.1| < |s|
    decreases |s|, 3
  {
    if s != [] && s[0] == '}' then Some(([], s[1..]))
    else
      match ParseMember(s)
      case None => None
      case Some((m, rest)) =>
        if rest != [] && rest[0] == '}' then Some(([m], rest[1..]))
        else if rest != [] && rest[0] == ',' then
          match ParseMembers(rest[1..])
          case None => None
          case Some((ms, rest')) => Some(([m] + ms, rest'))
        else None
  }

  /** One `"key":value` member and the text after it. */
  function ParseMember(s: string): (r: Option<(Member, string)>)
    ensures r.Some? ==> |r.value.1| < |s|
    decreases |s|, 2
  {
    if s != [] && s[0] == '"' then
      match ParseChars(s[1..])
      case None => None
      case Some((k, rest)) =>
        if rest != [] && rest[0] == ':' then
          match ParseValue(rest[1..])
          case None => None
          case Some((v, rest')) => Some((Member(k, v), rest'))
        else None
    else None
  }

  /** The whole of `s` as one JSON value. */
  function Decode(s: string): (r: Option<Data>)
  {
    match ParseValue(s)
    case Some((d, rest)) => if rest == [] then Some(d) else None
    case None => None
  }

  // ---------------------------------------------------------------------
  // Round trips

  /** Text that cannot continue a number. */
  predicate NoDigitAhead(rest: string) {
    rest == [] || !IsDigit(rest[0])
  }

  lemma {:induction false} DigitsValueNatText(n: nat)
    ensures DigitsValue(NatText(n)) == n
    decreases n
  {
    if n >= 10 {
      var t := NatText(n);
      DigitsValueNatText(n / 10);
      assert t[..|t| - 1] == NatText(n / 10);
    }
  }

  lemma {:induction false} DigitRunExact(s: string, k: nat)
    requires k <= |s|
    requires forall i :: 0 <= i < k ==> IsDigit(s[i])
    requires k < |s| ==> !IsDigit(s[k])
    ensures DigitRun(s) == k
    decreases k
  {
    if k > 0 {
      DigitRunExact(s[1..], k - 1);
    }
  }

  lemma ParseNatText(n: nat, rest: string)
    requires NoDigitAhead(rest)
    ensures ParseNat(NatText(n) + rest) == Some((n, rest))
  {
    var t := NatText(n);
    var s := t + rest;
    assert forall i :: 0 <= i < |t| ==> s[i] == t[i];
    DigitRunExact(s, |t|);
    assert s[..|t|] == t && s[|t|..] == rest;
    DigitsValueNatText(n);
  }

  lemma HexRoundTrip(d: nat)
    requires d < 16
    ensures IsHex(HexChar(d)) && HexValue(HexChar(d)) == d
  {
  }

  /** An escape sequence, written after a backslash, is read back as the
      character it stands for. */
  lemma EscapedRoundTrip(c: char, u: string, t: string)
    requires EscapeChar(c) == "\\" + u
    requires Unescape(u + t) == Some((c, |u|))
    ensures ParseChars(EscapeChar(c) + t) ==
      match ParseChars(t)
      case None => None
      case Some((cs, rest)) => Some(([c] + cs, rest))
  {
    var s := EscapeChar(c) + t;
    assert s[1..] == u + t;
    assert s[1 + |u|..] == t;
  }

  /** Reading an escaped character back. */
  lemma EscapeCharRoundTrip(c: char, t: string)
    ensures ParseChars(EscapeChar(c) + t) ==
      match ParseChars(t)
      case None => None
      case Some((cs, rest)) => Some(([c] + cs, rest))
  {
    if c == '"' {
      EscapedRoundTrip(c, "\"", t);
    } else if c == '\\' {
      EscapedRoundTrip(c, "\\", t);
    } else if c == '\U{8}' {
      EscapedRoundTrip(c, "b", t);
    } else if c == '\U{C}' {
      EscapedRoundTrip(c, "f", t);
    } else if c == '\n' {
      EscapedRoundTrip(c, "n", t);
    } else if c == '\r' {
      EscapedRoundTrip(c, "r", t);
    } else if c == '\t' {
      EscapedRoundTrip(c, "t", t);
    } else if c < ' ' {
      ControlRoundTrip(c, t);
    } else {
      assert (EscapeChar(c) + t)[1..] == t;
    }
  }

  lemma ControlRoundTrip(c: char, t: string)
    requires c < ' ' && c != '\U{8}' && c != '\U{C}' && c != '\n' && c != '\r' && c != '\t'
    ensures ParseChars(EscapeChar(c) + t) ==
      match ParseChars(t)
      case None => None
      case Some((cs, rest)) => Some(([c] + cs, rest))
  {
    var hi := c as int / 16;
    var lo := c as int % 16;
    HexRoundTrip(hi);
    HexRoundTrip(lo);
    var u := ['u', '0', '0', HexChar(hi), HexChar(lo)];
    assert EscapeChar(c) == "\\" + u;
    assert (u + t)[..5] == u;
    EscapedRoundTrip(c, u, t);
  }

  lemma {:induction false} QuoteRoundTrip(str: string, rest: string)
    ensures ParseChars(Escape(str) + "\"" + rest) == Some((str, rest))
    decreases str
  {
    if str == [] {
      assert Escape(str) + "\"" + rest == "\"" + rest;
    } else {
      QuoteRoundTrip(str[1..], rest);
      EscapeCharRoundTrip(str[0], Escape(str[1..]) + "\"" + rest);
      assert Escape(str) + "\"" + rest == EscapeChar(str[0]) + (Escape(str[1..]) + "\"" + rest);
      assert [str[0]] + str[1..] == str;
    }
  }

  /** The first character of an encoding never closes or continues a list. */
  lemma EncodeStart(d: Data)
    ensures Encode(d)[0] != ']' && Encode(d)[0] != '}' && Encode(d)[0] != ','
  {
    if d.JNum? && d.n >= 0 {
      assert IsDigit(NatText(d.n)[0]);
    }
  }

  /** Encode is undone by ParseValue, whatever non-digit text follows. */
  lemma {:induction false} DecodeEncode(d: Data, rest: string)
    requires NoDigitAhead(rest)
    ensures ParseValue(Encode(d) + rest) == Some((d, rest))
    decreases d, 2
  {
    match d
    case JArr(xs) =>
      DecodeEncodeItems(xs, rest);
      DecodeArr(xs, rest);
    case JObj(ms) =>
      DecodeEncodeMembers(ms, rest);
      DecodeObj(ms, rest);
    case _ => DecodeScalar(d, rest);
  }

  lemma DecodeScalar(d: Data, rest: string)
    requires NoDigitAhead(rest)
    requires !d.JArr? && !d.JObj?
    ensures ParseValue(Encode(d) + rest) == Some((d, rest))
  {
    match d
    case JNull => DecodeWord("null", JNull, rest);
    case JBool(b) =>
      if b {
        DecodeWord("true", d, rest);
      } else {
        DecodeWord("false", d, rest);
      }
    case JNum(n) => DecodeNum(n, rest);
    case JStr(str) => DecodeStr(str, rest);
  }

  lemma DecodeWord(w: string, d: Data, rest: string)
    requires (w, d) in {("null", JNull), ("true", JBool(true)), ("false", JBool(false))}
    ensures Encode(d) == w
    ensures ParseValue(w + rest) == Some((d, rest))
  {
    var s := w + rest;
    assert s[..|w|] == w && s[|w|..] == rest;
  }

  lemma DecodeNum(n: int, rest: string)
    requires NoDigitAhead(rest)
    ensures ParseValue(Encode(JNum(n)) + rest) == Some((JNum(n), rest))
  {
    var s := Encode(JNum(n)) + rest;
    if n < 0 {
      assert s == "-" + (NatText(-n) + rest);
      assert s[1..] == NatText(-n) + rest;
      ParseNatText(-n, rest);
      assert ParseValue(s) == match ParseNat(s[1..]) case None => None case Some((m, t)) => Some((JNum(-(m as int)), t));
    } else {
      assert s == NatText(n) + rest;
      assert IsDigit(s[0]);
      ParseNatText(n, rest);
      assert ParseValue(s) == match ParseNat(s) case None => None case Some((m, t)) => Some((JNum(m), t));
    }
  }

  lemma DecodeStr(str: string, rest: string)
    ensures ParseValue(Encode(JStr(str)) + rest) == Some((JStr(str), rest))
  {
    var s := Encode(JStr(str)) + rest;
    assert s == "\"" + (Escape(str) + "\"" + rest);
    assert s[1..] == Escape(str) + "\"" + rest;
    QuoteRoundTrip(str, rest);
    assert ParseValue(s) == match ParseChars(s[1..]) case None => None case Some((cs, t)) => Some((JStr(cs), t));
  }

  lemma DecodeArr(xs: seq<Data>, rest: string)
    requires ParseItems(EncodeItems(xs) + rest) == Some((xs, rest))
    ensures ParseValue(Encode(JArr(xs)) + rest) == Some((JArr(xs), rest))
  {
    var s := Encode(JArr(xs)) + rest;
    assert s == "[" + (EncodeItems(xs) + rest);
    assert s[1..] == EncodeItems(xs) + rest;
    assert ParseValue(s) == match ParseItems(s[1..]) case None => None case Some((xs, rest)) => Some((JArr(xs), rest));
  }

  lemma DecodeObj(ms: seq<Member>, rest: string)
    requires ParseMembers(EncodeMembers(ms) + rest) == Some((ms, rest))
    ensures ParseValue(Encode(JObj(ms)) + rest) == Some((JObj(ms), rest))
  {
    var s := Encode(JObj(ms)) + rest;
    assert s == "{" + (EncodeMembers(ms) + rest);
    assert s[1..] == EncodeMembers(ms) + rest;
    assert ParseValue(s) == match ParseMembers(s[1..]) case None => None case Some((ms, rest)) => Some((JObj(ms), rest));
  }

  lemma {:induction false} DecodeEncodeItems(xs: seq<Data>, rest: string)
    ensures ParseItems(EncodeItems(xs) + rest) == Some((xs, rest))
    decreases xs, 0
  {
    var s := EncodeItems(xs) + rest;
    if xs == [] {
      assert s == "]" + rest;
    } else if |xs| == 1 {
      EncodeStart(xs[0]);
      assert s == Encode(xs[0]) + ("]" + rest);
      DecodeEncode(xs[0], "]" + rest);
      assert [xs[0]] == xs;
    } else {
      EncodeStart(xs[0]);
      var tail := EncodeItems(xs[1..]) + rest;
      assert s == Encode(xs[0]) + ("," + tail);
      DecodeEncode(xs[0], "," + tail);
      DecodeEncodeItems(xs[1..], rest);
      assert ("," + tail)[1..] == tail;
      assert [xs[0]] + xs[1..] == xs;
    }
  }

  lemma {:induction false} DecodeEncodeMember(m: Member, rest: string)
    requires NoDigitAhead(rest)
    ensures ParseMember(EncodeMember(m) + rest) == Some((m, rest))
    decreases m, 0
  {
    var tail := Encode(m.val) + rest;
    assert EncodeMember(m) + rest == "\"" + (Escape(m.key) + "\"" + (":" + tail));
    QuoteRoundTrip(m.key, ":" + tail);
    assert (":" + tail)[1..] == tail;
    DecodeEncode(m.val, rest);
  }

  lemma {:induction false} DecodeEncodeMembers(ms: seq<Member>, rest: string)
    ensures ParseMembers(EncodeMembers(ms) + rest) == Some((ms, rest))
    decreases ms, 1
  {
    var s := EncodeMembers(ms) + rest;
    if ms == [] {
      assert s == "}" + rest;
    } else if |ms| == 1 {
      assert s == EncodeMember(ms[0]) + ("}" + rest);
      DecodeEncodeMember(ms[0], "}" + rest);
      assert [ms[0]] == ms;
    } else {
      var tail := EncodeMembers(ms[1..]) + rest;
      assert s == EncodeMember(ms[0]) + ("," + tail);
      DecodeEncodeMember(ms[0], "," + tail);
      DecodeEncodeMembers(ms[1..], rest);
      assert ("," + tail)[1..] == tail;
      assert [ms[0]] + ms[1..] == ms;
    }
  }

  /** Decode is a left inverse of Encode. */
  lemma DecodeOfEncode(d: Data)
    ensures Decode(Encode(d)) == Some(d)
  {
    DecodeEncode(d, []);
    assert Encode(d) + [] == Encode(d);
  }

  /** Distinct JSON data are written as distinct texts. */
  lemma EncodeInjective(a: Data, b: Data)
    requires Encode(a) == Encode(b)
    ensures a == b
  {
    DecodeOfEncode(a);
    DecodeOfEncode(b);
  }

  /** `JSON.stringify` gives two values the same text exactly when it sees
      the same JSON data in them. */
  lemma StringifySameIff(u: Value, v: Value, regexAsText: bool)
    ensures Stringify(u, regexAsText) == Stringify(v, regexAsText) <==> View(u, regexAsText) == View(v, regexAsText)
  {
    if Stringify(u, regexAsText) == Stringify(v, regexAsText) && u != Undefined && v != Undefined {
      EncodeInjective(View(u, regexAsText).value, View(v, regexAsText).value);
    }
  }
}

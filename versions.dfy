/** Mongoose version strings compared by number, major then minor, as the
    compare-versions package that src/index.js calls does for the versions
    that matter here. */
module Versions {
  import opened Json
  import opened JsonText
  import opened JsonDecode

  /** The major and minor numbers at the start of a version string such as
      "4.13.2"; None when it does not start with `digits.digits`. */
  function ParseVersion(v: string): (r: Option<(nat, nat)>)
  {
    match ParseNat(v)
    case None => None
    case Some((major, rest)) =>
      if rest == [] || rest[0] != '.' then None
      else
        match ParseNat(rest[1..])
        case None => None
        case Some((minor, _)) => Some((major, minor))
  }

  /** -1, 0 or 1 as the first version is older than, equal to or newer than
      the second, major first. */
  function CompareParsed(a: (nat, nat), b: (nat, nat)): (c: int)
    ensures c == -1 <==> a.0 < b.0 || (a.0 == b.0 && a.1 < b.1)
    ensures c == 0 <==> a == b
  {
    if a.0 < b.0 then -1
    else if a.0 > b.0 then 1
    else if a.1 < b.1 then -1
    else if a.1 > b.1 then 1
    else 0
  }

  /** The guard the layer means: refuse a Mongoose older than 3.7, and a
      version string that does not parse. */
  predicate NumericRejected(version: string) {
    match ParseVersion(version)
    case None => true
    case Some(p) => CompareParsed(p, (3, 7)) == -1
  }

  /** `major.minor` followed by anything that does not continue the minor
      number parses back to its two numbers. */
  lemma ParseVersionText(major: nat, minor: nat, rest: string)
    requires NoDigitAhead(rest)
    ensures ParseVersion(NatText(major) + "." + NatText(minor) + rest) == Some((major, minor))
  {
    var m := NatText(minor) + rest;
    ParseNatText(minor, rest);
    var tail := "." + m;
    assert tail[0] == '.' && tail[1..] == m;
    ParseNatText(major, tail);
    assert NatText(major) + "." + NatText(minor) + rest == NatText(major) + tail;
    ParseVersionOf(NatText(major) + tail, major, tail, minor, rest);
  }

  lemma ParseVersionOf(v: string, major: nat, tail: string, minor: nat, rest: string)
    requires ParseNat(v) == Some((major, tail))
    requires tail != [] && tail[0] == '.' && ParseNat(tail[1..]) == Some((minor, rest))
    ensures ParseVersion(v) == Some((major, minor))
  {
  }

  /** The numeric guard rejects exactly the versions below 3.7. */
  lemma NumericRejectedIff(major: nat, minor: nat, rest: string)
    requires NoDigitAhead(rest)
    ensures NumericRejected(NatText(major) + "." + NatText(minor) + rest) <==> major < 3 || (major == 3 && minor < 7)
  {
    ParseVersionText(major, minor, rest);
  }
}

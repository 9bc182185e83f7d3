/**
 * Station identifiers `st-<i>-<suffix>`: the decimal rendering of the index
 * `i` (as a template literal renders a non-negative integer) and a parser
 * that recovers the index and the suffix from an identifier.
 */
module StationIds {

  datatype Option<T> = None | Some(value: T)

  /** The character of a decimal digit. */
  function DigitChar(d: nat): (c: char)
    requires d < 10
    ensures '0' <= c <= '9'
  {
    "0123456789"[d]
  }

  /** The value of a decimal digit character, if it is one. */
  function DigitValue(c: char): (v: Option<nat>)
    ensures v.Some? <==> '0' <= c <= '9'
    ensures v.Some? ==> v.value < 10
  {
    if '0' <= c <= '9' then Some(c as int - '0' as int) else None
  }

  lemma DigitValueOfChar(d: nat)
    requires d < 10
    ensures DigitValue(DigitChar(d)) == Some(d)
  {
  }

  predicate IsDigits(s: string) {
    forall k :: 0 <= k < |s| ==> '0' <= s[k] <= '9'
  }

  /** `${n}` for a non-negative integer: its decimal digits, most significant first. */
  function NatToString(n: nat): (s: string)
    ensures |s| > 0 && IsDigits(s)
    ensures '-' !in s
  {
    if n < 10 then [DigitChar(n)] else NatToString(n / 10) + [DigitChar(n % 10)]
  }

  /** The value of a non-empty string of decimal digits; None for anything else. */
  function ParseNat(s: string): (r: Option<nat>)
    ensures r.Some? <==> |s| > 0 && IsDigits(s)
  {
    if |s| == 0 then None
    else
      match DigitValue(s[|s| - 1])
      case None => None
      case Some(last) =>
        if |s| == 1 then Some(last)
        else
          match ParseNat(s[..|s| - 1])
          case None => None
          case Some(high) => Some(high * 10 + last)
  }

  /** Parsing the decimal rendering of `n` gives back `n`. */
  lemma {:induction false} ParseNatToString(n: nat)
    ensures ParseNat(NatToString(n)) == Some(n)
  {
    var s := NatToString(n);
    DigitValueOfChar(n % 10);
    if n >= 10 {
      assert s[..|s| - 1] == NatToString(n / 10);
      ParseNatToString(n / 10);
    }
  }

  /** The decimal rendering is injective. */
  lemma NatToStringInjective(m: nat, n: nat)
    requires NatToString(m) == NatToString(n)
    ensures m == n
  {
    ParseNatToString(m);
    ParseNatToString(n);
  }

  /** The position of the first `-` in `s`, if any. */
  function FirstHyphen(s: string): (r: Option<nat>)
    ensures r.None? <==> '-' !in s
    ensures r.Some? ==> r.value < |s| && s[r.value] == '-' && '-' !in s[..r.value]
  {
    if |s| == 0 then None
    else if s[0] == '-' then Some(0)
    else
      match FirstHyphen(s[1..])
      case None => None
      case Some(j) =>
        assert s[..j + 1] == [s[0]] + s[1..][..j];
        Some(j + 1)
  }

  /** The identifier of station `i`: `st-<i>-<suffix>`. */
  function StationId(i: nat, suffix: string): (id: string)
    ensures |id| == 4 + |NatToString(i)| + |suffix| && id[..3] == "st-"
    ensures id[3..3 + |NatToString(i)|] == NatToString(i)
    ensures id[3 + |NatToString(i)|] == '-'
    ensures id[4 + |NatToString(i)|..] == suffix
  {
    "st-" + NatToString(i) + "-" + suffix
  }

  /**
   * Splits an identifier into its index and suffix: it must start with
   * `st-`, then a non-empty run of digits up to the first `-` after the
   * prefix; the suffix is everything after that `-`. None otherwise.
   */
  function ParseStationId(id: string): (r: Option<(nat, string)>)
    ensures r.Some? ==> |id| > 4 && id[..3] == "st-"
  {
    if |id| < 3 || id[..3] != "st-" then None
    else
      var rest := id[3..];
      match FirstHyphen(rest)
      case None => None
      case Some(j) =>
        match ParseNat(rest[..j])
        case None => None
        case Some(i) => Some((i, rest[j + 1..]))
  }

  /** The index and suffix are recovered from every identifier, whatever the suffix holds. */
  lemma ParseStationIdRoundTrip(i: nat, suffix: string)
    ensures ParseStationId(StationId(i, suffix)) == Some((i, suffix))
  {
    var digits := NatToString(i);
    var id := StationId(i, suffix);
    var rest := id[3..];
    assert rest == digits + "-" + suffix;
    assert rest[|digits|] == '-';
    assert rest[..|digits|] == digits;
    assert FirstHyphen(rest) == Some(|digits|);
    ParseNatToString(i);
    assert rest[|digits| + 1..] == suffix;
  }

  /** Identifiers of different indices differ, whatever their suffixes. */
  lemma StationIdsDiffer(i: nat, si: string, j: nat, sj: string)
    requires i != j
    ensures StationId(i, si) != StationId(j, sj)
  {
    ParseStationIdRoundTrip(i, si);
    ParseStationIdRoundTrip(j, sj);
  }
}

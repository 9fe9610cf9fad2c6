/**
 * The base-16 conversions behind the peers collector's `peer_id` label:
 * `strconv.FormatInt(i, 16)`, which renders it, and `strconv.ParseInt(s, 16, 64)`,
 * which reads such a label back.
 */
module Strconv {
  import opened Results
  import opened Ints

  /** A digit `FormatInt` writes in base 16. */
  predicate IsLowerHexDigit(c: char) {
    '0' <= c <= '9' || 'a' <= c <= 'f'
  }

  /** The character `FormatInt` writes for the base-16 digit `d`. */
  function HexDigit(d: nat): (c: char)
    requires d < 16
    ensures IsLowerHexDigit(c)
  {
    if d < 10 then ('0' as int + d) as char else ('a' as int + (d - 10)) as char
  }

  /** The value `ParseInt` gives the character `c` in base 16; both letter cases are accepted. */
  function DigitValue(c: char): (r: Option<nat>)
    ensures r.Some? ==> r.value < 16
  {
    if '0' <= c <= '9' then Some(c as int - '0' as int)
    else if 'a' <= c <= 'f' then Some(c as int - 'a' as int + 10)
    else if 'A' <= c <= 'F' then Some(c as int - 'A' as int + 10)
    else None
  }

  /** The base-16 digits of `n`, most significant first. */
  function FormatDigits(n: nat): (s: string)
    ensures |s| > 0
    ensures forall k :: 0 <= k < |s| ==> IsLowerHexDigit(s[k])
    ensures s[0] == '0' <==> n == 0
    ensures n == 0 ==> s == "0"
    decreases n
  {
    if n < 16 then [HexDigit(n)] else FormatDigits(n / 16) + [HexDigit(n % 16)]
  }

  /** Length of the sign `FormatInt` writes before the digits of `i`. */
  function SignWidth(i: int): nat {
    if i < 0 then 1 else 0
  }

  /**
   * `strconv.FormatInt(i, 16)`: a '-' exactly for negative values, then
   * lower-case hexadecimal digits with no leading zero, and "0" for zero.
   */
  function FormatHex(i: Int64): (s: string)
    ensures |s| > SignWidth(i)
    ensures s[0] == '-' <==> i < 0
    ensures forall k :: SignWidth(i) <= k < |s| ==> IsLowerHexDigit(s[k])
    ensures s[SignWidth(i)] == '0' <==> i == 0
    ensures i == 0 ==> s == "0"
  {
    if i < 0 then "-" + FormatDigits(-(i as int)) else FormatDigits(i)
  }

  /** The value of a non-empty run of base-16 digits; None if `s` is empty or holds a non-digit. */
  function ParseDigits(s: string): Option<nat>
    decreases |s|
  {
    if |s| == 0 then None
    else
      var last := DigitValue(s[|s| - 1]);
      if last.None? then None
      else if |s| == 1 then last
      else
        match ParseDigits(s[..|s| - 1])
        case None => None
        case Some(high) => Some(16 * high + last.value)
  }

  /**
   * `strconv.ParseInt(s, 16, 64)`: an optional sign, then base-16 digits; a
   * value outside the int64 range is refused like a malformed string.
   */
  function ParseHex(s: string): Option<Int64> {
    var negative := |s| > 0 && s[0] == '-';
    var digits := if |s| > 0 && (s[0] == '+' || s[0] == '-') then s[1..] else s;
    match ParseDigits(digits)
    case None => None
    case Some(v) =>
      if negative && v <= TwoTo63 then Some((-(v as int)) as Int64)
      else if !negative && v < TwoTo63 then Some(v as Int64)
      else None
  }

  lemma DigitRoundTrip(d: nat)
    requires d < 16
    ensures DigitValue(HexDigit(d)) == Some(d)
  {
  }

  lemma {:induction false} ParseFormatDigits(n: nat)
    ensures ParseDigits(FormatDigits(n)) == Some(n)
    decreases n
  {
    if n < 16 {
      DigitRoundTrip(n);
    } else {
      var s := FormatDigits(n);
      assert s[..|s| - 1] == FormatDigits(n / 16);
      ParseFormatDigits(n / 16);
      DigitRoundTrip(n % 16);
    }
  }

  /** Reading a rendered peer ID back in base 16 gives the ID. */
  lemma ParseFormat(i: Int64)
    ensures ParseHex(FormatHex(i)) == Some(i)
  {
    var s := FormatHex(i);
    if i < 0 {
      var d := FormatDigits(-(i as int));
      assert s[1..] == d;
      ParseFormatDigits(-(i as int));
      assert ParseDigits(s[1..]) == Some(-(i as int));
    } else {
      ParseFormatDigits(i);
      assert IsLowerHexDigit(s[0]);
      assert ParseDigits(s) == Some(i as nat);
    }
  }

  /** Distinct IDs are rendered as distinct labels. */
  lemma FormatInjective(i: Int64, j: Int64)
    ensures FormatHex(i) == FormatHex(j) ==> i == j
  {
    ParseFormat(i);
    ParseFormat(j);
  }

  lemma FormatExamples()
    ensures FormatHex(7) == "7"
    ensures FormatHex(255) == "ff"
    ensures FormatHex(-255) == "-ff"
    ensures FormatHex(0) == "0"
  {
  }
}

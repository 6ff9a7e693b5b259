/** The base-10 and boolean formatting of Go's `strconv` package that the form builders use. */
module Strconv {
  import opened GoStrings

  predicate IsDigit(c: Byte) { '0' <= c <= '9' }

  /** The decimal digits of `n`, most significant first, without leading zeros ("0" for zero). */
  function Digits(n: nat): (r: Bytes)
    ensures |r| > 0 && forall i | 0 <= i < |r| :: IsDigit(r[i])
    ensures r[0] == '0' ==> n == 0 && |r| == 1
  {
    if n < 10 then ["0123456789"[n]] else Digits(n / 10) + ["0123456789"[n % 10]]
  }

  /** `strconv.FormatUint(u, 10)`. */
  function FormatUint(u: nat): (r: Bytes)
    ensures |r| > 0
  {
    Digits(u)
  }

  /** `strconv.FormatInt(i, 10)` and `strconv.Itoa(i)`: a minus sign for negatives, then the digits. */
  function FormatInt(i: int): (r: Bytes)
    ensures |r| > 0
    ensures (r[0] == '-') <==> i < 0
  {
    if i < 0 then "-" + Digits(-i) else Digits(i)
  }

  /** `strconv.FormatBool`. */
  function FormatBool(b: bool): (r: Bytes)
    ensures r == "true" || r == "false"
    ensures r == "true" <==> b
  {
    if b then "true" else "false"
  }

  /** The value of a string of decimal digits: the reference reading of `Digits`. */
  function DigitsValue(s: Bytes): (n: nat)
    requires forall i | 0 <= i < |s| :: IsDigit(s[i])
  {
    if |s| == 0 then 0
    else
      assert IsDigit(s[|s| - 1]);
      DigitsValue(s[..|s| - 1]) * 10 + (s[|s| - 1] as int - '0' as int)
  }

  /** The value of an optionally signed decimal numeral. */
  function DecimalValue(s: Bytes): int
    requires |s| > 0
    requires forall i | 0 < i < |s| :: IsDigit(s[i])
    requires s[0] == '-' || IsDigit(s[0])
  {
    if s[0] == '-' then -(DigitsValue(s[1..]) as int) else DigitsValue(s)
  }

  lemma {:induction false} DigitsRoundTrip(n: nat)
    ensures DigitsValue(Digits(n)) == n
  {
    if n >= 10 {
      var d := Digits(n);
      DigitsRoundTrip(n / 10);
      assert d[..|d| - 1] == Digits(n / 10);
    }
  }

  /** `FormatInt` writes `i` in base 10: reading the numeral back gives `i`. */
  lemma FormatIntRoundTrip(i: int)
    ensures var s := FormatInt(i);
      (forall k | 0 < k < |s| :: IsDigit(s[k])) && (s[0] == '-' || IsDigit(s[0])) && DecimalValue(s) == i
  {
    var s := FormatInt(i);
    if i < 0 {
      DigitsRoundTrip(-i);
      assert s[1..] == Digits(-i);
    } else {
      DigitsRoundTrip(i);
    }
  }

  /** `FormatUint` writes `u` in base 10. */
  lemma FormatUintRoundTrip(u: nat)
    ensures DigitsValue(FormatUint(u)) == u
  {
    DigitsRoundTrip(u);
  }
}

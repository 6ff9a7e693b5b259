/**
 * Go strings as byte strings, and the parts of Go's `strings` package and
 * string ordering that the codec relies on.
 *
 * A Go string is a sequence of bytes. Each byte is represented by the
 * character with the same code (below 256), so that the source's ASCII
 * literals read as themselves.
 */
module GoStrings {

  type Byte = c: char | c as int < 256
  type Bytes = seq<Byte>

  predicate IsAscii(s: Bytes) {
    forall i | 0 <= i < |s| :: s[i] as int < 128
  }

  predicate IsUpperLetter(c: Byte) { 'A' <= c <= 'Z' }

  predicate IsLowerLetter(c: Byte) { 'a' <= c <= 'z' }

  function LowerByte(c: Byte): Byte {
    if IsUpperLetter(c) then (c as int + 32) as char else c
  }

  function UpperByte(c: Byte): Byte {
    if IsLowerLetter(c) then (c as int - 32) as char else c
  }

  /**
   * `strings.ToLower` on an ASCII string: every upper-case letter becomes
   * its lower-case letter and every other byte is kept.
   */
  function ToLower(s: Bytes): (r: Bytes)
    requires IsAscii(s)
    ensures |r| == |s| && IsAscii(r)
    ensures forall i | 0 <= i < |r| :: !IsUpperLetter(r[i])
    ensures forall i | 0 <= i < |s| :: !IsUpperLetter(s[i]) ==> r[i] == s[i]
    ensures forall i | 0 <= i < |s| :: IsUpperLetter(s[i]) ==> r[i] as int == s[i] as int + 32
  {
    seq(|s|, i requires 0 <= i < |s| => LowerByte(s[i]))
  }

  /**
   * `strings.ToUpper` on an ASCII string: every lower-case letter becomes
   * its upper-case letter and every other byte is kept.
   */
  function ToUpper(s: Bytes): (r: Bytes)
    requires IsAscii(s)
    ensures |r| == |s| && IsAscii(r)
    ensures forall i | 0 <= i < |r| :: !IsLowerLetter(r[i])
    ensures forall i | 0 <= i < |s| :: !IsLowerLetter(s[i]) ==> r[i] == s[i]
    ensures forall i | 0 <= i < |s| :: IsLowerLetter(s[i]) ==> r[i] as int == s[i] as int - 32
  {
    seq(|s|, i requires 0 <= i < |s| => UpperByte(s[i]))
  }

  /** `strings.Repeat` of a one-byte string. */
  function Repeat(b: Byte, n: nat): (r: Bytes)
    ensures |r| == n && forall i | 0 <= i < n :: r[i] == b
  {
    seq(n, _ => b)
  }

  /** `strings.TrimSuffix`: drops `suffix` once from the end of `s` when `s` ends with it. */
  function TrimSuffix(s: Bytes, suffix: Bytes): (r: Bytes)
    ensures |suffix| <= |s| && s[|s| - |suffix|..] == suffix ==> s == r + suffix
    ensures !(|suffix| <= |s| && s[|s| - |suffix|..] == suffix) ==> r == s
  {
    if |suffix| <= |s| && s[|s| - |suffix|..] == suffix then s[..|s| - |suffix|] else s
  }

  /** Go's `<` on strings: byte-wise lexicographic order, a proper prefix first. */
  predicate Less(a: Bytes, b: Bytes) {
    if |a| == 0 then |b| > 0
    else if |b| == 0 then false
    else if a[0] != b[0] then a[0] < b[0]
    else Less(a[1..], b[1..])
  }

  lemma {:induction false} LessIrreflexive(a: Bytes)
    ensures !Less(a, a)
  {
    if |a| > 0 { LessIrreflexive(a[1..]); }
  }

  lemma {:induction false} LessTransitive(a: Bytes, b: Bytes, c: Bytes)
    requires Less(a, b) && Less(b, c)
    ensures Less(a, c)
  {
    if |a| > 0 && |b| > 0 && |c| > 0 && a[0] == b[0] && b[0] == c[0] {
      LessTransitive(a[1..], b[1..], c[1..]);
    }
  }

  /** Any two different strings are ordered one way round. */
  lemma {:induction false} LessTotal(a: Bytes, b: Bytes)
    requires a != b
    ensures Less(a, b) || Less(b, a)
  {
    if |a| > 0 && |b| > 0 && a[0] == b[0] {
      assert a == [a[0]] + a[1..] && b == [b[0]] + b[1..];
      LessTotal(a[1..], b[1..]);
    }
  }

  lemma {:induction false} LessAsymmetric(a: Bytes, b: Bytes)
    requires Less(a, b)
    ensures !Less(b, a)
  {
    if Less(b, a) {
      LessTransitive(a, b, a);
      LessIrreflexive(a);
    }
  }
}

/**
 * The cryptographic and encoding primitives the codec calls into: SHA-256
 * (FIPS 180-4), AES in CBC mode (FIPS 197 and section 6.2 of NIST SP
 * 800-38A) and standard Base64 (section 4 of RFC 4648). They are not
 * modelled bit by bit: a `Primitives` value carries them as functions, and
 * the ghost predicates below state the facts about them that the codec's
 * proofs rely on. Hex encoding (Go's `encoding/hex`) is modelled exactly.
 */
module Crypto {
  import opened GoStrings
  import opened Wrappers

  /** `aes.BlockSize` */
  const BlockSize: nat := 16

  /** `aes.NewCipher` accepts keys of 16, 24 or 32 bytes (AES-128, AES-192, AES-256). */
  predicate ValidKeySize(n: nat) { n == 16 || n == 24 || n == 32 }

  /** A SHA-256 digest: 32 bytes. */
  type Digest = s: Bytes | |s| == 32 witness seq(32, _ => '\0')

  datatype Primitives = Primitives(
    /** `sha256.Sum256` */
    sha256: Bytes -> Digest,
    /** `cipher.NewCBCEncrypter(aes.NewCipher(key), iv).CryptBlocks` on the whole plaintext */
    cbcEncrypt: (Bytes, Bytes, Bytes) -> Bytes,
    /** `cipher.NewCBCDecrypter(aes.NewCipher(key), iv).CryptBlocks` on the whole ciphertext */
    cbcDecrypt: (Bytes, Bytes, Bytes) -> Bytes,
    /** `base64.StdEncoding.EncodeToString` */
    base64Encode: Bytes -> Bytes,
    /** `base64.StdEncoding.DecodeString`; `None` for malformed input */
    base64Decode: Bytes -> Option<Bytes>)

  /** The arguments CBC accepts without panicking: a valid key, a one-block IV, whole blocks. */
  predicate CbcDomain(key: Bytes, iv: Bytes, data: Bytes) {
    ValidKeySize(|key|) && |iv| == BlockSize && |data| % BlockSize == 0
  }

  /** `CryptBlocks` fills a buffer of the length of its source, both ways. */
  ghost predicate CbcPreservesLength(p: Primitives) {
    && (forall key, iv, data | CbcDomain(key, iv, data) :: |p.cbcEncrypt(key, iv, data)| == |data|)
    && (forall key, iv, data | CbcDomain(key, iv, data) :: |p.cbcDecrypt(key, iv, data)| == |data|)
  }

  /** CBC decryption with the same key and IV undoes CBC encryption. */
  ghost predicate CbcInverts(p: Primitives) {
    forall key, iv, data | CbcDomain(key, iv, data) ::
      p.cbcDecrypt(key, iv, p.cbcEncrypt(key, iv, data)) == data
  }

  /** Base64 decoding accepts every encoding and undoes it. */
  ghost predicate Base64Inverts(p: Primitives) {
    forall data :: p.base64Decode(p.base64Encode(data)) == Some(data)
  }

  ghost predicate Sound(p: Primitives) {
    CbcPreservesLength(p) && CbcInverts(p) && Base64Inverts(p)
  }

  predicate IsLowerHex(c: Byte) { '0' <= c <= '9' || 'a' <= c <= 'f' }

  predicate IsUpperHex(c: Byte) { '0' <= c <= '9' || 'A' <= c <= 'F' }

  /** A hex digit of either case, as `url.QueryUnescape` accepts after `%`. */
  predicate IsHex(c: Byte) { IsLowerHex(c) || IsUpperHex(c) }

  /** The lower-case hex digit for a nibble (`hextable[n]` of `encoding/hex`). */
  function LowerHexDigit(n: nat): (c: Byte)
    requires n < 16
    ensures IsLowerHex(c)
  {
    if n < 10 then ('0' as int + n) as char else ('a' as int + n - 10) as char
  }

  /** The upper-case hex digit for a nibble (`"0123456789ABCDEF"[n]` of `net/url`). */
  function UpperHexDigit(n: nat): (c: Byte)
    requires n < 16
    ensures IsUpperHex(c)
  {
    if n < 10 then ('0' as int + n) as char else ('A' as int + n - 10) as char
  }

  /**
   * The value of a hex digit of either case (`unhex` of `net/url`): the
   * nibble whose lower-case, or upper-case, digit it is.
   */
  function HexValue(c: Byte): (v: nat)
    requires IsHex(c)
    ensures v < 16
    ensures IsLowerHex(c) ==> LowerHexDigit(v) == c
    ensures IsUpperHex(c) ==> UpperHexDigit(v) == c
  {
    if '0' <= c <= '9' then c as int - '0' as int
    else if 'a' <= c <= 'f' then c as int - 'a' as int + 10
    else c as int - 'A' as int + 10
  }

  /** Each digit reads back as the nibble it was written for, in either case. */
  lemma HexDigitValue(n: nat)
    requires n < 16
    ensures HexValue(LowerHexDigit(n)) == n && HexValue(UpperHexDigit(n)) == n
  {
  }

  /** One byte as two lower-case hex digits, high nibble first, which read back as that byte. */
  function HexByte(b: Byte): (r: Bytes)
    ensures |r| == 2 && IsLowerHex(r[0]) && IsLowerHex(r[1])
    ensures HexValue(r[0]) * 16 + HexValue(r[1]) == b as int
  {
    HexDigitValue(b as int / 16);
    HexDigitValue(b as int % 16);
    [LowerHexDigit(b as int / 16), LowerHexDigit(b as int % 16)]
  }

  /** `hex.EncodeToString` (and `fmt.Sprintf("%x", …)` on a byte array). */
  function HexEncode(d: Bytes): (r: Bytes)
    ensures |r| == 2 * |d|
  {
    if |d| == 0 then [] else HexByte(d[0]) + HexEncode(d[1..])
  }

  /** Hex encoding is ASCII lower-case hex, two digits per byte, which read back as the input. */
  lemma {:induction false} HexEncodeDigits(d: Bytes)
    ensures var r := HexEncode(d);
      && IsAscii(r)
      && (forall i | 0 <= i < |r| :: IsLowerHex(r[i]))
      && (forall i | 0 <= i < |d| :: HexValue(r[2 * i]) * 16 + HexValue(r[2 * i + 1]) == d[i] as int)
  {
    if |d| > 0 {
      HexEncodeDigits(d[1..]);
      var h, rest := HexByte(d[0]), HexEncode(d[1..]);
      var r := h + rest;
      assert forall i | 2 <= i < |r| :: r[i] == rest[i - 2];
      forall i | 1 <= i < |d|
        ensures HexValue(r[2 * i]) * 16 + HexValue(r[2 * i + 1]) == d[i] as int
      {
        assert r[2 * i] == rest[2 * (i - 1)] && r[2 * i + 1] == rest[2 * (i - 1) + 1];
        assert d[i] == d[1..][i - 1];
      }
    }
  }

  /** The signature text: upper-cased hex of a digest is 64 upper-case hex digits. */
  lemma UpperHexOfDigest(d: Digest)
    ensures IsAscii(HexEncode(d))
    ensures var r := ToUpper(HexEncode(d));
      |r| == 64 && forall i | 0 <= i < |r| :: IsUpperHex(r[i])
  {
    HexEncodeDigits(d);
  }
}

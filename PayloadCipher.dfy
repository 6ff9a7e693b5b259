/**
 * `EncryptData` / `DecryptData` of pkg/helpers/helpers.go: the payload
 * cipher. Encryption form-escapes the text, pads it to whole AES blocks
 * (PKCS#7, section 6.3 of RFC 5652), encrypts it with AES-CBC and
 * Base64-encodes the result; decryption undoes the steps and reports each
 * way the input can be malformed.
 */
module PayloadCipher {
  import opened GoStrings
  import opened Wrappers
  import opened Errors
  import opened NetUrl
  import opened Crypto

  /** The number of padding bytes `blockSize - n % blockSize`: always 1 to 16, never 0. */
  function PadLength(n: nat): (p: nat)
    ensures 1 <= p <= BlockSize && (n + p) % BlockSize == 0
  {
    BlockSize - n % BlockSize
  }

  /**
   * PKCS#7 padding: `p = PadLength(|s|)` copies of the byte `p` are
   * appended, which makes the length a multiple of the block size.
   */
  function Pad(s: Bytes): (r: Bytes)
    ensures |r| == |s| + PadLength(|s|) && |r| % BlockSize == 0
    ensures r[..|s|] == s
    ensures forall i | |s| <= i < |r| :: r[i] as int == PadLength(|s|)
  {
    var p := PadLength(|s|);
    s + Repeat(p as char, p)
  }

  /** `DecryptData`'s padding check (pkg/helpers/helpers.go:147-150): the last byte counts between 1 and 16 bytes, all of them present. */
  predicate ValidPadding(d: Bytes)
    requires |d| > 0
  {
    var p := d[|d| - 1] as int;
    1 <= p <= BlockSize && p <= |d|
  }

  /**
   * Removing the padding, as `DecryptData` does (pkg/helpers/helpers.go:147-151): exactly as many trailing bytes as
   * the last byte says are dropped; the other padding bytes are not looked at.
   */
  function Unpad(d: Bytes): (r: Result<Bytes, Error>)
    requires |d| > 0
    ensures r.Ok? <==> ValidPadding(d)
    ensures r.Err? ==> r.error == InvalidPadding
    ensures r.Ok? ==> |r.value| == |d| - d[|d| - 1] as int && r.value == d[..|r.value|]
  {
    if ValidPadding(d) then Ok(d[..|d| - d[|d| - 1] as int]) else Err(InvalidPadding)
  }

  /** Removing padding undoes padding. */
  lemma UnpadPad(s: Bytes)
    ensures Unpad(Pad(s)) == Ok(s)
  {
    var r := Pad(s);
    assert r[|r| - 1] as int == PadLength(|s|);
  }

  /**
   * Only the last byte is checked: a final block ending in `b, 2` is
   * accepted and loses two bytes whatever `b` is, although PKCS#7 would
   * require `b == 2`.
   */
  lemma UnpadIgnoresOtherPaddingBytes(prefix: Bytes, b: Byte)
    ensures Unpad(prefix + [b, 2 as char]) == Ok(prefix)
  {
    var d := prefix + [b, 2 as char];
    assert d[..|d| - 2] == prefix;
  }

  /** `EncryptData` may call the CBC encrypter: with a valid key the IV must be one block (the library panics otherwise). */
  predicate EncryptionDefined(hashKey: Bytes, hashIV: Bytes) {
    ValidKeySize(|hashKey|) ==> |hashIV| == BlockSize
  }

  /**
   * `EncryptData`: fails exactly when the key has no AES size, with that
   * size; otherwise returns the Base64 text of the CBC encryption of the
   * padded, escaped data.
   */
  function EncryptData(p: Primitives, data: Bytes, hashKey: Bytes, hashIV: Bytes): (r: Result<Bytes, Error>)
    requires EncryptionDefined(hashKey, hashIV)
    ensures r.Err? <==> !ValidKeySize(|hashKey|)
    ensures r.Err? ==> r.error == KeySizeError(|hashKey|)
    ensures r.Ok? ==>
      r.value == p.base64Encode(p.cbcEncrypt(hashKey, hashIV, Pad(QueryEscape(data))))
  {
    var urlEncodedData := QueryEscape(data);
    if !ValidKeySize(|hashKey|) then Err(KeySizeError(|hashKey|))
    else
      var padded := Pad(urlEncodedData);
      var ciphertext := p.cbcEncrypt(hashKey, hashIV, padded);
      Ok(p.base64Encode(ciphertext))
  }

  /**
   * `DecryptData` reaches the CBC decrypter only with a one-block IV and a
   * whole number of blocks (the library panics otherwise): the condition on
   * the caller's input under which the model is defined.
   */
  predicate DecryptionDefined(p: Primitives, encryptData: Bytes, hashKey: Bytes, hashIV: Bytes) {
    match p.base64Decode(encryptData)
    case None => true
    case Some(encrypted) =>
      ValidKeySize(|hashKey|) && |encrypted| >= BlockSize ==>
        |hashIV| == BlockSize && |encrypted| % BlockSize == 0
  }

  /** The decrypted, still padded bytes, when decryption gets that far. */
  function Decrypted(p: Primitives, encrypted: Bytes, hashKey: Bytes, hashIV: Bytes): (d: Bytes)
    requires CbcPreservesLength(p)
    requires ValidKeySize(|hashKey|) && |hashIV| == BlockSize
    requires |encrypted| >= BlockSize && |encrypted| % BlockSize == 0
    ensures |d| == |encrypted|
  {
    p.cbcDecrypt(hashKey, hashIV, encrypted)
  }

  /**
   * `DecryptData`. The errors, in the order the source checks them:
   * malformed Base64; a key of no AES size; fewer than 16 decoded bytes;
   * a bad last padding byte; a malformed `%` escape in the unpadded text.
   */
  function DecryptData(p: Primitives, encryptData: Bytes, hashKey: Bytes, hashIV: Bytes): (r: Result<Bytes, Error>)
    requires CbcPreservesLength(p)
    requires DecryptionDefined(p, encryptData, hashKey, hashIV)
    ensures p.base64Decode(encryptData).None? <==> r == Err(CorruptBase64)
    ensures r == Err(KeySizeError(|hashKey|)) <==>
      p.base64Decode(encryptData).Some? && !ValidKeySize(|hashKey|)
    ensures r == Err(CiphertextTooShort) <==>
      && p.base64Decode(encryptData).Some? && ValidKeySize(|hashKey|)
      && |p.base64Decode(encryptData).value| < BlockSize
    ensures r == Err(InvalidPadding) <==>
      && p.base64Decode(encryptData).Some? && ValidKeySize(|hashKey|)
      && |p.base64Decode(encryptData).value| >= BlockSize
      && !ValidPadding(Decrypted(p, p.base64Decode(encryptData).value, hashKey, hashIV))
    ensures r.Ok? || r.error.EscapeError? ==>
      && p.base64Decode(encryptData).Some? && ValidKeySize(|hashKey|)
      && |p.base64Decode(encryptData).value| >= BlockSize
      && var d := Decrypted(p, p.base64Decode(encryptData).value, hashKey, hashIV);
         ValidPadding(d) && r == QueryUnescape(d[..|d| - d[|d| - 1] as int])
    ensures && p.base64Decode(encryptData).Some? && ValidKeySize(|hashKey|)
            && |p.base64Decode(encryptData).value| >= BlockSize
            && ValidPadding(Decrypted(p, p.base64Decode(encryptData).value, hashKey, hashIV)) ==>
      var d := Decrypted(p, p.base64Decode(encryptData).value, hashKey, hashIV);
      r == QueryUnescape(d[..|d| - d[|d| - 1] as int])
  {
    match p.base64Decode(encryptData)
    case None => Err(CorruptBase64)
    case Some(encryptedData) =>
      if !ValidKeySize(|hashKey|) then Err(KeySizeError(|hashKey|))
      else if |encryptedData| < BlockSize then Err(CiphertextTooShort)
      else
        var decryptedData := Decrypted(p, encryptedData, hashKey, hashIV);
        match Unpad(decryptedData)
        case Err(e) => Err(e)
        case Ok(unpadded) => QueryUnescape(unpadded)
  }

  /**
   * The round trip: with a valid key and a one-block IV, encryption
   * succeeds and decrypting its output gives back the original data.
   */
  lemma DecryptEncrypt(p: Primitives, data: Bytes, hashKey: Bytes, hashIV: Bytes)
    requires Sound(p)
    requires ValidKeySize(|hashKey|) && |hashIV| == BlockSize
    ensures EncryptData(p, data, hashKey, hashIV).Ok?
    ensures DecryptionDefined(p, EncryptData(p, data, hashKey, hashIV).value, hashKey, hashIV)
    ensures DecryptData(p, EncryptData(p, data, hashKey, hashIV).value, hashKey, hashIV) == Ok(data)
  {
    var escaped := QueryEscape(data);
    var padded := Pad(escaped);
    var ciphertext := p.cbcEncrypt(hashKey, hashIV, padded);
    assert CbcDomain(hashKey, hashIV, padded);
    assert p.base64Decode(p.base64Encode(ciphertext)) == Some(ciphertext);
    assert p.cbcDecrypt(hashKey, hashIV, ciphertext) == padded;
    UnpadPad(escaped);
    UnescapeEscape(data);
  }
}

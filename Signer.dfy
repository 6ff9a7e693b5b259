/**
 * The CheckMacValue signature: its specification, the generator of
 * pkg/helpers/helpers.go, and the specification of the two response
 * validators.
 *
 * The signature of parameters `values` under the secret pair
 * (`hashKey`, `hashIV`) is
 *   upper(hex(sha256(lower(QueryEscape("HashKey=" + hashKey + "&" + J + "&HashIV=" + hashIV)))))
 * where J joins `key=Get(key)` with `&` over the keys in byte-wise order.
 */
module Signer {
  import opened GoStrings
  import opened Wrappers
  import opened Errors
  import opened NetUrl
  import opened Sorting
  import opened Crypto

  /** The reserved key that carries the signature. */
  const CheckMacKey: Bytes := "CheckMacValue"

  /** `key=value` for one key, the value being `Get(key)`. */
  function Pair(values: Values, key: Bytes): Bytes {
    key + "=" + Get(values, key)
  }

  /** The pairs of `keys`, separated by `&`, with no trailing separator. */
  function Join(values: Values, keys: seq<Bytes>): Bytes {
    if |keys| == 0 then []
    else if |keys| == 1 then Pair(values, keys[0])
    else Join(values, keys[..|keys| - 1]) + "&" + Pair(values, keys[|keys| - 1])
  }

  /** What the generators' loops build: every pair followed by `&`. */
  function Trailing(values: Values, keys: seq<Bytes>): Bytes {
    if |keys| == 0 then [] else Trailing(values, keys[..|keys| - 1]) + Pair(values, keys[|keys| - 1]) + "&"
  }

  /** Trimming the final `&` from what the loops build gives the joined pairs. */
  lemma {:induction false} TrimTrailing(values: Values, keys: seq<Bytes>)
    ensures |keys| > 0 ==> Trailing(values, keys) == Join(values, keys) + "&"
    ensures TrimSuffix(Trailing(values, keys), "&") == Join(values, keys)
  {
    var t := Trailing(values, keys);
    if |keys| == 1 {
      assert keys[..0] == [];
      assert Trailing(values, keys[..0]) == [];
      assert t == [] + Pair(values, keys[0]) + "&";
    } else if |keys| > 1 {
      var prefix, last := keys[..|keys| - 1], keys[|keys| - 1];
      TrimTrailing(values, prefix);
      assert t == (Join(values, prefix) + "&") + Pair(values, last) + "&";
      assert Join(values, keys) == Join(values, prefix) + "&" + Pair(values, last);
    }
    if |keys| > 0 {
      assert t[|t| - 1..] == "&";
    }
  }

  /** One `+=` of the generators' loops appends the next pair and `&`. */
  lemma TrailingStep(values: Values, keys: seq<Bytes>, i: nat)
    requires i < |keys|
    ensures Trailing(values, keys[..i + 1]) == Trailing(values, keys[..i]) + keys[i] + "=" + Get(values, keys[i]) + "&"
  {
    assert keys[..i + 1][..i] == keys[..i];
  }

  /** The string that is escaped, lower-cased and hashed. */
  ghost function PreImage(values: Values, hashKey: Bytes, hashIV: Bytes): Bytes {
    "HashKey=" + hashKey + "&" + Join(values, SortedKeys(values.Keys)) + "&HashIV=" + hashIV
  }

  /** The CheckMacValue of `values` under (`hashKey`, `hashIV`). */
  ghost function CheckMac(sha256: Bytes -> Digest, values: Values, hashKey: Bytes, hashIV: Bytes): (r: Bytes)
    ensures |r| == 64 && forall i | 0 <= i < |r| :: IsUpperHex(r[i])
  {
    var digest := sha256(ToLower(QueryEscape(PreImage(values, hashKey, hashIV))));
    UpperHexOfDigest(digest);
    ToUpper(HexEncode(digest))
  }

  /** With no parameters the pre-image is `HashKey=k&&HashIV=iv`: the empty join leaves two `&` side by side. */
  lemma EmptyPreImage(hashKey: Bytes, hashIV: Bytes)
    ensures PreImage(map[], hashKey, hashIV) == "HashKey=" + hashKey + "&&HashIV=" + hashIV
  {
    assert SortedKeys({}) == [];
  }

  /**
   * The signature depends on the map only through its sorted keys: any
   * strictly sorted enumeration of the keys yields the same pre-image.
   */
  lemma PreImageOfAnySortedKeys(values: Values, keys: seq<Bytes>, hashKey: Bytes, hashIV: Bytes)
    requires StrictlySorted(keys) && Enumerates(keys, values.Keys)
    ensures PreImage(values, hashKey, hashIV) == "HashKey=" + hashKey + "&" + Join(values, keys) + "&HashIV=" + hashIV
  {
    StrictlySortedUnique(keys, SortedKeys(values.Keys));
  }

  /**
   * The step after the loop of every generator: once the keys have been
   * collected in any order and sorted, the loop's output, trimmed, is the
   * join over `SortedKeys`.
   */
  lemma SortedJoin(values: Values, collected: seq<Bytes>, keys: seq<Bytes>)
    requires Enumerates(collected, values.Keys) && Distinct(collected)
    requires Sorted(keys) && multiset(keys) == multiset(collected)
    ensures keys == SortedKeys(values.Keys)
    ensures TrimSuffix(Trailing(values, keys), "&") == Join(values, SortedKeys(values.Keys))
  {
    SortedCollectedKeys(collected, keys, values.Keys);
    TrimTrailing(values, keys);
  }

  /** `GenerateCheckMacValue` of pkg/helpers/helpers.go. */
  method GenerateCheckMacValue(sha256: Bytes -> Digest, values: Values, hashKey: Bytes, hashIV: Bytes)
    returns (checkMacValue: Bytes)
    ensures checkMacValue == CheckMac(sha256, values, hashKey, hashIV)
  {
    var collected := CollectKeys(values);
    var keys := SortStrings(collected);

    var sortedQueryString: Bytes := [];
    for i := 0 to |keys|
      invariant sortedQueryString == Trailing(values, keys[..i])
    {
      TrailingStep(values, keys, i);
      sortedQueryString := sortedQueryString + keys[i] + "=" + Get(values, keys[i]) + "&";
    }
    assert keys[..|keys|] == keys;
    sortedQueryString := TrimSuffix(sortedQueryString, "&");
    SortedJoin(values, collected, keys);

    var encodedString := "HashKey=" + hashKey + "&" + sortedQueryString + "&HashIV=" + hashIV;
    assert encodedString == PreImage(values, hashKey, hashIV);
    encodedString := QueryEscape(encodedString);
    encodedString := ToLower(encodedString);
    var digest := sha256(encodedString);
    UpperHexOfDigest(digest);
    var hashedValue := HexEncode(digest);
    checkMacValue := ToUpper(hashedValue);
  }

  // ---------------------------------------------------------------------------
  // Validating a signed response (both ValidateCheckMacValue copies)
  // ---------------------------------------------------------------------------

  /** What a validator returns, and the caller's map as the validator leaves it. */
  datatype Verdict = Verdict(err: Option<Error>, remaining: Values)

  /**
   * A validator's effect on `values`: a missing or empty first
   * `CheckMacValue` is reported without touching the map; otherwise the key
   * and all its values are deleted from the caller's map and the first value
   * is compared byte for byte with the signature of what is left.
   */
  ghost function Verify(sha256: Bytes -> Digest, values: Values, hashKey: Bytes, hashIV: Bytes): (v: Verdict)
    ensures v.remaining == values || v.remaining == values - {CheckMacKey}
    ensures v.err == None ==> Get(values, CheckMacKey) == CheckMac(sha256, v.remaining, hashKey, hashIV) != []
  {
    var received := Get(values, CheckMacKey);
    if received == [] then Verdict(Some(MissingCheckMacValue), values)
    else
      var rest := values - {CheckMacKey};
      if CheckMac(sha256, rest, hashKey, hashIV) != received then Verdict(Some(CheckMacValueMismatch), rest)
      else Verdict(None, rest)
  }

  /** A missing (absent, or empty first value) signature is reported and the map is left as it was. */
  lemma VerifyMissing(sha256: Bytes -> Digest, values: Values, hashKey: Bytes, hashIV: Bytes)
    requires CheckMacKey !in values || values[CheckMacKey] == [] || values[CheckMacKey][0] == []
    ensures Verify(sha256, values, hashKey, hashIV) == Verdict(Some(MissingCheckMacValue), values)
  {
  }

  /**
   * Otherwise, on success and on mismatch alike, exactly the `CheckMacValue`
   * entry is removed and every other entry is kept with all its values; the
   * result is success exactly when the first received value equals the
   * recomputed signature, and a mismatch otherwise.
   */
  lemma VerifyPresent(sha256: Bytes -> Digest, values: Values, hashKey: Bytes, hashIV: Bytes)
    requires CheckMacKey in values && |values[CheckMacKey]| > 0 && values[CheckMacKey][0] != []
    ensures var v := Verify(sha256, values, hashKey, hashIV);
      && CheckMacKey !in v.remaining
      && (forall k | k != CheckMacKey :: (k in v.remaining <==> k in values))
      && (forall k | k in v.remaining :: v.remaining[k] == values[k])
      && (v.err == None <==> values[CheckMacKey][0] == CheckMac(sha256, v.remaining, hashKey, hashIV))
      && (v.err != None ==> v.err == Some(CheckMacValueMismatch))
  {
  }

  /**
   * Soundness: a map without `CheckMacValue`, signed with the same secret
   * pair, validates, and the validator leaves the original map behind
   * (whatever further values follow the signature).
   */
  lemma VerifySigned(sha256: Bytes -> Digest, values: Values, hashKey: Bytes, hashIV: Bytes, more: seq<Bytes>)
    requires CheckMacKey !in values
    ensures var signed := values[CheckMacKey := [CheckMac(sha256, values, hashKey, hashIV)] + more];
      Verify(sha256, signed, hashKey, hashIV) == Verdict(None, values)
  {
    var signed := values[CheckMacKey := [CheckMac(sha256, values, hashKey, hashIV)] + more];
    assert signed - {CheckMacKey} == values;
  }

  /**
   * The comparison is case-sensitive: the signature written in lower case
   * is rejected whenever it contains a hex letter.
   */
  lemma VerifyRejectsLowerCase(sha256: Bytes -> Digest, values: Values, hashKey: Bytes, hashIV: Bytes, i: nat)
    requires CheckMacKey !in values
    requires var sig := CheckMac(sha256, values, hashKey, hashIV); i < |sig| && IsUpperLetter(sig[i])
    ensures var sig := CheckMac(sha256, values, hashKey, hashIV);
      var signed := values[CheckMacKey := [ToLower(sig)]];
      Verify(sha256, signed, hashKey, hashIV) == Verdict(Some(CheckMacValueMismatch), values)
  {
    var sig := CheckMac(sha256, values, hashKey, hashIV);
    var signed := values[CheckMacKey := [ToLower(sig)]];
    assert ToLower(sig)[i] != sig[i];
    assert signed - {CheckMacKey} == values;
  }
}

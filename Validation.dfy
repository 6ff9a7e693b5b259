/** `ValidateCheckMacValue` of pkg/validation/validation.go. */
module Validation {
  import opened GoStrings
  import opened Wrappers
  import opened Errors
  import opened NetUrl
  import opened Crypto
  import opened Signer

  /**
   * Validates a signed response in place: the caller's map loses its
   * `CheckMacValue` entry unless that is missing, and the result says
   * whether the received value is the signature of the rest.
   */
  method ValidateCheckMacValue(sha256: Bytes -> Digest, responseValues: Form, hashKey: Bytes, hashIV: Bytes)
    returns (err: Option<Error>)
    modifies responseValues
    ensures Verdict(err, responseValues.entries) == Verify(sha256, old(responseValues.entries), hashKey, hashIV)
  {
    var receivedCheckMacValue := Get(responseValues.entries, CheckMacKey);
    if receivedCheckMacValue == [] {
      return Some(MissingCheckMacValue);
    }

    responseValues.Del(CheckMacKey);

    var expectedCheckMacValue := GenerateCheckMacValue(sha256, responseValues.entries, hashKey, hashIV);
    if expectedCheckMacValue != receivedCheckMacValue {
      return Some(CheckMacValueMismatch);
    }
    return None;
  }
}

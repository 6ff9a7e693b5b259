/** The errors the codec returns to its callers. */
module Errors {
  import opened GoStrings

  datatype Error =
    /** `aes.KeySizeError`: the key is not 16, 24 or 32 bytes long; it carries that length. */
    | KeySizeError(size: nat)
    /** `base64.CorruptInputError`: the text is not standard Base64 (the offset is not modelled). */
    | CorruptBase64
    /** `url.EscapeError`: a malformed `%` escape; it carries the at most three bytes from the `%` on. */
    | EscapeError(fragment: Bytes)
    /** "ciphertext too short" */
    | CiphertextTooShort
    /** "invalid padding" */
    | InvalidPadding
    /** "CheckMacValue is missing from the response" */
    | MissingCheckMacValue
    /** "CheckMacValue mismatch" */
    | CheckMacValueMismatch
}

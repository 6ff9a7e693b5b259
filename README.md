# ECPay request codec in Dafny

This project models the part of the ECPay Go SDK that gateway interoperability depends on, byte for byte:

- **CheckMacValue signer.** The form's keys are sorted byte-wise and joined as `key=firstValue` pairs with `&`. The result is wrapped as `HashKey=<key>&…&HashIV=<iv>` and form-escaped. It is then lower-cased, hashed with SHA-256, hex-encoded and upper-cased.
- **CheckMacValue verifier.** It reads `CheckMacValue`, removes it from the caller's form and compares the value with the recomputed signature.
- **Payload codec.** `EncryptData` and `DecryptData` apply form escaping and PKCS#7 padding (section 6.3 of RFC 5652) around AES-CBC and standard Base64 (section 4 of RFC 4648). Decryption reports each error.
- **Struct-to-form flattener.** `ReflectFormValues`/`reflectStruct` turn a tagged Go struct into `url.Values`.
- **Hand-written form builders.** `tradeToFormValues` and `logisticsToFormValues` build fixed key sets, some of them conditional.

Go strings are byte strings. They are modelled as `Bytes`, sequences of characters below 256. `url.Values` is `map<Bytes, seq<Bytes>>`. `NetUrl.Get` returns the first value or the empty string. Where the Go code mutates a caller's `url.Values`, the form is a `NetUrl.Form` object. Its `Set` replaces an entry and its `Del` removes one.

SHA-256, the AES block cipher and CBC chaining, and Base64 are not bit-modelled. They are function-valued fields of `Crypto.Primitives`, or a `sha256` parameter. The ghost predicates `CbcPreservesLength`, `CbcInverts` and `Base64Inverts` state the laws the round-trip needs: CBC keeps the length of whole blocks, decryption inverts encryption and decoding inverts encoding. Everything else is modelled concretely over bytes:

- key sorting;
- the canonical string;
- `url.QueryEscape`/`QueryUnescape`;
- ASCII case mapping;
- hex encoding;
- padding;
- decimal formatting.

Modules follow the program's structure:

- `GoStrings`, `Strconv`, `Sorting` and `NetUrl` model the Go library behaviour the core relies on.
- `Crypto` holds the abstract primitives and hex.
- `Signer` models `GenerateCheckMacValue`.
- `Validation` models `ValidateCheckMacValue`.
- `PayloadCipher` models `EncryptData`/`DecryptData`.
- `Flattener` models `reflectStruct`.
- `RootHelpers` models the root package's builders.
- `Sdk` models `sdk.GenerateCheckValue`.

The root package has private copies of `generateCheckMacValue` (helpers.go:118-158) and `ValidateCheckMacValue` (helpers.go:161-179). They are token-for-token the same as `pkg/helpers.GenerateCheckMacValue` (pkg/helpers/helpers.go:163-203) and `pkg/validation.ValidateCheckMacValue` (pkg/validation/validation.go:10-28). Each is modelled once, by `Signer.GenerateCheckMacValue` and `Validation.ValidateCheckMacValue`, and the contracts of these members cover both copies, so the copies are equal by construction.

`Sdk.GenerateCheckValue` works on a `map[string]string`. Its contract is that it returns `Signer.CheckMac` of `Sdk.Lift(m)`, the one-value form. That is the function `Signer.GenerateCheckMacValue` is proved to compute. So the third copy equals the first two on every map.

Where the code's behaviour may surprise a reader, the model follows the code:

- The validators call `Del("CheckMacValue")` on the caller's own map, on success and on mismatch alike. They do not work on a copy.
- An IV that is not 16 bytes, or a ciphertext length that is not a multiple of 16, panics inside the CBC library. It is not returned as an error, so these cases are preconditions in the model.
- `DecryptData` decodes Base64 before it checks the key size. So malformed Base64 is reported even when the key is also invalid.
- Lower-casing comes after escaping, so the hex digits of `%XX` escapes are lower-cased too.

## Model

| member | source | states |
|---|---|---|
| GoStrings.ToLower | pkg/helpers/helpers.go:191 | on ASCII text: the same length, no upper-case letter left, every `A`-`Z` moved down by 32, every other byte kept |
| GoStrings.ToUpper | pkg/helpers/helpers.go:202 | on ASCII text: the same length, no lower-case letter left, every `a`-`z` moved up by 32, every other byte kept |
| GoStrings.Repeat | pkg/helpers/helpers.go:108 | `n` copies of one byte: length `n`, every byte equal to it |
| GoStrings.TrimSuffix | pkg/helpers/helpers.go:179 | if `s` ends with the suffix, the result followed by the suffix is `s`; otherwise the result is `s` unchanged |
| GoStrings.Less | pkg/helpers/helpers.go:171 | Go's `<` on strings: byte-wise lexicographic order, a proper prefix first |
| GoStrings.LessIrreflexive | pkg/helpers/helpers.go:171 | Go's byte-wise string order is irreflexive |
| GoStrings.LessTransitive | pkg/helpers/helpers.go:171 | the byte-wise order is transitive |
| GoStrings.LessTotal | pkg/helpers/helpers.go:171 | of two different strings, one is below the other |
| GoStrings.LessAsymmetric | pkg/helpers/helpers.go:171 | the byte-wise order is asymmetric |
| Strconv.Digits | pkg/helpers/helpers.go:58 | the decimal text is non-empty and all digits; it starts with `0` only for zero, which is the single digit `0` |
| Strconv.FormatUint | pkg/helpers/helpers.go:62 | the base-10 text of an unsigned value is non-empty |
| Strconv.FormatInt | helpers.go:23 | `strconv.Itoa`/`FormatInt(i, 10)` text is non-empty and starts with `-` exactly when `i < 0` |
| Strconv.FormatBool | pkg/helpers/helpers.go:69 | the text is `true` or `false`, and it is `true` exactly when the value is true |
| Strconv.DigitsRoundTrip | pkg/helpers/helpers.go:58 | reading the decimal digits back gives the number |
| Strconv.FormatIntRoundTrip | helpers.go:23 | `FormatInt` text parses back to the same signed integer, so zero is written `0` |
| Strconv.FormatUintRoundTrip | pkg/helpers/helpers.go:62 | `FormatUint` text parses back to the same value |
| Sorting.LessEqTransitive | pkg/helpers/helpers.go:171 | the non-strict byte-wise order is transitive |
| Sorting.Insert | pkg/helpers/helpers.go:171 | inserting a key adds exactly one occurrence of it |
| Sorting.InsertSorted | pkg/helpers/helpers.go:171 | inserting into a sorted list keeps it sorted |
| Sorting.SortStrings | pkg/helpers/helpers.go:171 | `sort.Strings`: the result is sorted byte-wise and is a permutation of the input |
| Sorting.CollectKeys | pkg/helpers/helpers.go:167-170 | ranging over a map yields every key exactly once, in an unspecified order |
| Sorting.PermutationDistinct | pkg/helpers/helpers.go:167-171 | a permutation of a duplicate-free list is duplicate-free and has the same elements |
| Sorting.RepeatCount | pkg/helpers/helpers.go:167-171 | a list holding the same key at two positions counts it at least twice |
| Sorting.DistinctCount | pkg/helpers/helpers.go:167-171 | a duplicate-free list holds each key at most once |
| Sorting.StrictlySortedUnique | pkg/helpers/helpers.go:171 | two strictly sorted lists with the same elements are equal, so the order of map iteration cannot matter |
| Sorting.MinimumExists | pkg/helpers/helpers.go:171 | every non-empty key set has a byte-wise least key |
| Sorting.SortedKeys | pkg/helpers/helpers.go:167-171 | the canonical key order of a key set is strictly sorted and enumerates exactly that set |
| Sorting.SortedCollectedKeys | pkg/helpers/helpers.go:167-171 | collecting the keys in any order and then sorting them gives the canonical order |
| NetUrl.Get | pkg/helpers/helpers.go:176 | `Values.Get` is the key's first value, or empty when the key is absent or has no values |
| NetUrl.Form.Set | pkg/helpers/helpers.go:54 | `Set` replaces the key's entry with the single value; every other entry is unchanged |
| NetUrl.Form.Del | pkg/validation/validation.go:18 | `Del` removes the key with all its values; every other entry is unchanged |
| NetUrl.Unreserved | pkg/helpers/helpers.go:187 | the bytes `url.QueryEscape` keeps as they are: letters, digits and `-_.~` (section 2.3 of RFC 3986) |
| NetUrl.EscapeByte | pkg/helpers/helpers.go:98 | one escaped byte is ASCII |
| NetUrl.QueryEscape | pkg/helpers/helpers.go:187 | the escaped text is ASCII, at least as long as the input, and uses only unreserved characters of section 2.3 of RFC 3986, `+` and `%` |
| NetUrl.QueryUnescape | pkg/helpers/helpers.go:154-157 | a failure is an escape error; a success is no longer than the input |
| NetUrl.WellEscaped | pkg/helpers/helpers.go:154 | the text `url.QueryUnescape` accepts: every `%` is followed by two hex digits |
| NetUrl.UnescapeOkIff | pkg/helpers/helpers.go:154-157 | `QueryUnescape` succeeds exactly on well-escaped text, so `DecryptData`'s last error is exactly a `%` not followed by two hex digits |
| NetUrl.WellEscapedDrop | pkg/helpers/helpers.go:154 | dropping a well-escaped prefix that no escape straddles keeps the verdict on the text |
| NetUrl.UnescapeEscapedByte | pkg/helpers/helpers.go:98 | unescaping one escaped byte followed by more text gives that byte followed by the rest's unescaping |
| NetUrl.UnescapeEscape | pkg/helpers/helpers.go:98 | `QueryUnescape(QueryEscape(s))` succeeds with `s` for every byte string |
| NetUrl.EscapeUnreserved | pkg/helpers/helpers.go:187 | text made only of unreserved characters is escaped to itself |
| NetUrl.EscapeAppend | pkg/helpers/helpers.go:187 | escaping distributes over concatenation |
| Crypto.ValidKeySize | pkg/helpers/helpers.go:100-103 | `aes.NewCipher` accepts exactly keys of 16, 24 or 32 bytes |
| Crypto.IsHex | pkg/helpers/helpers.go:154 | a hex digit of either case |
| Crypto.LowerHexDigit | pkg/helpers/helpers.go:197 | a nibble is written as a lower-case hex digit |
| Crypto.UpperHexDigit | pkg/helpers/helpers.go:187 | a nibble is written by escaping as an upper-case hex digit |
| Crypto.HexValue | pkg/helpers/helpers.go:154 | a hex digit's value is a nibble whose lower-case digit, or upper-case digit, is that digit, so `%2b` and `%2B` read alike |
| Crypto.HexDigitValue | pkg/helpers/helpers.go:154-197 | each lower-case and each upper-case digit reads back as the nibble it was written for |
| Crypto.HexByte | pkg/helpers/helpers.go:197 | a byte is two lower-case hex digits whose value is the byte |
| Crypto.HexEncode | pkg/helpers/helpers.go:197 | `hex.EncodeToString` doubles the length |
| Crypto.HexEncodeDigits | pkg/helpers/helpers.go:197 | every pair of output characters is the lower-case hex of the matching input byte |
| Crypto.UpperHexOfDigest | pkg/helpers/helpers.go:197-202 | the upper-cased hex of a 32-byte digest is 64 characters over `0-9A-F` |
| PayloadCipher.PadLength | pkg/helpers/helpers.go:106-107 | the padding count is between 1 and 16, and the padded length is a multiple of 16 |
| PayloadCipher.Pad | pkg/helpers/helpers.go:106-109 | PKCS#7 padding: the input is a prefix, the length grows by exactly the count to a multiple of 16, and every added byte equals the count |
| PayloadCipher.ValidPadding | pkg/helpers/helpers.go:147-150 | the last byte `p` of the decrypted text has `1 <= p <= 16` and `p <= len` |
| PayloadCipher.Unpad | pkg/helpers/helpers.go:147-151 | succeeds exactly when the last byte `p` has `1 <= p <= 16` and `p <= len`; otherwise it is "invalid padding"; a success is the prefix without the last `p` bytes |
| PayloadCipher.UnpadPad | pkg/helpers/helpers.go:106-151 | unpadding padded text gives the text back |
| PayloadCipher.UnpadIgnoresOtherPaddingBytes | pkg/helpers/helpers.go:151 | only the last byte is checked: any byte before a final `0x02` is stripped with it |
| PayloadCipher.EncryptionDefined | pkg/helpers/helpers.go:116 | the CBC encrypter is reached only with a one-block IV, the condition under which Go does not panic |
| PayloadCipher.EncryptData | pkg/helpers/helpers.go:96-121 | fails, with the key-size error, exactly when the key is not 16, 24 or 32 bytes; otherwise it is Base64 of AES-CBC over `Pad(QueryEscape(data))` |
| PayloadCipher.DecryptionDefined | pkg/helpers/helpers.go:142-144 | the CBC decrypter is reached only with a one-block IV and a whole number of blocks, the condition under which Go does not panic |
| PayloadCipher.Decrypted | pkg/helpers/helpers.go:142-144 | CBC decryption keeps the ciphertext length |
| PayloadCipher.DecryptData | pkg/helpers/helpers.go:123-160 | each error case holds exactly when its cause holds, and earlier checks win: malformed Base64, then key size, then fewer than 16 bytes, then invalid padding; once every check passes the result is `QueryUnescape` of the unpadded plaintext, and only then is it a success or an escape error |
| PayloadCipher.DecryptEncrypt | pkg/helpers/helpers.go:96-160 | with a valid key and a 16-byte IV, encryption succeeds and decrypting its output gives the data back |
| Signer.Join | pkg/helpers/helpers.go:174-179 | the `key=Get(key)` pairs of the keys, separated by `&`, with no trailing separator |
| Signer.Trailing | pkg/helpers/helpers.go:174-177 | what the loop builds: every pair followed by `&` |
| Signer.TrimTrailing | pkg/helpers/helpers.go:174-179 | the `key=value&` accumulator, with its trailing `&` trimmed, is the `&`-join of the pairs |
| Signer.TrailingStep | pkg/helpers/helpers.go:175-177 | one `+=` step of the loop extends the accumulator by the next pair and `&` |
| Signer.PreImage | pkg/helpers/helpers.go:167-183 | `HashKey=k&` + the join over the byte-wise sorted keys + `&HashIV=iv` |
| Signer.CheckMac | pkg/helpers/helpers.go:183-202 | the signature of a form is 64 characters over `0-9A-F` |
| Signer.EmptyPreImage | pkg/helpers/helpers.go:179-183 | an empty form yields the pre-image `HashKey=k&&HashIV=iv` |
| Signer.PreImageOfAnySortedKeys | pkg/helpers/helpers.go:167-183 | the pre-image is `HashKey=k&` + join + `&HashIV=iv` over any strictly sorted listing of the keys |
| Signer.SortedJoin | pkg/helpers/helpers.go:167-179 | sorting the collected keys, whatever order the map gave them in, yields the canonical order, and the trimmed accumulator is the canonical join |
| Signer.GenerateCheckMacValue | pkg/helpers/helpers.go:163-203 | the method returns `upper(hex(sha256(lower(QueryEscape(HashKey=k&J&HashIV=iv)))))`, with `J` the `&`-join of `key=Get(key)` over byte-wise sorted keys, independent of iteration order; the root copy at helpers.go:118-158 is the same code |
| Signer.Verify | pkg/validation/validation.go:10-28 | what both validators do: the caller's map either keeps every entry or loses exactly `CheckMacValue`, and success means the received value equals the signature of what is left |
| Signer.VerifyMissing | pkg/validation/validation.go:12-15 | when `CheckMacValue` is absent or its first value is empty, the missing error is returned and the map is left as it was |
| Signer.VerifyPresent | pkg/validation/validation.go:18-27 | otherwise exactly `CheckMacValue` is removed, with all its values, and every other entry is kept; the result is nil exactly when the received value equals the recomputed signature, and a mismatch otherwise |
| Signer.VerifySigned | pkg/validation/validation.go:10-28 | a map without `CheckMacValue`, signed with the same key and IV, validates and leaves the original map behind |
| Signer.VerifyRejectsLowerCase | pkg/validation/validation.go:23 | the comparison is case-sensitive: a lower-cased signature that contains a letter is a mismatch |
| Validation.ValidateCheckMacValue | pkg/validation/validation.go:10-28 | the returned error and the caller's form afterwards are exactly the validator's verdict on the form before the call; the root copy at helpers.go:161-179 is the same code |
| Sdk.Lift | sdk/create_order.go:95 | a string map seen as a form has the same keys, and `Get` returns each key's value |
| Sdk.GenerateCheckValue | sdk/create_order.go:95-129 | the result is `CheckMac` of the lifted map, the value `GenerateCheckMacValue` computes: sorted keys, trimmed join, wrap, escape, lower-case, SHA-256, upper-case hex |
| Sdk.EmptyParameters | sdk/create_order.go:107-112 | an empty parameter map yields the pre-image `HashKey=k&&HashIV=iv` |
| Sdk.WrapIsPreImage | sdk/create_order.go:112 | the SDK's wrap, with `"&"` and `"HashIV="` written as two literals, is exactly the signer's pre-image `HashKey=k&J&HashIV=iv` over the sorted join J |
| Flattener.IsStructKind | pkg/helpers/helpers.go:40 | reflection's struct kind, which covers `time.Time` too |
| Flattener.IsTimeStruct | pkg/helpers/helpers.go:88-93 | the field's type is `time.Time` |
| Flattener.Flatten | pkg/helpers/helpers.go:29-86 | the form after the loop has walked the fields in order, with reflection's sticky read-only flag |
| Flattener.Step | pkg/helpers/helpers.go:35-84 | one field: an untagged non-time struct is recursed into, with the read-only flag set for an unexported non-embedded field; other untagged fields and unreadable tagged fields are skipped; otherwise the emitted text is `Set` |
| Flattener.Emitted | pkg/helpers/helpers.go:50-83 | per kind: a string iff non-empty, as itself; an int or uint iff non-zero, in base 10; a bool always, as `true`/`false`; a float iff non-zero, as its `FormatFloat` text; a time iff non-zero, as its RFC 3339 text; a pointer iff non-nil, as its target's text; structs and unsupported kinds never |
| Flattener.ReflectStruct | pkg/helpers/helpers.go:29-86 | the loop leaves the form equal to `Flatten` of the fields over the form it started from |
| Flattener.ReflectFormValues | pkg/helpers/helpers.go:23-27 | the result is `Flatten` of the fields over an empty form |
| Flattener.FlattenFrame | pkg/helpers/helpers.go:29-86 | flattening only adds or replaces keys that are tags of the fields, leaves every other entry as it was, and keeps a single-valued form single-valued |
| Flattener.StepFrame | pkg/helpers/helpers.go:35-84 | the same frame property for one field |
| Flattener.FlattenReadOnly | pkg/helpers/helpers.go:46-48 | within an unexported, non-embedded, untagged struct field nothing can be read, so nothing is written |
| Flattener.StepReadOnly | pkg/helpers/helpers.go:46-48 | the same for one field |
| Flattener.FlattenAppend | pkg/helpers/helpers.go:34 | fields are processed in order: flattening `a + b` is flattening `b` after `a` |
| Flattener.StructFieldInline | pkg/helpers/helpers.go:39-42 | an untagged struct field that is exported or embedded writes exactly what its fields would write in its place |
| Flattener.UnexportedEmbeddedWritten | pkg/helpers/helpers.go:39-54 | the exported tagged fields of an unexported embedded struct are written |
| Flattener.UnexportedStructSkipped | pkg/helpers/helpers.go:39-48 | an untagged, unexported, non-embedded struct field contributes nothing |
| Flattener.IgnoredField | pkg/helpers/helpers.go:39-48 | an untagged non-struct field, including an untagged time, and a tagged field that cannot be read contribute nothing |
| Flattener.LastWriteWins | pkg/helpers/helpers.go:54 | when a later readable field with the same tag emits a value, that value is the key's only value |
| Flattener.ZeroValuesOmitted | pkg/helpers/helpers.go:51-69 | `{Name:"", Amount:0, Active:false}` flattens to just `Active=false` |
| Flattener.EmbeddedCheckMacValue | pkg/model/model.go:3-15 | a non-empty `CheckMacValue` of an embedded `BaseModel` reaches the form |
| RootHelpers.TradeEntries | helpers.go:19-71 | the trade builder's table: the 10 unconditional keys, with the amounts in `Itoa` text, then the 14 keys that are set only when non-empty, in the code's order |
| RootHelpers.LogisticsEntries | helpers.go:81-112 | the logistics builder's table: the 32 unconditional keys in the code's order, with the amounts in `Itoa` text |
| RootHelpers.KeysOf | helpers.go:16-115 | the key column of a builder table, position by position |
| RootHelpers.Fill | helpers.go:16-115 | the form a run of `Set` calls, some guarded by `!= ""`, leaves in an empty `url.Values` |
| RootHelpers.FillKeys | helpers.go:16-115 | a built form has no key outside its table |
| RootHelpers.FillCarries | helpers.go:16-115 | with distinct keys, every required entry is present with its single text, and every optional entry is present iff its text is non-empty |
| RootHelpers.Put | helpers.go:19 | one unconditional `Set` extends the built table by a required entry |
| RootHelpers.PutOptional | helpers.go:30-32 | one `if x != "" { Set }` extends the built table by an optional entry |
| RootHelpers.TradeKeysOf | helpers.go:19-71 | the trade table lists the 24 trade keys in the code's order |
| RootHelpers.TradeKeysDistinct | helpers.go:19-71 | the 24 trade keys are distinct and none is `CheckMacValue` |
| RootHelpers.LogisticsKeysOfPart1 | helpers.go:81-88 | logistics keys 1 to 8 are in the code's order and unconditional |
| RootHelpers.LogisticsKeysOfPart2 | helpers.go:89-96 | logistics keys 9 to 16 are in the code's order and unconditional |
| RootHelpers.LogisticsKeysOfPart3 | helpers.go:97-104 | logistics keys 17 to 24 are in the code's order and unconditional |
| RootHelpers.LogisticsKeysOfPart4 | helpers.go:105-112 | logistics keys 25 to 32 are in the code's order and unconditional |
| RootHelpers.LogisticsKeysOf | helpers.go:81-112 | the logistics table lists the 32 keys in order, all unconditional |
| RootHelpers.LogisticsKeysDistinct | helpers.go:81-112 | the 32 logistics keys are distinct |
| RootHelpers.LogisticsKeysDistinctLow | helpers.go:81-96 | keys 1 to 16 are pairwise distinct |
| RootHelpers.LogisticsKeysDistinctAcross | helpers.go:81-112 | no key among 1 to 16 equals one among 17 to 32 |
| RootHelpers.LogisticsKeysDistinctHigh | helpers.go:97-112 | keys 17 to 32 are pairwise distinct |
| RootHelpers.TradeForm | helpers.go:16-74 | the 10 required trade keys are always present, even with empty text, and amounts are written with `Itoa`; each of the 14 optional keys is present iff its field is non-empty; no other key and never `CheckMacValue` |
| RootHelpers.LogisticsForm | helpers.go:77-115 | the form has exactly the 32 listed keys, each with its field's single value, and `CheckMacValue` carries the struct's current field |
| RootHelpers.TradeToFormValues | helpers.go:16-74 | the successive `Set` calls yield the form described by the trade table |
| RootHelpers.LogisticsToFormValues | helpers.go:77-115 | the 32 `Set` calls yield the form described by the logistics table |

## Left out

- HTTP transport is network I/O and is not modelled: `SendFormData` (pkg/helpers/helpers.go:205-224), `CreateOrder` (sdk/create_order.go:19-93) and the request functions of the trade and logistics packages. `CreateOrder` also builds its body by ranging over a Go map without escaping, which has no deterministic result.
- JSON marshalling and unmarshalling (`EncryptLogistics`, `DecryptLogistics`) is left out. JSON text is treated as opaque bytes.
- SHA-256, AES, CBC chaining and Base64 are parameters, not bit-level models. So no collision resistance or secrecy is claimed. The only assumptions are the three laws `Crypto.Sound` collects: CBC keeps the length of whole blocks (`CbcPreservesLength`), CBC decryption inverts encryption (`CbcInverts`), and Base64 decoding inverts encoding (`Base64Inverts`).
- Library panics are not results in Go, so they are preconditions: an IV that is not one block (pkg/helpers/helpers.go:116, 142), and CBC input that is not a whole number of blocks (pkg/helpers/helpers.go:117, 144).
- Logging through `slog` and `fmt.Println` has no effect on results and is left out. So is the `slog.Error` call for unsupported kinds.
- Flattener.Emitted: the emission rules for floats and times are stated, but the values themselves are abstract. A float field (pkg/helpers/helpers.go:64-67) carries a zero flag and its `FormatFloat` text, since floating point is not modelled. A time field (pkg/helpers/helpers.go:70-76) carries `IsZero()` and its RFC 3339 text, since time formatting is library code. The text of a pointer's target under `%v` (pkg/helpers/helpers.go:79) is an abstract string.
- Flattener.ReflectStruct: Go reflection is replaced by an explicit field-descriptor datatype: tag, exported, embedded and kind. The `readOnly` flag models reflection's sticky read-only mark. It is set for the fields of an unexported struct field that is not embedded, and those fail `CanInterface`. The fields of an unexported embedded struct are not marked, so their exported tagged fields are written. A nil top-level pointer, which makes Go panic in `NumField`, is not modelled.
- Strconv.FormatInt: Go's `int`, `int64` and `uint64` widths are not modelled. Values are unbounded integers, and the decimal text is the same for every value that fits.
- GoStrings.ToLower: modelled only on ASCII input, the only input the core gives it (escaped text). Unicode case mapping is not modelled.
- GoStrings.ToUpper: modelled only on ASCII input, the only input the core gives it (hex text).
- RootHelpers.TradeToFormValues: the alternating straight-line `Set` and `if … != ""` calls go through the `Put`/`PutOptional` helpers. Each helper performs exactly one guarded or unguarded `Set`.
- Pure data declarations (pkg/model/model.go, models/models.go, client/client.go and the trade and logistics struct types) appear only as the `RootHelpers.Trade`/`Logistics` datatypes, `Sdk.Client` and the `Flattener.BaseModelFields` fixture.
- main.go is a demo entry point and is not part of this model.

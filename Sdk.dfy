/**
 * `GenerateCheckValue` of sdk/create_order.go: the SDK's own signer over a
 * plain `map[string]string` of parameters and an `ECPayClient`'s secrets.
 */
module Sdk {
  import opened GoStrings
  import opened NetUrl
  import opened Sorting
  import opened Crypto
  import opened Signer

  /** `ECPayClient` of client/client.go, without its HTTP client. */
  datatype Client = Client(baseURL: Bytes, merchantID: Bytes, hashKey: Bytes, hashIV: Bytes)

  /** A one-value-per-key parameter map seen as `url.Values`. */
  function Lift(parameters: map<Bytes, Bytes>): (values: Values)
    ensures values.Keys == parameters.Keys
    ensures forall k | k in parameters :: Get(values, k) == parameters[k]
  {
    map k | k in parameters :: [parameters[k]]
  }

  /**
   * `GenerateCheckValue` signs exactly as the `url.Values` generators do:
   * its result is the CheckMacValue of the parameters under the client's
   * secret pair (`fmt.Sprintf("%x", ...)` is the same lower-case hex as
   * `hex.EncodeToString`).
   */
  method GenerateCheckValue(sha256: Bytes -> Digest, client: Client, initPara: map<Bytes, Bytes>)
    returns (checkMacValue: Bytes)
    ensures checkMacValue == CheckMac(sha256, Lift(initPara), client.hashKey, client.hashIV)
  {
    ghost var values := Lift(initPara);
    var collected := CollectKeys(initPara);
    var keys := SortStrings(collected);
    assert forall j | 0 <= j < |keys| :: keys[j] in initPara by {
      forall j | 0 <= j < |keys| ensures keys[j] in initPara {
        assert keys[j] in multiset(collected);
      }
    }

    var initformData: Bytes := [];
    for i := 0 to |keys|
      invariant initformData == Trailing(values, keys[..i])
    {
      TrailingStep(values, keys, i);
      assert initPara[keys[i]] == Get(values, keys[i]);
      initformData := initformData + keys[i] + "=" + initPara[keys[i]] + "&";
    }
    assert keys[..|keys|] == keys;
    initformData := TrimSuffix(initformData, "&");
    SortedJoin(values, collected, keys);

    var finalPara := "HashKey=" + client.hashKey + "&" + initformData + "&" + "HashIV=" + client.hashIV;
    WrapIsPreImage(values, client.hashKey, client.hashIV, initformData);
    initformData := QueryEscape(finalPara);
    initformData := ToLower(initformData);
    var hash := sha256(initformData);
    UpperHexOfDigest(hash);
    var encodedHash := HexEncode(hash);
    checkMacValue := ToUpper(encodedHash);
  }

  /** The SDK's wrap, with `"&" + "HashIV="` spelt in two literals, is the signer's pre-image. */
  lemma WrapIsPreImage(values: Values, hashKey: Bytes, hashIV: Bytes, joined: Bytes)
    requires joined == Join(values, SortedKeys(values.Keys))
    ensures "HashKey=" + hashKey + "&" + joined + "&" + "HashIV=" + hashIV == PreImage(values, hashKey, hashIV)
  {
    var head := "HashKey=" + hashKey + "&" + joined;
    assert head + "&" + "HashIV=" == head + "&HashIV=";
  }

  /** With no parameters the SDK signs `HashKey=k&&HashIV=iv`, as the `url.Values` generators do. */
  lemma EmptyParameters(client: Client)
    ensures PreImage(Lift(map[]), client.hashKey, client.hashIV) == "HashKey=" + client.hashKey + "&&HashIV=" + client.hashIV
  {
    assert Lift(map[]) == map[];
    EmptyPreImage(client.hashKey, client.hashIV);
  }
}

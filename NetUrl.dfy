/**
 * The parts of Go's `net/url` package the codec uses: `url.Values` and the
 * query-component escaping `url.QueryEscape` / `url.QueryUnescape`.
 */
module NetUrl {
  import opened GoStrings
  import opened Wrappers
  import opened Errors
  import opened Crypto

  /** `url.Values`: each key maps to the list of its values. */
  type Values = map<Bytes, seq<Bytes>>

  /** `Values.Get`: the first value of `key`, or the empty string when there is none. */
  function Get(values: Values, key: Bytes): (r: Bytes)
    ensures key in values && |values[key]| > 0 ==> r == values[key][0]
    ensures !(key in values && |values[key]| > 0) ==> r == []
  {
    if key in values && |values[key]| > 0 then values[key][0] else []
  }

  /**
   * A `url.Values` that methods update in place, as Go code does through
   * the map (or a pointer to it) that the caller passed in.
   */
  class Form {
    var entries: Values

    /** `url.Values{}` */
    constructor ()
      ensures entries == map[]
    {
      entries := map[];
    }

    /** `Values.Set`: `key` now has exactly the one value `value`; no other key changes. */
    method Set(key: Bytes, value: Bytes)
      modifies this
      ensures entries == old(entries)[key := [value]]
    {
      entries := entries[key := [value]];
    }

    /** `Values.Del`: `key` and all its values are gone; no other key changes. */
    method Del(key: Bytes)
      modifies this
      ensures entries == old(entries) - {key}
    {
      entries := entries - {key};
    }
  }

  // ---------------------------------------------------------------------------
  // Query escaping (mode encodeQueryComponent of net/url)
  // ---------------------------------------------------------------------------

  /** The unreserved characters of section 2.3 of RFC 3986: never escaped. */
  predicate Unreserved(c: Byte) {
    'a' <= c <= 'z' || 'A' <= c <= 'Z' || '0' <= c <= '9' || c == '-' || c == '_' || c == '.' || c == '~'
  }

  /** One byte escaped: kept, `+` for a space, otherwise `%XX` in upper-case hex (section 2.1 of RFC 3986). */
  function EscapeByte(c: Byte): (r: Bytes)
    ensures IsAscii(r)
  {
    if Unreserved(c) then [c]
    else if c == ' ' then ['+']
    else ['%', UpperHexDigit(c as int / 16), UpperHexDigit(c as int % 16)]
  }

  /**
   * `url.QueryEscape`. The result is ASCII and holds only unreserved
   * characters, `+` and `%` followed by two upper-case hex digits.
   */
  function QueryEscape(s: Bytes): (r: Bytes)
    ensures IsAscii(r)
    ensures forall i | 0 <= i < |r| :: Unreserved(r[i]) || r[i] == '+' || r[i] == '%'
    ensures |r| >= |s|
  {
    if |s| == 0 then [] else EscapeByte(s[0]) + QueryEscape(s[1..])
  }

  function Min(a: nat, b: nat): nat { if a < b then a else b }

  /**
   * `url.QueryUnescape`: `+` becomes a space and `%XX` (either case of hex)
   * the byte it names; every other byte is kept. The first `%` that is not
   * followed by two hex digits fails with the (at most three) bytes from it on.
   */
  function QueryUnescape(s: Bytes): (r: Result<Bytes, Error>)
    ensures r.Err? ==> r.error.EscapeError?
    ensures r.Ok? ==> |r.value| <= |s|
  {
    if |s| == 0 then Ok([])
    else if s[0] == '%' then
      if |s| < 3 || !IsHex(s[1]) || !IsHex(s[2]) then Err(EscapeError(s[..Min(3, |s|)]))
      else
        match QueryUnescape(s[3..])
        case Ok(rest) => Ok([(HexValue(s[1]) * 16 + HexValue(s[2])) as char] + rest)
        case Err(e) => Err(e)
    else
      match QueryUnescape(s[1..])
      case Ok(rest) => Ok([if s[0] == '+' then ' ' else s[0]] + rest)
      case Err(e) => Err(e)
  }

  lemma UnescapeEscapedByte(c: Byte, rest: Bytes)
    ensures QueryUnescape(EscapeByte(c) + rest) ==
            match QueryUnescape(rest) case Ok(t) => Ok([c] + t) case Err(e) => Err(e)
  {
    var e := EscapeByte(c);
    assert (e + rest)[|e|..] == rest;
    if !Unreserved(c) && c != ' ' {
      HexDigitValue(c as int / 16);
      HexDigitValue(c as int % 16);
    }
  }

  /** Every `%` is followed by two hex digits: the text `url.QueryUnescape` accepts. */
  ghost predicate WellEscaped(s: Bytes) {
    forall i | 0 <= i < |s| && s[i] == '%' :: i + 2 < |s| && IsHex(s[i + 1]) && IsHex(s[i + 2])
  }

  /** `url.QueryUnescape` fails exactly when some `%` is not followed by two hex digits. */
  lemma {:induction false} UnescapeOkIff(s: Bytes)
    ensures QueryUnescape(s).Ok? <==> WellEscaped(s)
  {
    if |s| == 0 {
    } else if s[0] == '%' {
      if |s| < 3 || !IsHex(s[1]) || !IsHex(s[2]) {
        assert !(0 + 2 < |s| && IsHex(s[0 + 1]) && IsHex(s[0 + 2]));
      } else {
        UnescapeOkIff(s[3..]);
        WellEscapedDrop(s, 3);
      }
    } else {
      UnescapeOkIff(s[1..]);
      WellEscapedDrop(s, 1);
    }
  }

  /** Dropping a well-escaped prefix that no escape straddles keeps the text's verdict. */
  lemma WellEscapedDrop(s: Bytes, k: nat)
    requires k <= |s|
    requires forall i | 0 <= i < k && s[i] == '%' :: i + 2 < k && IsHex(s[i + 1]) && IsHex(s[i + 2])
    ensures WellEscaped(s) <==> WellEscaped(s[k..])
  {
    var t := s[k..];
    if WellEscaped(s) {
      forall j | 0 <= j < |t| && t[j] == '%'
        ensures j + 2 < |t| && IsHex(t[j + 1]) && IsHex(t[j + 2])
      {
        assert s[k + j] == '%';
        assert s[k + j + 1] == t[j + 1] && s[k + j + 2] == t[j + 2];
      }
    }
    if WellEscaped(t) {
      forall i | k <= i < |s| && s[i] == '%'
        ensures i + 2 < |s| && IsHex(s[i + 1]) && IsHex(s[i + 2])
      {
        assert t[i - k] == '%';
        assert t[i - k + 1] == s[i + 1] && t[i - k + 2] == s[i + 2];
      }
    }
  }

  /** Unescaping undoes escaping: the payload codec's round trip rests on this. */
  lemma {:induction false} UnescapeEscape(s: Bytes)
    ensures QueryUnescape(QueryEscape(s)) == Ok(s)
  {
    if |s| > 0 {
      UnescapeEscape(s[1..]);
      UnescapeEscapedByte(s[0], QueryEscape(s[1..]));
      assert [s[0]] + s[1..] == s;
    }
  }

  /** A string of unreserved characters only is its own escape. */
  lemma {:induction false} EscapeUnreserved(s: Bytes)
    requires forall i | 0 <= i < |s| :: Unreserved(s[i])
    ensures QueryEscape(s) == s
  {
    if |s| > 0 {
      EscapeUnreserved(s[1..]);
      assert [s[0]] + s[1..] == s;
    }
  }

  lemma {:induction false} EscapeAppend(a: Bytes, b: Bytes)
    ensures QueryEscape(a + b) == QueryEscape(a) + QueryEscape(b)
  {
    if |a| > 0 {
      assert (a + b)[1..] == a[1..] + b;
      EscapeAppend(a[1..], b);
    } else {
      assert a + b == b;
    }
  }
}

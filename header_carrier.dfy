/**
 The read-only view of request headers handed to the trace-context propagator
 (`RequestHeaderCarrier`). A header map holds, for each header name (stored in lower case,
 as actix's `HeaderName` always is), the raw bytes of its value.
 */
module HeaderCarrier {
  import opened Wrappers

  newtype byte = x: int | 0 <= x < 256

  type HeaderValue = seq<byte>

  /** Header name to value; every name is stored in lower case. */
  type HeaderMap = m: map<string, HeaderValue> | LowerCaseNames(m)
    witness map[]

  /** Every name is its own ASCII lower-casing, as an actix `HeaderName` always is. */
  predicate LowerCaseNames(m: map<string, HeaderValue>) {
    forall name :: name in m ==> AsciiLower(name) == name
  }

  /** A byte `HeaderValue::to_str` accepts: visible ASCII or horizontal tab. */
  predicate IsVisibleAscii(b: byte) {
    (32 <= b < 127) || b == 9
  }

  /** `HeaderValue::to_str`: the value as text when every byte is visible ASCII, else nothing. */
  function ToStr(v: HeaderValue): (r: Option<string>)
    ensures r.Some? <==> forall i :: 0 <= i < |v| ==> IsVisibleAscii(v[i])
    ensures r.Some? ==> |r.value| == |v| && forall i :: 0 <= i < |v| ==> r.value[i] as int == v[i] as int
  {
    if forall i :: 0 <= i < |v| ==> IsVisibleAscii(v[i]) then
      Some(seq(|v|, i requires 0 <= i < |v| => v[i] as char))
    else
      None
  }

  /** The bytes of an ASCII string, as a header value holding that text. */
  function FromAscii(s: string): (v: HeaderValue)
    requires forall i :: 0 <= i < |s| ==> s[i] as int < 256
  {
    seq(|s|, i requires 0 <= i < |s| => s[i] as byte)
  }

  /** A header value built from visible-ASCII text reads back as that text. */
  lemma ToStrFromAscii(s: string)
    requires forall i :: 0 <= i < |s| ==> (32 <= s[i] as int < 127) || s[i] == '\t'
    ensures ToStr(FromAscii(s)) == Some(s)
  {
    var v := FromAscii(s);
    assert forall i :: 0 <= i < |v| ==> IsVisibleAscii(v[i]);
    assert ToStr(v).value == s;
  }

  function LowerChar(ch: char): char {
    if 'A' <= ch <= 'Z' then (ch as int + 32) as char else ch
  }

  /** ASCII lower-casing, which is how a `&str` key is turned into a header name. */
  function AsciiLower(s: string): (r: string)
    ensures |r| == |s|
  {
    seq(|s|, i requires 0 <= i < |s| => LowerChar(s[i]))
  }

  /**
   `RequestHeaderCarrier::get`: the value under the (case-insensitive) key, provided the
   header is present and its value is text; a missing or non-text header is simply absent.
   */
  function Get(headers: HeaderMap, key: string): (r: Option<string>)
    ensures r.Some? <==> AsciiLower(key) in headers && ToStr(headers[AsciiLower(key)]).Some?
  {
    var name := AsciiLower(key);
    if name in headers then ToStr(headers[name]) else None
  }

  /** Every stored name is found under itself, so each name `Keys` lists can be read with `Get`. */
  lemma GetFindsStoredName(headers: HeaderMap, name: string)
    requires name in headers
    ensures Get(headers, name) == ToStr(headers[name])
  {
  }

  /** Lookup ignores the case of the key: asking with the lower-cased key gives the same answer. */
  lemma GetIgnoresCase(headers: HeaderMap, key: string)
    ensures Get(headers, key) == Get(headers, AsciiLower(key))
  {
    assert AsciiLower(AsciiLower(key)) == AsciiLower(key);
  }

  /** A present header with visible-ASCII text is found under any spelling of its name. */
  lemma GetFindsText(headers: HeaderMap, key: string, text: string)
    requires forall i :: 0 <= i < |text| ==> (32 <= text[i] as int < 127) || text[i] == '\t'
    requires AsciiLower(key) in headers && headers[AsciiLower(key)] == FromAscii(text)
    ensures Get(headers, key) == Some(text)
  {
    ToStrFromAscii(text);
  }

  /**
   `RequestHeaderCarrier::keys`: every header name, each once. The map's iteration order is
   unspecified, and so is the order here.
   */
  method Keys(headers: HeaderMap) returns (keys: seq<string>)
    ensures forall k :: k in keys <==> k in headers
    ensures forall i, j :: 0 <= i < j < |keys| ==> keys[i] != keys[j]
    ensures |keys| == |headers|
  {
    keys := [];
    var rest := headers.Keys;
    while rest != {}
      invariant rest <= headers.Keys
      invariant forall k :: k in keys <==> k in headers && k !in rest
      invariant forall i, j :: 0 <= i < j < |keys| ==> keys[i] != keys[j]
      invariant |keys| + |rest| == |headers|
      decreases rest
    {
      var k :| k in rest;
      keys := keys + [k];
      rest := rest - {k};
    }
  }
}

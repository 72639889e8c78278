/**
 * Content negotiation for the web pages: a request gets JSON when its
 * `Accept` header starts with `application/json`, and HTML otherwise.
 */
module WebCommon {
  import opened Wrappers
  import opened Ints

  /** A header as the HTTP library stores it: the name lower-cased, the value as raw bytes. */
  datatype Header = Header(name: string, value: seq<Byte>)

  /** The request's headers, in the order they arrived. */
  type HeaderMap = seq<Header>

  /** `HeaderMap::get`: the first value stored under `name`. */
  function Get(headers: HeaderMap, name: string): (r: Option<seq<Byte>>)
    ensures r.Some? <==> exists i :: 0 <= i < |headers| && headers[i].name == name
    ensures r.Some? ==> exists i :: 0 <= i < |headers| && headers[i] == Header(name, r.value) &&
                                    forall j :: 0 <= j < i ==> headers[j].name != name
  {
    if |headers| == 0 then None
    else if headers[0].name == name then Some(headers[0].value)
    else
      var r := Get(headers[1..], name);
      assert forall i :: 0 < i < |headers| ==> headers[i] == headers[1..][i - 1];
      r
  }

  /** The bytes `HeaderValue::to_str` accepts: visible ASCII and tab. */
  predicate IsVisibleAscii(b: Byte) {
    (32 <= b < 127) || b == 9
  }

  /** `HeaderValue::to_str`: the value as text, when every byte is visible ASCII. */
  function ToStr(value: seq<Byte>): (r: Option<string>)
    ensures r.Some? <==> forall i :: 0 <= i < |value| ==> IsVisibleAscii(value[i])
    ensures r.Some? ==> |r.value| == |value| && forall i :: 0 <= i < |value| ==> r.value[i] as int == value[i]
  {
    if forall i :: 0 <= i < |value| ==> IsVisibleAscii(value[i]) then
      Some(seq(|value|, i requires 0 <= i < |value| => value[i] as char))
    else
      None
  }

  const ACCEPT: string := "accept"
  const JSON_MEDIA_TYPE: string := "application/json"

  /** `accepts_json`: a case-sensitive prefix test on the first `Accept` header. */
  function AcceptsJson(headers: HeaderMap): (r: bool)
    ensures Get(headers, ACCEPT).None? ==> !r
    ensures Get(headers, ACCEPT).Some? && ToStr(Get(headers, ACCEPT).value).None? ==> !r
    ensures Get(headers, ACCEPT).Some? && ToStr(Get(headers, ACCEPT).value).Some? ==>
              (r <==> JSON_MEDIA_TYPE <= ToStr(Get(headers, ACCEPT).value).value)
  {
    match Get(headers, ACCEPT).AndThen(ToStr)
    case None => false
    case Some(acceptHeader) => JSON_MEDIA_TYPE <= acceptHeader
  }

  /** On the wire: the first `Accept` value, byte for byte, begins with the 16 bytes of `application/json`. */
  lemma AcceptsJsonOnBytes(headers: HeaderMap)
    requires Get(headers, ACCEPT).Some?
    requires forall i :: 0 <= i < |Get(headers, ACCEPT).value| ==> IsVisibleAscii(Get(headers, ACCEPT).value[i])
    ensures var v := Get(headers, ACCEPT).value;
            AcceptsJson(headers) <==>
              |v| >= |JSON_MEDIA_TYPE| && forall i :: 0 <= i < |JSON_MEDIA_TYPE| ==> v[i] == JSON_MEDIA_TYPE[i] as int
  {
  }


  /** The ASCII bytes of a text whose characters are all below 128. */
  function Ascii(s: string): (bytes: seq<Byte>)
    requires forall i :: 0 <= i < |s| ==> s[i] as int < 128
    ensures |bytes| == |s| && forall i :: 0 <= i < |s| ==> bytes[i] == s[i] as int
  {
    seq(|s|, i requires 0 <= i < |s| => s[i] as int)
  }

  /** No `Accept` header: HTML. */
  lemma NoAcceptHeaderExample()
    ensures !AcceptsJson([])
    ensures !AcceptsJson([Header("content-type", Ascii("application/json"))])
  {
  }

  /** Anything may follow the media type, quality parameters included. */
  lemma JsonPrefixExamples()
    ensures AcceptsJson([Header(ACCEPT, Ascii("application/json"))])
    ensures AcceptsJson([Header(ACCEPT, Ascii("application/json; q=0.1"))])
  {
  }

  /** JSON listed after another media type is not seen. */
  lemma JsonListedLaterExample()
    ensures !AcceptsJson([Header(ACCEPT, Ascii("text/html, application/json"))])
  {
    var listed := Ascii("text/html, application/json");
    assert Get([Header(ACCEPT, listed)], ACCEPT) == Some(listed);
    assert listed[0] == 't' as int;
  }

  /** The comparison is case-sensitive. */
  lemma CaseSensitiveExample()
    ensures !AcceptsJson([Header(ACCEPT, Ascii("Application/JSON"))])
  {
    var v := Ascii("Application/JSON");
    assert Get([Header(ACCEPT, v)], ACCEPT) == Some(v);
    assert v[0] == 'A' as int;
  }

  /** Only the first `Accept` header is read. */
  lemma FirstAcceptHeaderExample()
    ensures !AcceptsJson([Header(ACCEPT, Ascii("text/html")), Header(ACCEPT, Ascii("application/json"))])
  {
    var first := Ascii("text/html");
    var headers := [Header(ACCEPT, first), Header(ACCEPT, Ascii("application/json"))];
    assert Get(headers, ACCEPT) == Some(first);
    assert first[0] == 't' as int;
  }

  /** A value carrying obs-text bytes (here the UTF-8 of `é`) is not text, so: HTML. */
  lemma NotTextExample()
    ensures !AcceptsJson([Header(ACCEPT, Ascii("application/json") + [0xC3, 0xA9])])
  {
    var v := Ascii("application/json") + [0xC3, 0xA9];
    assert Get([Header(ACCEPT, v)], ACCEPT) == Some(v);
    assert !IsVisibleAscii(v[16]);
  }
}

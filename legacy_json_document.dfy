/**
 * The first, mutable revision: a JSON document object whose constructor registers
 * its valid content types one by one, and whose setters update it in place.
 * `setHttpResponse` refuses a response whose content type is not registered.
 */
module LegacyJsonDocument {
  import opened Wrappers
  import opened MediaTypes
  import opened JsonValues
  import Documents

  /** The strings the constructor registers, in order. */
  const VALID_CONTENT_TYPE_STRINGS: seq<string> := ["application/json"]

  /** The media types a list of strings parses to, one per string and in list order. */
  function ParseAll(ss: seq<string>): (r: seq<MediaType>)
    ensures |r| == |ss|
    ensures forall k :: 0 <= k < |ss| ==> r[k] == ParseTypeSubtype(ss[k])
  {
    if ss == [] then [] else ParseAll(ss[..|ss| - 1]) + [ParseTypeSubtype(ss[|ss| - 1])]
  }

  /** The registered strings parse to exactly one media type, `application/json`. */
  lemma ValidStringsParse()
    ensures ParseAll(VALID_CONTENT_TYPE_STRINGS) == [MediaType("application", "json")]
  {
    assert Render(MediaType("application", "json")) == VALID_CONTENT_TYPE_STRINGS[0];
    ParseRenderRoundTrip(MediaType("application", "json"));
  }

  /** The exception class of this revision: a message and a code. */
  datatype Exception = Exception(message: string, code: int)

  const INVALID_RESPONSE_CONTENT_TYPE := Exception("HTTP response contains invalid content type", 2)

  class JsonDocument {
    var validContentTypes: seq<MediaType>
    var contentType: Option<MediaType>
    var content: string
    var httpResponse: Option<Documents.Response>

    constructor ()
      ensures validContentTypes == ParseAll(VALID_CONTENT_TYPE_STRINGS)
      ensures validContentTypes == [MediaType("application", "json")]
      ensures contentType == None && content == "" && httpResponse == None
    {
      validContentTypes := [];
      contentType := None;
      content := "";
      httpResponse := None;
      new;
      for i := 0 to |VALID_CONTENT_TYPE_STRINGS|
        invariant validContentTypes == ParseAll(VALID_CONTENT_TYPE_STRINGS[..i])
        invariant contentType == None && content == "" && httpResponse == None
      {
        assert VALID_CONTENT_TYPE_STRINGS[..i + 1] == VALID_CONTENT_TYPE_STRINGS[..i] + [VALID_CONTENT_TYPE_STRINGS[i]];
        AddValidContentType(ParseTypeSubtype(VALID_CONTENT_TYPE_STRINGS[i]));
      }
      assert VALID_CONTENT_TYPE_STRINGS[..|VALID_CONTENT_TYPE_STRINGS|] == VALID_CONTENT_TYPE_STRINGS;
      ValidStringsParse();
    }

    /** Appends one media type to the valid-type collection. */
    method AddValidContentType(m: MediaType)
      modifies this
      ensures validContentTypes == old(validContentTypes) + [m]
      ensures contentType == old(contentType) && content == old(content) && httpResponse == old(httpResponse)
    {
      validContentTypes := validContentTypes + [m];
    }

    predicate HasValidContentType(m: MediaType)
      reads this
    {
      m in validContentTypes
    }

    /** Takes the response's content type and body when the type is registered; otherwise throws and changes nothing. */
    method SetHttpResponse(response: Documents.Response) returns (e: Option<Exception>)
      modifies this
      ensures e.None? <==> old(HasValidContentType(response.contentType))
      ensures e.None? ==> httpResponse == Some(response) && contentType == Some(response.contentType)
                          && content == response.body
      ensures e.Some? ==> e.value == INVALID_RESPONSE_CONTENT_TYPE
      ensures e.Some? ==> httpResponse == old(httpResponse) && contentType == old(contentType)
                          && content == old(content)
      ensures validContentTypes == old(validContentTypes)
    {
      if HasValidContentType(response.contentType) {
        httpResponse := Some(response);
        contentType := Some(response.contentType);
        content := response.body;
        e := None;
      } else {
        e := Some(INVALID_RESPONSE_CONTENT_TYPE);
      }
    }

    /** Sets the content type given as a string when it is registered; otherwise changes nothing. */
    method SetContentType(s: string) returns (accepted: bool)
      modifies this
      ensures accepted <==> old(HasValidContentType(ParseTypeSubtype(s)))
      ensures contentType == if accepted then Some(ParseTypeSubtype(s)) else old(contentType)
      ensures validContentTypes == old(validContentTypes) && content == old(content)
      ensures httpResponse == old(httpResponse)
    {
      var m := ParseTypeSubtype(s);
      accepted := HasValidContentType(m);
      if accepted {
        contentType := Some(m);
      }
    }

    /** Replaces the content in place. */
    method SetContent(c: string)
      modifies this
      ensures content == c
      ensures validContentTypes == old(validContentTypes) && contentType == old(contentType)
      ensures httpResponse == old(httpResponse)
    {
      content := c;
    }

    method GetContent() returns (c: string)
      ensures c == content
    {
      c := content;
    }

    /** `getContentObject()`: the content decoded in object mode. */
    method GetContentObject(parse: string -> Option<Json>) returns (v: PhpValue)
      ensures v == DecodeObject(content, parse)
    {
      v := DecodeObject(content, parse);
    }
  }

  /** A fresh document accepts `application/json`, and reading the content back gives what was set. */
  method SetContentScenario(c: string) returns (accepted: bool, read: string)
    ensures accepted && read == c
  {
    var d := new JsonDocument();
    accepted := d.SetContentType("application/json");
    d.SetContent(c);
    read := d.GetContent();
  }

  /** An `application/json` response is taken; an `application/xml` one raises code 2 with the fixed message. */
  method SetHttpResponseScenarios(body: string) returns (valid: Option<Exception>, invalid: Option<Exception>)
    ensures valid.None?
    ensures invalid == Some(Exception("HTTP response contains invalid content type", 2))
  {
    var d := new JsonDocument();
    valid := d.SetHttpResponse(Documents.Response(MediaType("application", "json"), body));
    var e := new JsonDocument();
    invalid := e.SetHttpResponse(Documents.Response(MediaType("application", "xml"), body));
  }

  /** An `application/json` response with body `{}` decodes, in object mode, to an empty `stdClass` object. */
  method GetContentObjectScenario(parse: string -> Option<Json>) returns (v: PhpValue)
    requires parse("{}") == Some(JObject([]))
    ensures v == PObject([])
  {
    var d := new JsonDocument();
    var e := d.SetHttpResponse(Documents.Response(MediaType("application", "json"), "{}"));
    v := d.GetContentObject(parse);
    EmptyObjectIsObjectInObjectMode();
  }
}

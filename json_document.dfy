/**
 * The JSON document of the `webignition\WebResource` revision: its content-type
 * constants, the literal and pattern lists the acceptance predicate uses, the
 * construction from an HTTP response and associative decoding of the content.
 */
module JsonDocument {
  import opened Wrappers
  import opened MediaTypes
  import opened ContentTypeRules
  import opened Documents
  import SubtypePattern
  import JsonValues

  const APPLICATION_JSON_CONTENT_TYPE: string := "application/json"
  const APPLICATION_LD_PLUS_JSON_CONTENT_TYPE: string := "application/ld+json"
  const TEXT_JAVASCRIPT_CONTENT_TYPE: string := "text/javascript"
  const APPLICATION_JSON_SUB_CONTENT_TYPE_PATTERN: Pattern := ApplicationJsonSubType
  const TEXT_JSON_CONTENT_TYPE: string := "text/json"

  /** The literal content types this document models, in declaration order of the list. */
  function ModelledContentTypeStrings(): (r: seq<string>)
    ensures |r| == 3
    ensures TEXT_JSON_CONTENT_TYPE !in r
  {
    [APPLICATION_JSON_CONTENT_TYPE, TEXT_JAVASCRIPT_CONTENT_TYPE, APPLICATION_LD_PLUS_JSON_CONTENT_TYPE]
  }

  /** The literals the acceptance predicate compares against. */
  function AllowedContentTypeStrings(): (r: seq<string>)
    ensures r == ModelledContentTypeStrings()
  {
    ModelledContentTypeStrings()
  }

  /** The patterns the acceptance predicate tries. */
  function AllowedContentTypePatterns(): (r: seq<Pattern>)
    ensures |r| == 1 && r[0].Source() == "/application\\/[a-z]+\\+json/"
  {
    [APPLICATION_JSON_SUB_CONTENT_TYPE_PATTERN]
  }

  function Rules(): (r: RuleSet) {
    RuleSet(AllowedContentTypeStrings(), AllowedContentTypePatterns())
  }

  /**
   * `new JsonDocument($response)`: validates the response's content type and snapshots its body.
   * The optional URI is this model's assumption about the base-class constructor.
   */
  function FromResponse(response: Response, uri: Option<Uri>): (r: Result<Document, InvalidContentType>)
    ensures r.Success? <==> Accepts(Rules(), response.contentType)
    ensures r.Success? ==> r.value == Document(uri, response.body, response.contentType, Some(response))
    ensures r.Failure? ==> r.error == Reject(response.contentType)
  {
    Create(Rules(), MediaType("application", "json"), Properties(uri, None, None, Some(response)))
  }

  /** `getData()`: the content decoded in associative mode. */
  function GetData(d: Document, parse: string -> Option<JsonValues.Json>): (v: JsonValues.PhpValue)
    ensures JsonValues.NoObjects(v)
    ensures parse(d.content).None? ==> v == JsonValues.PNull
    ensures parse(d.content).Some? ==> JsonValues.SameShape(parse(d.content).value, v)
    ensures parse(d.content).Some? ==> v == JsonValues.ToAssoc(parse(d.content).value)
  {
    JsonValues.DecodeAssoc(d.content, parse)
  }

  /** The modelled list, spelled out. */
  lemma ModelledListIsExact()
    ensures ModelledContentTypeStrings() == ["application/json", "text/javascript", "application/ld+json"]
    ensures AllowedContentTypeStrings() == ModelledContentTypeStrings()
  {
  }

  /** Acceptance for this document: one of the three literals, or the pattern found in the rendering. */
  lemma AcceptsIff(m: MediaType)
    ensures Accepts(Rules(), m) <==>
              Render(m) in ["application/json", "text/javascript", "application/ld+json"]
              || SubtypePattern.Matches(Render(m))
  {
  }

  /** Every `application/<letters>+json` type is accepted through the pattern. */
  lemma {:induction false} SubTypeFamilyAccepted(letters: string)
    requires |letters| > 0 && SubtypePattern.AllLower(letters)
    ensures Accepts(Rules(), MediaType("application", letters + "+json"))
  {
    SubtypePattern.FamilyMatches(letters);
    assert Render(MediaType("application", letters + "+json")) == SubtypePattern.Prefix + letters + SubtypePattern.Suffix;
    AcceptsIff(MediaType("application", letters + "+json"));
  }

  /** `text/json` is declared but neither listed nor matched, so this document rejects it. */
  lemma {:induction false} TextJsonRejected()
    ensures TEXT_JSON_CONTENT_TYPE !in AllowedContentTypeStrings()
    ensures !Accepts(Rules(), MediaType("text", "json"))
  {
  }

  /** A rendering among the literals is accepted. */
  lemma LiteralAccepted(m: MediaType)
    requires Render(m) in AllowedContentTypeStrings()
    ensures Accepts(Rules(), m)
  {
  }

  /** A rendering outside the literals and without a `+` is rejected. */
  lemma {:induction false} UnlistedWithoutPlusRejected(m: MediaType)
    requires Render(m) !in AllowedContentTypeStrings() && '+' !in Render(m)
    ensures !Accepts(Rules(), m)
  {
    SubtypePattern.NoPlusNeverMatches(Render(m));
    AcceptsIff(m);
  }

  /** The accepted types of the tests, and one type accepted through the pattern only. */
  lemma {:induction false} AcceptedExamples(m: MediaType)
    requires Render(m) in ["application/json", "text/javascript", "application/ld+json", "application/hal+json"]
    ensures Accepts(Rules(), m)
  {
    if Render(m) == "application/hal+json" {
      assert Render(m) == SubtypePattern.Prefix + "hal" + SubtypePattern.Suffix;
      SubtypePattern.FamilyMatches("hal");
      AcceptsIff(m);
    }
  }

  /** The rejected types of the tests: outside the literals and without a `+`. */
  lemma {:induction false} RejectedExamples(m: MediaType)
    requires Render(m) in ["text/plain", "text/html", "image/png", "image/jpg", "application/octetstream",
                           "application/xml"]
    ensures !Accepts(Rules(), m)
  {
    var s := Render(m);
    assert '+' !in s && s !in AllowedContentTypeStrings() by {
      if s == "text/plain" {
      } else if s == "text/html" {
      } else if s == "image/png" {
      } else if s == "image/jpg" {
      } else if s == "application/octetstream" {
      } else {
        assert s == "application/xml";
      }
    }
    UnlistedWithoutPlusRejected(m);
  }

  /** A `text/plain` or `text/html` response is refused with the exact type in the exception and its message. */
  lemma {:induction false} InvalidResponseScenarios(m: MediaType, body: string)
    requires Render(m) in ["text/plain", "text/html"]
    ensures var r := FromResponse(Response(m, body), None);
            r.Failure? && r.error.code == InvalidContentTypeCode
            && r.error.message == "Invalid content type \"" + Render(m) + "\""
            && r.error.contentType == m
  {
  }

  /** An `application/ld+json` or `text/javascript` response carrying `"foo"` builds a document whose data is `foo`. */
  lemma {:induction false} ValidResponseScenarios(m: MediaType, parse: string -> Option<JsonValues.Json>)
    requires Render(m) in ["application/ld+json", "text/javascript"]
    requires parse("\"foo\"") == Some(JsonValues.JString("foo"))
    ensures var r := FromResponse(Response(m, "\"foo\""), None);
            r.Success? && r.value.contentType == m && r.value.response == Some(Response(m, "\"foo\""))
            && r.value.content == "\"foo\"" && GetData(r.value, parse) == JsonValues.PString("foo")
  {
  }

  /** `{}` and `[]` as content give the same data: the empty array. */
  lemma {:induction false} EmptyObjectAndArrayData(parse: string -> Option<JsonValues.Json>, d: Document, e: Document)
    requires parse(d.content) == Some(JsonValues.JObject([]))
    requires parse(e.content) == Some(JsonValues.JArray([]))
    ensures GetData(d, parse) == GetData(e, parse) == JsonValues.PArray([])
  {
  }
}

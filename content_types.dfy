/**
 * The `webignition\WebResource\JsonDocument\JsonDocument` revision with `ContentTypes`: its content-type vocabulary
 * and the immutable document built from a property bag, with copy-on-write setters.
 * The document class's literal list is not among the files modelled: it is taken
 * to be the vocabulary's three literal constants, with its sub-type pattern as the
 * one allowed pattern and `application/json` as the default.
 */
module ContentTypes {
  import opened Wrappers
  import opened MediaTypes
  import opened ContentTypeRules
  import opened Documents
  import SubtypePattern

  const CONTENT_TYPE_APPLICATION_JSON: string := "application/json"
  const CONTENT_TYPE_TEXT_JAVASCRIPT: string := "text/javascript"
  const CONTENT_TYPE_APPLICATION_JSON_SUB_TYPE: Pattern := ApplicationJsonSubType
  const CONTENT_TYPE_TEXT_JSON: string := "text/json"

  function Rules(): (r: RuleSet) {
    RuleSet([CONTENT_TYPE_APPLICATION_JSON, CONTENT_TYPE_TEXT_JAVASCRIPT, CONTENT_TYPE_TEXT_JSON],
            [CONTENT_TYPE_APPLICATION_JSON_SUB_TYPE])
  }

  /** The content type of a document built without one. */
  function DefaultContentType(): (m: MediaType)
    ensures Render(m) == CONTENT_TYPE_APPLICATION_JSON
    ensures Accepts(Rules(), m)
  {
    MediaType("application", "json")
  }

  /** `new JsonDocument($properties)`. */
  function New(props: Properties): (r: Result<Document, InvalidContentType>)
    ensures r.Success? <==> Accepts(Rules(), ResolvedContentType(props, DefaultContentType()))
    ensures r.Success? ==> Valid(Rules(), r.value)
    ensures r.Success? ==> r.value == Document(props.uri, ResolvedContent(props),
                                               ResolvedContentType(props, DefaultContentType()), props.response)
    ensures r.Failure? ==> r.error == Reject(ResolvedContentType(props, DefaultContentType()))
  {
    Create(Rules(), DefaultContentType(), props)
  }

  /** Acceptance for this revision: one of the three literals, or the sub-type pattern in the rendering. */
  lemma AcceptsIff(m: MediaType)
    ensures Accepts(Rules(), m) <==>
              Render(m) in ["application/json", "text/javascript", "text/json"]
              || SubtypePattern.Matches(Render(m))
  {
  }

  /** The literals `text/javascript` and `text/json` are needed: the pattern matches neither. */
  lemma {:induction false} LiteralsThePatternMisses()
    ensures !CONTENT_TYPE_APPLICATION_JSON_SUB_TYPE.MatchesString(CONTENT_TYPE_TEXT_JAVASCRIPT)
    ensures !CONTENT_TYPE_APPLICATION_JSON_SUB_TYPE.MatchesString(CONTENT_TYPE_TEXT_JSON)
    ensures !CONTENT_TYPE_APPLICATION_JSON_SUB_TYPE.MatchesString(CONTENT_TYPE_APPLICATION_JSON)
    ensures CONTENT_TYPE_APPLICATION_JSON_SUB_TYPE.MatchesString("application/ld+json")
  {
    SubtypePattern.NonMatchingExamples();
    SubtypePattern.MatchingExamples();
  }

  /** A document built from empty properties has the default type, empty content and nothing else. */
  lemma {:induction false} EmptyPropertiesDefaultToApplicationJson()
    ensures var r := New(EmptyProperties);
            r.Success? && Render(r.value.contentType) == "application/json"
            && r.value.content == "" && r.value.uri.None? && r.value.response.None?
  {
  }

  /** `setUri`: the copy has the new URI, the original keeps the old one. */
  lemma {:induction false} SetUriScenario(current: Uri, newUri: Uri)
    requires current != newUri
    ensures var r := New(Properties(Some(current), None, None, None));
            r.Success? && r.value.uri == Some(current)
            && var updated := SetUri(r.value, Some(newUri));
               updated.uri == Some(newUri) && r.value.uri == Some(current) && updated != r.value
  {
  }

  /** `setContentType(application/ld+json)` on a default document: the copy has the new type, the original the old. */
  lemma {:induction false} SetContentTypeScenario()
    ensures var r := New(EmptyProperties);
            r.Success?
            && var u := SetContentType(Rules(), r.value, MediaType("application", "ld+json"));
               u.Success? && Render(u.value.contentType) == "application/ld+json"
               && Render(r.value.contentType) == "application/json" && u.value != r.value
  {
    assert Render(MediaType("application", "ld+json")) == "application/ld+json";
    AcceptsIff(MediaType("application", "ld+json"));
    SubtypePattern.MatchingExamples();
  }

  /** A rejected type yields the exception carrying it and no document. */
  lemma {:induction false} SetContentTypeRejects(d: Document, m: MediaType)
    requires Render(m) in ["text/plain", "text/html", "image/png"]
    ensures var u := SetContentType(Rules(), d, m);
            u.Failure? && u.error.contentType == m
            && u.error.message == "Invalid content type \"" + Render(m) + "\""
  {
  }

  /** `setContent`: the copy has the new content, the original keeps the old one. */
  lemma {:induction false} SetContentScenario()
    ensures var r := New(Properties(None, Some("current content"), None, None));
            r.Success? && r.value.content == "current content"
            && var updated := SetContent(r.value, "new content");
               updated.content == "new content" && r.value.content == "current content" && updated != r.value
  {
  }
}

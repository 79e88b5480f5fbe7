/**
 * The immutable web-resource document shared by the two later revisions: one
 * construction path from a property bag and copy-on-write setters. Every document
 * a member here returns has a content type the rule set accepts.
 */
module Documents {
  import opened Wrappers
  import opened MediaTypes
  import opened ContentTypeRules

  /** A URI, copied and never inspected. */
  datatype Uri = Uri(text: string)

  /** An HTTP response as the document sees it: its parsed content type and its body. */
  datatype Response = Response(contentType: MediaType, body: string)

  /** The construction property bag; each property may be absent. */
  datatype Properties = Properties(
    uri: Option<Uri>,
    content: Option<string>,
    contentType: Option<MediaType>,
    response: Option<Response>)

  const EmptyProperties := Properties(None, None, None, None)

  datatype Document = Document(
    uri: Option<Uri>,
    content: string,
    contentType: MediaType,
    response: Option<Response>)

  /** The invariant every observable document keeps. */
  predicate Valid(rules: RuleSet, d: Document) {
    Accepts(rules, d.contentType)
  }

  /** An explicit content type wins, then the response's, then the document kind's default. */
  function ResolvedContentType(props: Properties, default: MediaType): (m: MediaType)
    ensures props.contentType.Some? ==> m == props.contentType.value
    ensures props.contentType.None? && props.response.Some? ==> m == props.response.value.contentType
    ensures props.contentType.None? && props.response.None? ==> m == default
  {
    match props.contentType
    case Some(m) => m
    case None =>
      match props.response
      case Some(r) => r.contentType
      case None => default
  }

  /** Explicit content wins, then a snapshot of the response body, then the empty string. */
  function ResolvedContent(props: Properties): (c: string)
    ensures props.content.Some? ==> c == props.content.value
    ensures props.content.None? && props.response.Some? ==> c == props.response.value.body
    ensures props.content.None? && props.response.None? ==> c == ""
  {
    match props.content
    case Some(c) => c
    case None =>
      match props.response
      case Some(r) => r.body
      case None => ""
  }

  /** Builds a document, or fails with the rejected resolved content type. */
  function Create(rules: RuleSet, default: MediaType, props: Properties): (r: Result<Document, InvalidContentType>)
    ensures r.Success? <==> Accepts(rules, ResolvedContentType(props, default))
    ensures r.Success? ==> Valid(rules, r.value)
    ensures r.Success? ==> r.value.contentType == ResolvedContentType(props, default)
    ensures r.Success? ==> r.value.content == ResolvedContent(props)
    ensures r.Success? ==> r.value.uri == props.uri && r.value.response == props.response
    ensures r.Failure? ==> r.error == Reject(ResolvedContentType(props, default))
  {
    var m := ResolvedContentType(props, default);
    if Accepts(rules, m) then
      Success(Document(props.uri, ResolvedContent(props), m, props.response))
    else
      Failure(Reject(m))
  }

  /** A copy with the URI replaced; never fails. */
  function SetUri(d: Document, uri: Option<Uri>): (r: Document)
    ensures r.uri == uri
    ensures r.content == d.content && r.contentType == d.contentType && r.response == d.response
    ensures uri != d.uri ==> r != d
  {
    d.(uri := uri)
  }

  /** A copy with the content replaced; the content type is not re-validated. */
  function SetContent(d: Document, content: string): (r: Document)
    ensures r.content == content
    ensures r.uri == d.uri && r.contentType == d.contentType && r.response == d.response
    ensures content != d.content ==> r != d
  {
    d.(content := content)
  }

  /** A validated copy with the content type replaced; a rejected type yields the exception and no document. */
  function SetContentType(rules: RuleSet, d: Document, m: MediaType): (r: Result<Document, InvalidContentType>)
    ensures r.Success? <==> Accepts(rules, m)
    ensures r.Success? ==> r.value.contentType == m && Valid(rules, r.value)
    ensures r.Success? ==> r.value.uri == d.uri && r.value.content == d.content && r.value.response == d.response
    ensures r.Success? && m != d.contentType ==> r.value != d
    ensures r.Failure? ==> r.error == Reject(m)
  {
    if Accepts(rules, m) then Success(d.(contentType := m)) else Failure(Reject(m))
  }

  /** The setters that cannot fail keep a valid document valid. */
  lemma SettersPreserveValid(rules: RuleSet, d: Document, uri: Option<Uri>, content: string)
    requires Valid(rules, d)
    ensures Valid(rules, SetUri(d, uri)) && Valid(rules, SetContent(d, content))
  {
  }

  /** Setting a field back to its current value gives back an equal document. */
  lemma SettersWithCurrentValue(rules: RuleSet, d: Document)
    requires Valid(rules, d)
    ensures SetUri(d, d.uri) == d && SetContent(d, d.content) == d
    ensures SetContentType(rules, d, d.contentType) == Success(d)
  {
  }

  /** Setting a field twice keeps only the second value. */
  lemma SettersOverwrite(d: Document, u1: Option<Uri>, u2: Option<Uri>, c1: string, c2: string)
    ensures SetUri(SetUri(d, u1), u2) == SetUri(d, u2)
    ensures SetContent(SetContent(d, c1), c2) == SetContent(d, c2)
  {
  }

  /** Setters of different fields commute. */
  lemma SettersCommute(rules: RuleSet, d: Document, uri: Option<Uri>, content: string, m: MediaType)
    ensures SetUri(SetContent(d, content), uri) == SetContent(SetUri(d, uri), content)
    ensures SetContentType(rules, SetContent(d, content), m).Success? ==>
              SetContentType(rules, SetContent(d, content), m).value
                == SetContent(SetContentType(rules, d, m).value, content)
  {
  }

  /** The properties of an existing document rebuild it exactly. */
  lemma {:induction false} CreateFromOwnProperties(rules: RuleSet, default: MediaType, d: Document)
    requires Valid(rules, d)
    ensures Create(rules, default, Properties(d.uri, Some(d.content), Some(d.contentType), d.response)) == Success(d)
  {
  }
}

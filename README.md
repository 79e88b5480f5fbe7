# JSON web document: content-type acceptance and document semantics

A Dafny model of the core of `webignition/web-json-model`: a JSON document built from an HTTP
response or from a property bag, that only exists with a content type it accepts. The repository
holds three revisions of the document class; the model keeps each in its own module.

- **Acceptance rule** (`ContentTypeRules`, `SubtypePattern`). A media type `(type, subtype)` is
  accepted when its `type/subtype` rendering is one of a list of literals, or when one of a list
  of patterns matches it. The one pattern, `/application\/[a-z]+\+json/`, is hand-coded: the
  scanning matcher `SubtypePattern.MatchesPattern` is proved equal to the declarative
  `SubtypePattern.Matches` ("`application/`, one or more of `a`..`z`, `+json`, contiguous, somewhere in the string").
- **`webignition\WebResource\JsonDocument`** (`JsonDocument`, from `src/JsonDocument.php`): the
  content-type constants, the literal list `application/json`, `text/javascript`,
  `application/ld+json`, the one pattern, construction from a response and `getData`
  (associative JSON decoding).
- **`webignition\WebResource\JsonDocument\JsonDocument` with `ContentTypes`** (`ContentTypes`,
  `Documents`): the immutable document value `{uri, content, contentType, response}` built from a
  property bag with `application/json` as default, and the copy-on-write setters `setUri`,
  `setContent` and the validating `setContentType`, which fails with `InvalidContentType`
  carrying the rejected type.
- **The first revision** (`LegacyJsonDocument`): a class whose constructor loops over its list
  of valid type strings and appends each parsed type to its valid-type collection, and whose
  `setHttpResponse`, `setContentType` and `setContent` update the object in place;
  `setHttpResponse` refuses an unregistered type with code 2 and the message
  `HTTP response contains invalid content type`.

Three consequences of the code that a reader of the constant names might not expect:

- The pattern has no `^`/`$` anchors, so `preg_match` searches for it as a substring: an
  anchored reading would reject `xapplication/ld+json` and `application/ld+jsonp`, and the
  code accepts both
  (`SubtypePattern.UnanchoredExamples`). The anchored reading is defined as
  `SubtypePattern.MatchesWhole` and proved to imply the substring reading.
- `text/json` is declared in `src/JsonDocument.php` but is not in its literal list, and the
  pattern cannot match it, so that revision rejects `text/json` (`JsonDocument.TextJsonRejected`).
- `application/vnd.api+json` is rejected: the `.` breaks the letter run
  (`SubtypePattern.BrokenRunExamples`).

External collaborators are parameters or plain values: JSON text parsing is a function
`string -> Option<Json>` handed to the decoders (`None` for malformed text, which decodes to
`null`, the `json_decode` policy); an HTTP response is its parsed content type and its body;
a URI is an opaque value.

## Model

| member | source | states |
|---|---|---|
| MediaTypes.ParseTypeSubtype | src/webignition/WebResource/JsonDocument/JsonDocument.php:18-19 | the parsed type has no `/`; a string with a `/` is exactly the rendering of its parse; one without is all type |
| MediaTypes.ParseRenderRoundTrip | src/webignition/WebResource/JsonDocument/JsonDocument.php:17-20 | parsing the rendering of a media type whose type has no `/` gives that media type back |
| MediaTypes.RenderInjective | tests/JsonDocumentTest.php:33 | comparing renderings compares media types: equal renderings mean equal (type, subtype) pairs |
| SubtypePattern.MatchesAt | src/JsonDocument.php:10 | the scan at one index is true exactly when the pattern's shape occurs at that index |
| SubtypePattern.MatchesFrom | src/JsonDocument.php:10 | the scan from an index is true exactly when the shape occurs at some index at or after it |
| SubtypePattern.MatchesPattern | src/JsonDocument.php:10 | the unanchored match holds exactly when `application/`, one or more lower-case letters and `+json` occur contiguously in the string |
| SubtypePattern.FamilyMatches | src/ContentTypes.php:9 | every `application/<letters>+json` with at least one `a`..`z` letter matches, anchored and unanchored |
| SubtypePattern.WholeImpliesMatches | src/JsonDocument.php:10 | a whole-string match is also a substring match |
| SubtypePattern.ShortNeverMatches | src/ContentTypes.php:9 | a string shorter than 18 characters never matches |
| SubtypePattern.NoPlusNeverMatches | src/ContentTypes.php:9 | a string without `+` never matches |
| SubtypePattern.UnanchoredExamples | src/JsonDocument.php:10 | text before or after the shape still matches, though not as a whole string |
| SubtypePattern.MatchingExamples | src/ContentTypes.php:9 | `application/ld+json` and `application/hal+json` match |
| SubtypePattern.NonMatchingExamples | src/ContentTypes.php:7-10 | `application/+json` (no letter), `application/json`, `text/javascript` and `text/json` do not match |
| SubtypePattern.BrokenRunExamples | src/ContentTypes.php:9 | `application/LD+json` and `application/vnd.api+json` do not match |
| ContentTypeRules.Pattern.MatchesString | src/JsonDocument.php:32-37 | the allowed pattern means exactly the unanchored sub-type match |
| ContentTypeRules.AnyPatternMatches | src/JsonDocument.php:32-37 | some pattern of the list matches exactly when one at some position matches |
| ContentTypeRules.Accepts | src/JsonDocument.php:24-37 | a media type is accepted exactly when its rendering is an allowed literal or some allowed pattern matches it |
| ContentTypeRules.AcceptsWithSubTypePattern | src/JsonDocument.php:32-37 | with only the sub-type pattern as pattern, acceptance is literal membership or the substring match |
| ContentTypeRules.InvalidContentTypeMessage | tests/JsonDocumentTest.php:43-52 | the message is `Invalid content type "`, the rendering, then `"` |
| ContentTypeRules.Reject | tests/JsonDocumentTest.php:27-34 | the exception carries the fixed code, the templated message and the rejected media type itself |
| JsonValues.ToAssoc | src/JsonDocument.php:16-19 | associative decoding never yields an object anywhere, and keeps scalars and container sizes |
| JsonValues.ToObject | src/webignition/WebResource/JsonDocument/JsonDocument.php:27-29 | object-mode decoding yields an object exactly for a JSON object, and keeps scalars and sizes |
| JsonValues.DecodeAssoc | src/JsonDocument.php:18 | `json_decode($c, true)` yields no objects, and `null` for malformed text |
| JsonValues.DecodeObject | src/webignition/WebResource/JsonDocument/JsonDocument.php:28 | `json_decode($c)` yields `null` for malformed text and an object exactly for a JSON object |
| JsonValues.EmptyObjectDecodesLikeEmptyArray | tests/JsonDocumentTest.php:110-125 | in associative mode `{}` and `[]` both decode to the empty array |
| JsonValues.EmptyObjectIsObjectInObjectMode | tests/webignition/Tests/WebResource/JsonDocument/GetContentObjectTest.php:7-12 | in object mode `{}` decodes to an empty object, different from the decoding of `[]` |
| JsonValues.SingleMemberObjectDecodesToKeyedArray | tests/JsonDocumentTest.php:114-121 | `{"foo":"bar"}` decodes in associative mode to `['foo' => 'bar']` |
| JsonValues.ModesAgreeWithoutObjects | src/JsonDocument.php:18 | on JSON without objects, associative and object decoding agree |
| JsonValues.AssocKeepsMembers | tests/JsonDocumentTest.php:114-133 | associative decoding keeps each object member, in order, under its name |
| JsonValues.AssocKeepsItems | src/JsonDocument.php:18 | associative decoding keeps each array item, in order, under its position |
| JsonValues.ObjectKeepsMembers | src/webignition/WebResource/JsonDocument/JsonDocument.php:27-29 | object decoding keeps each object member, in order, as a property under its name, which tests/SetContentTest.php:15 reads back |
| JsonValues.ObjectKeepsItems | src/webignition/WebResource/JsonDocument/JsonDocument.php:27-29 | object decoding keeps each array item, in order, under its position |
| Documents.ResolvedContentType | tests/JsonDocumentMutationTest.php:59-61 | without an explicit type or a response the default is used (pinned); an explicit type wins over the response's (assumed, see Left out) |
| Documents.ResolvedContent | tests/JsonDocumentMutationTest.php:81-85 | explicit content is kept (pinned); explicit content wins over the response body, and without either the content is empty (assumed, see Left out) |
| Documents.Create | tests/JsonDocumentTest.php:27-34 | construction succeeds exactly when the resolved type is accepted, keeps the URI and response and resolved content; otherwise fails with the rejected type |
| Documents.SetUri | tests/JsonDocumentMutationTest.php:48-51 | the copy has the new URI and every other field of the receiver; a new URI gives a different document |
| Documents.SetContent | tests/JsonDocumentMutationTest.php:87-90 | the copy has the new content and every other field; new content gives a different document |
| Documents.SetContentType | tests/JsonDocumentMutationTest.php:63-68 | succeeds exactly for an accepted type, with the new type and the other fields kept; a rejected type yields the exception carrying it and no document |
| Documents.SettersPreserveValid | tests/JsonDocumentMutationTest.php:25-32 | the non-validating setters keep a valid document valid |
| Documents.SettersWithCurrentValue | tests/JsonDocumentMutationTest.php:37-91 | setting a field to its current value gives back an equal document |
| Documents.SettersOverwrite | tests/JsonDocumentMutationTest.php:37-91 | setting a field twice keeps only the second value |
| Documents.SettersCommute | tests/JsonDocumentMutationTest.php:37-91 | setters of different fields commute |
| Documents.CreateFromOwnProperties | tests/JsonDocumentMutationTest.php:42-44 | the explicit properties of a valid document rebuild exactly that document |
| JsonDocument.ModelledContentTypeStrings | src/JsonDocument.php:42-49 | three modelled literals, `text/json` not among them |
| JsonDocument.AllowedContentTypeStrings | src/JsonDocument.php:24-27 | the allowed literals are the modelled list |
| JsonDocument.AllowedContentTypePatterns | src/JsonDocument.php:32-37 | exactly one pattern, `/application\/[a-z]+\+json/` |
| JsonDocument.FromResponse | tests/JsonDocumentTest.php:65-70 | building from a response succeeds exactly for an accepted type, with the response's type, body snapshot and the response itself; otherwise fails with the response's type |
| JsonDocument.GetData | src/JsonDocument.php:16-19 | the data never contains an object, is `null` for malformed content, and otherwise is the associative decoding of the parse, with its shape |
| JsonDocument.ModelledListIsExact | tests/JsonDocumentTest.php:145-155 | the modelled list is `application/json`, `text/javascript`, `application/ld+json` in that order, and is the allowed list |
| JsonDocument.AcceptsIff | src/JsonDocument.php:24-49 | accepted exactly when the rendering is one of the three literals or contains the sub-type pattern |
| JsonDocument.LiteralAccepted | src/JsonDocument.php:42-49 | every listed literal is accepted |
| JsonDocument.UnlistedWithoutPlusRejected | src/JsonDocument.php:7-10 | an unlisted rendering without `+` is rejected |
| JsonDocument.SubTypeFamilyAccepted | src/JsonDocument.php:10 | every `application/<letters>+json` type is accepted |
| JsonDocument.TextJsonRejected | src/JsonDocument.php:11 | `text/json` is not in the allowed list and is rejected |
| JsonDocument.AcceptedExamples | tests/JsonDocumentTest.php:134-141 | `application/json`, `text/javascript`, `application/ld+json` and `application/hal+json` are accepted |
| JsonDocument.RejectedExamples | tests/JsonDocumentTest.php:40-53 | `text/plain`, `text/html`, `image/png`, `image/jpg`, `application/octetstream` and `application/xml` are rejected |
| JsonDocument.InvalidResponseScenarios | tests/JsonDocumentTest.php:22-53 | a `text/plain` or `text/html` response fails with the fixed code, the message `Invalid content type "<type>"` and that exact type |
| JsonDocument.ValidResponseScenarios | tests/JsonDocumentTest.php:134-141 | an `application/ld+json` or `text/javascript` response with body `"foo"` builds a document with that type, content `"foo"`, the response kept, and data `foo` |
| JsonDocument.EmptyObjectAndArrayData | tests/JsonDocumentTest.php:110-125 | documents holding `{}` and `[]` have the same data, the empty array |
| ContentTypes.DefaultContentType | src/ContentTypes.php:7 | the default renders as `application/json` and is accepted |
| ContentTypes.New | tests/JsonDocumentMutationTest.php:42-46 | construction from properties succeeds exactly for an accepted resolved type, building the document with the given URI and response, the resolved content and the resolved type; else fails with that type |
| ContentTypes.AcceptsIff | src/ContentTypes.php:7-10 | accepted exactly when the rendering is one of the three literals or contains the sub-type pattern |
| ContentTypes.LiteralsThePatternMisses | src/ContentTypes.php:7-10 | the pattern matches none of `text/javascript`, `text/json`, `application/json`, but matches `application/ld+json` |
| ContentTypes.EmptyPropertiesDefaultToApplicationJson | tests/JsonDocumentMutationTest.php:59-61 | empty properties build a document of type `application/json`, empty content, no URI, no response |
| ContentTypes.SetUriScenario | tests/JsonDocumentMutationTest.php:37-52 | the copy has the new URI, the original the old one, and they differ |
| ContentTypes.SetContentTypeScenario | tests/JsonDocumentMutationTest.php:57-69 | `setContentType(application/ld+json)` on a default document gives that type while the original stays `application/json` |
| ContentTypes.SetContentTypeRejects | tests/JsonDocumentTest.php:30-33 | setting a rejected type fails with the same `Reject` exception that construction raises, tested at those lines for construction: it carries that type and its message |
| ContentTypes.SetContentScenario | tests/JsonDocumentMutationTest.php:76-91 | the copy has the new content, the original the old one, and they differ |
| LegacyJsonDocument.ParseAll | src/webignition/WebResource/JsonDocument/JsonDocument.php:17-20 | one parsed media type per string, in list order |
| LegacyJsonDocument.ValidStringsParse | src/webignition/WebResource/JsonDocument/JsonDocument.php:13-15 | the registered strings parse to exactly `[application/json]` |
| LegacyJsonDocument.JsonDocument.constructor | src/webignition/WebResource/JsonDocument/JsonDocument.php:12-21 | the loop leaves the valid-type collection equal to the parsed list, which is exactly `[application/json]`, and nothing else set |
| LegacyJsonDocument.JsonDocument.AddValidContentType | src/webignition/WebResource/JsonDocument/JsonDocument.php:19 | appends the type to the collection and changes nothing else |
| LegacyJsonDocument.JsonDocument.SetHttpResponse | tests/webignition/Tests/WebResource/JsonDocument/SetHttpResponseTest.php:7-17 | a registered type takes the response, its type and body; otherwise the code-2 exception and no change |
| LegacyJsonDocument.JsonDocument.SetContentType | tests/SetContentTest.php:8-9 | a registered type is set in place; otherwise nothing changes |
| LegacyJsonDocument.JsonDocument.SetContent | tests/SetContentTest.php:10-13 | the content is replaced in place and nothing else changes |
| LegacyJsonDocument.JsonDocument.GetContent | tests/SetContentTest.php:13 | returns the current content |
| LegacyJsonDocument.JsonDocument.GetContentObject | src/webignition/WebResource/JsonDocument/JsonDocument.php:27-29 | returns the content decoded in object mode |
| LegacyJsonDocument.SetContentScenario | tests/SetContentTest.php:7-16 | a fresh document accepts `application/json`, and the content read back is the content set |
| LegacyJsonDocument.SetHttpResponseScenarios | tests/webignition/Tests/WebResource/JsonDocument/SetHttpResponseTest.php:7-17 | an `application/json` response is taken; an `application/xml` one fails with the fixed message and code 2 |
| LegacyJsonDocument.GetContentObjectScenario | tests/webignition/Tests/WebResource/JsonDocument/GetContentObjectTest.php:7-12 | an `application/json` response with body `{}` decodes to an empty object |

## Left out

- JSON text parsing (`json_decode` itself) is a parameter; floating-point numbers are kept as their literal text, so the `pi()` round trip is not modelled.
- JsonValues.ToAssoc: does not model PHP's turning numeric-string member names into integer keys, nor the last-wins rule for duplicate member names.
- JsonValues.ToObject: keeps every repeated member name as its own property, where PHP keeps only the last one.
- JsonValues.ToAssoc and JsonValues.ToObject: map every JSON integer to a PHP integer; `json_decode` turns integers outside the 64-bit range into floats, which the model does not.
- Media-type parsing from header text (parameters, whitespace, case folding, parse errors) is not modelled; MediaTypes.ParseTypeSubtype only splits a literal at its first `/`, and a response carries an already parsed type.
- HTTP responses, streams and the test helpers that build them: a response is its content type and its body.
- The base classes (`WebResource`, `SpecificContentTypeWebResource`, `WebResourceProperties`) are not part of this model; the construction rules below stand in for them, and tests/JsonDocumentTest.php and tests/JsonDocumentMutationTest.php pin only part of those rules.
- Documents.ResolvedContentType: that an explicit content type wins over the response's is assumed; tests/JsonDocumentMutationTest.php:59-61 pins only the default for empty properties.
- Documents.ResolvedContent: that explicit content wins over the response body, and that content is the empty string when neither is given, are assumed; tests/JsonDocumentMutationTest.php:81-85 pins only explicit content.
- JsonDocument.FromResponse: that the document keeps the response and a copy of its body is assumed from the construction rules above; tests/JsonDocumentTest.php:65-70 checks only `getData`.
- The numeric value of the invalid-content-type exception's code is declared outside the files modelled, so the code is the symbolic `InvalidContentTypeCode`.
- The literal list of the `ContentTypes` revision's document class is not among the files modelled; it is taken to be the three literal constants of `src/ContentTypes.php`.
- `setResponse` of the immutable revisions is not modelled: it lives in the base class, and neither tests/JsonDocumentTest.php nor tests/JsonDocumentMutationTest.php calls it.
- Documents.SetUri: "returns an instance distinct from the receiver" is object identity; on values the model states that the copy differs whenever the new value differs, and the receiver, a value, cannot change.
- Documents.SetContent: same limitation on instance identity as Documents.SetUri.
- Documents.SetContent: on a document holding a response, the source rewrites the response body and can fail with `ReadOnlyResponseException` or `UnseekableResponseException` (declared by tests/JsonDocumentMutationTest.php:71-75); the model never fails and keeps the response unchanged, because the stream is not modelled.
- Documents.SetContentType: same limitation on instance identity as Documents.SetUri.
- LegacyJsonDocument.JsonDocument.SetContentType: no test of the legacy class (tests/SetContentTest.php and tests/webignition/Tests/WebResource/JsonDocument/) sets a rejected type, so the exception message and code are not pinned; the model reports rejection as `false` and changes nothing.
- LegacyJsonDocument.JsonDocument.GetContent: before any content is set PHP returns `null`; the model starts from the empty string.
- `getContentArray` (called at tests/webignition/Tests/WebResource/JsonDocument/GetContentObjectTest.php:18) is not defined in src/webignition/WebResource/JsonDocument/JsonDocument.php.
- Fixture files read by the tests are file I/O; the scenarios take the content as a parameter.

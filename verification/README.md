# VAST creative resources (MoPub Android SDK)

A Dafny model of MoPub's `VastResource`: the immutable descriptor of one
creative resource of a VAST (Video Ad Serving Template) ad, and its three
behaviours.

- **Classification** (`fromVastResourceXmlManager`): from a parsed resource
  element, build the descriptor for the requested type (`STATIC_RESOURCE`,
  `HTML_RESOURCE`, `IFRAME_RESOURCE`, `BLURRED_LAST_FRAME`), with its creative
  type (`IMAGE`, `JAVASCRIPT`, `NONE`) and the caller's width and height, or
  `null` when the element cannot supply one.
- **Web view data** (`initializeWebView`): the exact string handed to
  `VastWebView.loadData`. An iframe element for IFrame resources, a script
  element for JavaScript creatives, and the payload itself otherwise.
- **Click-through** (`getCorrectClickThroughUrl`): choose between the URL from
  the VAST document and the URL the web view reported.

The model follows the behaviour `mopub-sdk/src/test/java/com/mopub/mobileads/VastResourceTest.java` asserts.

Files:

- `wrappers.dfy`: `Option`, where `None` stands for Java's `null`.
- `decimal_text.dfy`: Java's decimal rendering of an `int` (`"" + n`), a parser for it,
  and proofs that the two are inverse.
- `vast_resource.dfy`: module `Vast`. It holds the enumerations, the descriptor and its
  well-formedness invariant, the parsed resource element, and the classifier.
- `vast_markup.dfy`: module `VastMarkup`. It holds the web view data and parsers that read
  the payload (and an iframe's dimensions) back.
- `vast_click_through.dfy`: module `VastClickThrough`, the click-through choice.

Modelling decisions:

- The descriptor is a datatype. Its constructor is the Java constructor and its fields are
  the getters (`resourceType` stands for `getType`, since `type` is a Dafny keyword).
- The parsed element (`VastResourceXmlManager`) is a record of four optional strings. They
  are in the order the test mock takes them: static payload, its creativeType attribute,
  iframe payload, html payload.
- The rules for which MIME types count as an image or as JavaScript are a parameter (`MimeTypes`,
  two predicates on the hint, so a fixed list and a whole family such as every `image/...` fit alike).
  The tests pin only `image/jpeg` (image), `application/x-javascript` (JavaScript), and a
  missing or `INVALID_CREATIVE_TYPE` hint (neither). `KnowsTestedHints` states exactly
  that. Every lemma holds for every pair of rules that satisfies it. An image type is checked
  before JavaScript.
- Width and height are Java `int`s (`Int32`). They are written in decimal, with a minus
  sign when negative, as Java's string concatenation writes them.
- `initializeWebView` is the function `WebViewData`, which returns the string loaded.
  It requires a well-formed descriptor: static and blurred-last-frame resources with an
  image or JavaScript creative type, HTML and IFrame resources with none. Every descriptor
  the classifier builds is well-formed (`FromResourceDocument`'s contract); any other pair
  is an internal-consistency error.
- A blurred last frame with a JavaScript creative loads a script element and takes the
  document's click-through URL. Its data is that of a static JavaScript creative, and its
  click-through that of any blurred last frame; the SDK's tests pin neither.

## Model

| member | source | states |
|---|---|---|
| Vast.FromResourceDocument | mopub-sdk/src/test/java/com/mopub/mobileads/VastResourceTest.java:30-124 | A descriptor exists exactly when the document has a payload for the requested type and, for a static resource, a recognised hint. It carries that payload, the requested type, and the caller's width and height unchanged. It is well-formed. A static resource's creative type is the one its hint denotes. |
| Vast.HintCreativeType | mopub-sdk/src/test/java/com/mopub/mobileads/VastResourceTest.java:64-114 | A hint denotes Image exactly when it is a known image type, and JavaScript exactly when it is a known JavaScript type and not an image type. A missing hint denotes nothing; it is never NONE. |
| Vast.ConstructorKeepsFields | mopub-sdk/src/test/java/com/mopub/mobileads/VastResourceTest.java:127-131 | The constructor stores resource, type and creative type, and the getters return them unchanged. |
| Vast.MarkupResourcesHaveNoCreativeType | mopub-sdk/src/test/java/com/mopub/mobileads/VastResourceTest.java:30-62 | Classifying as HTML or IFrame gives that element's own payload with creative type NONE, whatever the static hint. It gives nothing when that payload is missing. |
| Vast.StaticWithoutKnownHintIsAbsent | mopub-sdk/src/test/java/com/mopub/mobileads/VastResourceTest.java:96-114 | A static resource whose hint is missing or unrecognised yields null, never a default creative type. |
| Vast.EmptyDocumentIsAbsent | mopub-sdk/src/test/java/com/mopub/mobileads/VastResourceTest.java:116-124 | A document with no resources yields null for every requested type. |
| Vast.TestedClassifications | mopub-sdk/src/test/java/com/mopub/mobileads/VastResourceTest.java:30-114 | The six classifications of the tests give the asserted descriptors or null, for every MIME table that knows the tested hints. |
| DecimalText.NatToDigits | mopub-sdk/src/test/java/com/mopub/mobileads/VastResourceTest.java:139-142 | A number is written as a non-empty digit string with no leading zero (only 0 is written "0"). |
| DecimalText.IntToStringRoundTrip | mopub-sdk/src/test/java/com/mopub/mobileads/VastResourceTest.java:139-142 | Parsing the decimal text written for any integer gives that integer back. |
| DecimalText.ParseIntIsExact | mopub-sdk/src/test/java/com/mopub/mobileads/VastResourceTest.java:139-142 | Every string the parser accepts is exactly the decimal text of the integer it yields, so the text of a width or height is unique. |
| DecimalText.CanonicalRoundTrip | mopub-sdk/src/test/java/com/mopub/mobileads/VastResourceTest.java:139-142 | Every canonical digit string is the decimal text of the number it denotes. |
| VastMarkup.WebViewData | mopub-sdk/src/test/java/com/mopub/mobileads/VastResourceTest.java:133-179 | For a well-formed descriptor, gives the data loaded: the iframe element with width, height and src in the fixed attribute order for IFrame, the script element for a JavaScript creative, and the payload verbatim otherwise. Its contract states the payload is loaded verbatim if and only if the resource is HTML or an image creative. `TestedIFrameData`, `TestedWebViewData` and `WebViewDataKeepsResource` pin the exact strings and the recoverable payload. |
| VastMarkup.IFrameRoundTrip | mopub-sdk/src/test/java/com/mopub/mobileads/VastResourceTest.java:133-143 | The iframe element written for an IFrame resource gives back exactly its width, height and source when parsed in the fixed attribute layout. |
| VastMarkup.ScriptRoundTrip | mopub-sdk/src/test/java/com/mopub/mobileads/VastResourceTest.java:163-170 | The script element gives back exactly the source it was written with. |
| VastMarkup.WebViewDataKeepsResource | mopub-sdk/src/test/java/com/mopub/mobileads/VastResourceTest.java:133-179 | For every well-formed descriptor, the payload can be read back from the data loaded into the web view, by the rule for its type and creative type. |
| VastMarkup.WebViewDataDistinguishesPayloads | mopub-sdk/src/test/java/com/mopub/mobileads/VastResourceTest.java:133-179 | Two descriptors of the same type and creative type with different payloads never load the same data. |
| VastMarkup.TestedIFrameData | mopub-sdk/src/test/java/com/mopub/mobileads/VastResourceTest.java:133-143 | The IFrame resource of the test (width 50, height 100) loads exactly the iframe string the test expects. |
| VastMarkup.TestedWebViewData | mopub-sdk/src/test/java/com/mopub/mobileads/VastResourceTest.java:145-179 | HTML, static image and blurred-last-frame image load the payload verbatim. A static JavaScript creative loads the script element, exactly as the tests expect. |
| VastClickThrough.CorrectClickThroughUrl | mopub-sdk/src/test/java/com/mopub/mobileads/VastResourceTest.java:181-213 | HTML, IFrame and static JavaScript resources take the web view's URL, null included. A static image or a blurred last frame takes the document's URL, with or without a web URL. A static resource without a creative type gets null. |
| VastClickThrough.NoFallback | mopub-sdk/src/test/java/com/mopub/mobileads/VastResourceTest.java:199-213 | For a well-formed descriptor, the URL not chosen never influences the answer, so there is no fallback from one URL to the other. |
| VastClickThrough.TestedClickThroughUrls | mopub-sdk/src/test/java/com/mopub/mobileads/VastResourceTest.java:181-213 | The eight click-through cases of the test give the asserted URL or null. |

## Left out

- The real `VastWebView` and the effect of `loadData`: the model returns the string that would be loaded.
- XML parsing inside `VastResourceXmlManager`. The parsed element is given as four optional strings.
- The exact MIME rules the SDK applies: the classifier takes them as a parameter, and only the tested hints are pinned.
- Empty payloads: only a missing payload counts as absent. An empty string gives a descriptor with an empty resource: the tests pass only `null`, and a null check lets an empty string through.
- Where a blurred-last-frame resource comes from: the parsed element has no field for it, so classifying that type gives `None`. Blurred-last-frame descriptors are built with the constructor.
- VastMarkup.WebViewData: requires a well-formed descriptor. The data loaded for a pair outside the invariant (e.g. a static resource with creative type NONE) is not modelled.
- Null arguments (`null` manager, type or web view) and the resulting precondition failures: Dafny values cannot be null.
- The reflection helper (`Reflection.MethodBuilder`) in the same SDK: it wraps Java runtime reflection, which lies outside this model.

/**
 * The VAST creative-resource descriptor (MoPub's `VastResource`) and its
 * factory `fromVastResourceXmlManager`, which classifies the resources found
 * in one parsed VAST resource element.
 */
module Vast {
  import opened Wrappers

  /** A Java `int`. */
  type Int32 = x: int | -0x8000_0000 <= x < 0x8000_0000

  /** `VastResource.Type`: the element the creative was embedded with. */
  datatype ResourceType = StaticResource | HtmlResource | IFrameResource | BlurredLastFrame

  /** `VastResource.CreativeType`; `NoCreativeType` is Java's `NONE`. */
  datatype CreativeType = NoCreativeType | Image | JavaScript

  /**
   * The immutable descriptor. The datatype constructor is the Java constructor
   * and the fields are its getters (`getResource`, `getType`, `getCreativeType`).
   */
  datatype VastResource = VastResource(
    resource: string,
    resourceType: ResourceType,
    creativeType: CreativeType,
    width: Int32,
    height: Int32)

  /**
   * The pairs of type and creative type a descriptor may carry: static and
   * blurred-last-frame resources have an image or JavaScript creative type,
   * HTML and IFrame resources have none.
   */
  predicate WellFormed(r: VastResource) {
    match r.resourceType
    case StaticResource | BlurredLastFrame => r.creativeType != NoCreativeType
    case HtmlResource | IFrameResource => r.creativeType == NoCreativeType
  }

  /**
   * What the parsed resource element offers (`VastResourceXmlManager`), in the
   * order the test mock takes them: the StaticResource payload, its
   * creativeType attribute, the IFrameResource payload and the HTMLResource
   * payload. `None` is a missing element or attribute.
   */
  datatype ResourceDocument = ResourceDocument(
    staticResource: Option<string>,
    staticResourceType: Option<string>,
    iFrameResource: Option<string>,
    htmlResource: Option<string>)

  /**
   * Which creativeType hints the SDK accepts as an image and as JavaScript.
   * Each is a rule on the hint, so a whole family of types (every `image/...`)
   * is as expressible as a fixed list.
   */
  datatype MimeTypes = MimeTypes(image: string -> bool, javaScript: string -> bool)

  /** A MIME table that agrees with every hint the SDK's tests use. */
  predicate KnowsTestedHints(m: MimeTypes) {
    && m.image("image/jpeg")
    && m.javaScript("application/x-javascript")
    && !m.image("application/x-javascript")
    && !m.image("INVALID_CREATIVE_TYPE")
    && !m.javaScript("INVALID_CREATIVE_TYPE")
  }

  /**
   * The creative type a static resource's creativeType attribute denotes:
   * an image type wins, then JavaScript; a missing or unknown hint has none.
   */
  function HintCreativeType(m: MimeTypes, hint: Option<string>): (c: Option<CreativeType>)
    ensures c == Some(Image) <==> hint.Some? && m.image(hint.value)
    ensures c == Some(JavaScript) <==> hint.Some? && !m.image(hint.value) && m.javaScript(hint.value)
    ensures c != Some(NoCreativeType)
  {
    match hint
    case None => None
    case Some(h) =>
      if m.image(h) then Some(Image)
      else if m.javaScript(h) then Some(JavaScript)
      else None
  }

  /** The payload the document holds for a resource type; it has no blurred-last-frame field. */
  function PayloadFor(doc: ResourceDocument, t: ResourceType): Option<string> {
    match t
    case StaticResource => doc.staticResource
    case HtmlResource => doc.htmlResource
    case IFrameResource => doc.iFrameResource
    case BlurredLastFrame => None
  }

  /**
   * `VastResource.fromVastResourceXmlManager`: the descriptor for the
   * requested type, or `None` when the document cannot supply one.
   */
  function FromResourceDocument(m: MimeTypes, doc: ResourceDocument, t: ResourceType, width: Int32, height: Int32)
    : (r: Option<VastResource>)
    ensures r.Some? <==> PayloadFor(doc, t).Some? && (t == StaticResource ==> HintCreativeType(m, doc.staticResourceType).Some?)
    ensures r.Some? ==> WellFormed(r.value)
    ensures r.Some? ==> Some(r.value.resource) == PayloadFor(doc, t)
    ensures r.Some? ==> r.value.resourceType == t && r.value.width == width && r.value.height == height
    ensures r.Some? && t == StaticResource ==> Some(r.value.creativeType) == HintCreativeType(m, doc.staticResourceType)
  {
    match t
    case StaticResource =>
      if doc.staticResource.Some? then
        match HintCreativeType(m, doc.staticResourceType)
        case Some(c) => Some(VastResource(doc.staticResource.value, t, c, width, height))
        case None => None
      else None
    case HtmlResource =>
      if doc.htmlResource.Some? then Some(VastResource(doc.htmlResource.value, t, NoCreativeType, width, height)) else None
    case IFrameResource =>
      if doc.iFrameResource.Some? then Some(VastResource(doc.iFrameResource.value, t, NoCreativeType, width, height)) else None
    case BlurredLastFrame => None
  }

  /** The constructor keeps resource, type and creative type, and the getters return them. */
  lemma ConstructorKeepsFields(resource: string, t: ResourceType, c: CreativeType, width: Int32, height: Int32)
    ensures var r := VastResource(resource, t, c, width, height);
      r.resource == resource && r.resourceType == t && r.creativeType == c
  {
  }

  /** HTML and IFrame resources take their own payload, ignore the hint, and have no creative type. */
  lemma MarkupResourcesHaveNoCreativeType(m: MimeTypes, doc: ResourceDocument, t: ResourceType, width: Int32, height: Int32)
    requires t == HtmlResource || t == IFrameResource
    ensures FromResourceDocument(m, doc, t, width, height)
      == if PayloadFor(doc, t).Some? then Some(VastResource(PayloadFor(doc, t).value, t, NoCreativeType, width, height)) else None
  {
  }

  /** A static resource whose hint is missing or unrecognised yields nothing, never a default type. */
  lemma StaticWithoutKnownHintIsAbsent(m: MimeTypes, doc: ResourceDocument, width: Int32, height: Int32)
    requires doc.staticResourceType.None? || (!m.image(doc.staticResourceType.value) && !m.javaScript(doc.staticResourceType.value))
    ensures FromResourceDocument(m, doc, StaticResource, width, height) == None
  {
  }

  /** A document without resources yields nothing, whatever type is requested. */
  lemma EmptyDocumentIsAbsent(m: MimeTypes, t: ResourceType, width: Int32, height: Int32)
    ensures FromResourceDocument(m, ResourceDocument(None, None, None, None), t, width, height) == None
  {
  }

  /** The classifications the SDK's tests perform, for any MIME table that knows their hints. */
  lemma TestedClassifications(m: MimeTypes)
    requires KnowsTestedHints(m)
    ensures var doc := ResourceDocument(Some("StaticResource"), Some("image/jpeg"), Some("IFrameResource"), Some("HTMLResource"));
      && FromResourceDocument(m, doc, IFrameResource, 50, 100) == Some(VastResource("IFrameResource", IFrameResource, NoCreativeType, 50, 100))
      && FromResourceDocument(m, doc, HtmlResource, 50, 100) == Some(VastResource("HTMLResource", HtmlResource, NoCreativeType, 50, 100))
      && FromResourceDocument(m, doc, StaticResource, 50, 100) == Some(VastResource("StaticResource", StaticResource, Image, 50, 100))
    ensures var doc := ResourceDocument(Some("StaticResource"), Some("application/x-javascript"), Some("IFrameResource"), Some("HTMLResource"));
      FromResourceDocument(m, doc, StaticResource, 50, 100) == Some(VastResource("StaticResource", StaticResource, JavaScript, 50, 100))
    ensures var doc := ResourceDocument(Some("StaticResource"), None, Some("IFrameResource"), Some("HTMLResource"));
      FromResourceDocument(m, doc, StaticResource, 50, 100) == None
    ensures var doc := ResourceDocument(Some("StaticResource"), Some("INVALID_CREATIVE_TYPE"), Some("IFrameResource"), Some("HTMLResource"));
      FromResourceDocument(m, doc, StaticResource, 50, 100) == None
  {
  }
}

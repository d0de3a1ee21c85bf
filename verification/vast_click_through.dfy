/**
 * `VastResource.getCorrectClickThroughUrl`: which of two candidate
 * click-through URLs applies to a resource. The one from the VAST document is
 * `vastUrl`; the one the web view reported is `webViewUrl`. Either may be
 * `null` (`None`).
 */
module VastClickThrough {
  import opened Wrappers
  import opened Vast

  /**
   * Resources whose content runs in the web view (HTML, IFrame, a static
   * JavaScript creative) report their own clicks; images, and the blurred
   * last frame, do not.
   */
  predicate ReportsOwnClicks(r: VastResource) {
    || r.resourceType == HtmlResource
    || r.resourceType == IFrameResource
    || (r.resourceType == StaticResource && r.creativeType == JavaScript)
  }

  function CorrectClickThroughUrl(r: VastResource, vastUrl: Option<string>, webViewUrl: Option<string>)
    : (url: Option<string>)
    ensures ReportsOwnClicks(r) ==> url == webViewUrl
    ensures r.resourceType == BlurredLastFrame || (r.resourceType == StaticResource && r.creativeType == Image) ==> url == vastUrl
    ensures r.resourceType == StaticResource && r.creativeType == NoCreativeType ==> url == None
  {
    match r.resourceType
    case StaticResource =>
      if r.creativeType == Image then vastUrl
      else if r.creativeType == JavaScript then webViewUrl
      else None
    case HtmlResource | IFrameResource => webViewUrl
    case BlurredLastFrame => vastUrl
  }

  /**
   * For a well-formed descriptor the answer is always one of the two
   * candidates, and the URL not chosen has no influence: there is no fallback
   * from one to the other.
   */
  lemma NoFallback(r: VastResource, vastUrl: Option<string>, otherVastUrl: Option<string>,
                   webViewUrl: Option<string>, otherWebViewUrl: Option<string>)
    requires WellFormed(r)
    ensures ReportsOwnClicks(r) ==>
      CorrectClickThroughUrl(r, vastUrl, webViewUrl) == CorrectClickThroughUrl(r, otherVastUrl, webViewUrl) == webViewUrl
    ensures !ReportsOwnClicks(r) ==>
      CorrectClickThroughUrl(r, vastUrl, webViewUrl) == CorrectClickThroughUrl(r, vastUrl, otherWebViewUrl) == vastUrl
  {
  }

  /** The answers the SDK's tests expect. */
  lemma TestedClickThroughUrls()
    ensures CorrectClickThroughUrl(VastResource("resource", StaticResource, Image, 50, 100), Some("xml"), Some("web")) == Some("xml")
    ensures CorrectClickThroughUrl(VastResource("resource", StaticResource, JavaScript, 50, 100), Some("xml"), Some("web")) == Some("web")
    ensures CorrectClickThroughUrl(VastResource("resource", HtmlResource, NoCreativeType, 50, 100), Some("xml"), Some("web")) == Some("web")
    ensures CorrectClickThroughUrl(VastResource("resource", IFrameResource, NoCreativeType, 50, 100), Some("xml"), Some("web")) == Some("web")
    ensures CorrectClickThroughUrl(VastResource("resource", HtmlResource, NoCreativeType, 50, 100), Some("xml"), None) == None
    ensures CorrectClickThroughUrl(VastResource("resource", IFrameResource, NoCreativeType, 50, 100), Some("xml"), None) == None
    ensures CorrectClickThroughUrl(VastResource("resource", StaticResource, Image, 50, 100), Some("xml"), None) == Some("xml")
    ensures CorrectClickThroughUrl(VastResource("resource", BlurredLastFrame, Image, 50, 100), Some("xml"), None) == Some("xml")
  {
  }
}

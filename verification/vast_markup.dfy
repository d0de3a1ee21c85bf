/**
 * `VastResource.initializeWebView`: the one string the resource hands to
 * `VastWebView.loadData`, modelled as the function's result. Parsers for the
 * two wrappers it writes are its partners: every descriptor's payload, and an
 * IFrame's dimensions, can be read back from the string.
 */
module VastMarkup {
  import opened Wrappers
  import opened DecimalText
  import opened Vast

  const IFrameOpen: string :=
    "<iframe frameborder=\"0\" scrolling=\"no\" marginheight=\"0\" "
    + "marginwidth=\"0\" style=\"border: 0px; margin: 0px;\" width=\""
  const IFrameHeight: string := "\" height=\""
  const IFrameSrc: string := "\" src=\""
  const IFrameClose: string := "\"></iframe>"

  const ScriptOpen: string := "<script src=\""
  const ScriptClose: string := "\"></script>"

  /**
   * The data loaded into the web view: an iframe element for an IFrame
   * resource, a script element for a JavaScript creative, and the payload
   * itself for HTML resources and image creatives.
   */
  function WebViewData(r: VastResource): (data: string)
    requires WellFormed(r)
    ensures |data| >= |r.resource|
    ensures data == r.resource <==> r.resourceType == HtmlResource || r.creativeType == Image
  {
    match r.resourceType
    case IFrameResource =>
      IFrameOpen + IntToString(r.width) + IFrameHeight + IntToString(r.height) + IFrameSrc + r.resource + IFrameClose
    case HtmlResource => r.resource
    case StaticResource | BlurredLastFrame =>
      if r.creativeType == Image then r.resource else ScriptOpen + r.resource + ScriptClose
  }

  /** The attributes of an iframe element that vary. */
  datatype FrameAttributes = FrameAttributes(width: int, height: int, src: string)

  /** The index of the first double quote in `s`, or `|s|` when there is none. */
  function QuoteIndex(s: string): (k: nat)
    ensures k <= |s|
    ensures forall i | 0 <= i < k :: s[i] != '"'
    ensures k < |s| ==> s[k] == '"'
  {
    if s == [] || s[0] == '"' then 0 else 1 + QuoteIndex(s[1..])
  }

  /** `text` with `suffix` removed from its end, if it ends with it. */
  function WithoutSuffix(text: string, suffix: string): (r: Option<string>)
    ensures r.Some? <==> |suffix| <= |text| && text[|text| - |suffix|..] == suffix
    ensures r.Some? ==> r.value + suffix == text
  {
    if |suffix| <= |text| && text[|text| - |suffix|..] == suffix then
      assert text[..|text| - |suffix|] + text[|text| - |suffix|..] == text;
      Some(text[..|text| - |suffix|])
    else None
  }

  /**
   * Reads an integer that runs up to the next double quote, followed by
   * `separator`; gives the integer and what follows the separator.
   */
  function ParseIntThen(s: string, separator: string): Option<(int, string)> {
    var k := QuoteIndex(s);
    var n := ParseInt(s[..k]);
    if n.Some? && separator <= s[k..] then Some((n.value, s[k + |separator|..])) else None
  }

  /** Reads width, height and src back from an iframe element in the layout `WebViewData` writes. */
  function ParseIFrame(data: string): Option<FrameAttributes> {
    if !(IFrameOpen <= data) then None
    else
      match ParseIntThen(data[|IFrameOpen|..], IFrameHeight)
      case None => None
      case Some((width, afterWidth)) =>
        match ParseIntThen(afterWidth, IFrameSrc)
        case None => None
        case Some((height, afterHeight)) =>
          match WithoutSuffix(afterHeight, IFrameClose)
          case None => None
          case Some(src) => Some(FrameAttributes(width, height, src))
  }

  /** Reads the src back from a script element in the layout `WebViewData` writes. */
  function ParseScript(data: string): Option<string> {
    if ScriptOpen <= data then WithoutSuffix(data[|ScriptOpen|..], ScriptClose) else None
  }

  /** The payload a web view's data carries, for a given resource and creative type. */
  function LoadedResource(t: ResourceType, c: CreativeType, data: string): Option<string> {
    match t
    case IFrameResource =>
      (match ParseIFrame(data) case Some(f) => Some(f.src) case None => None)
    case HtmlResource => Some(data)
    case StaticResource | BlurredLastFrame =>
      if c == Image then Some(data) else ParseScript(data)
  }

  /** An integer rendered before a separator that opens with a quote is read back whole. */
  lemma ParseIntThenRoundTrip(n: int, separator: string, rest: string)
    requires 1 <= |separator| && separator[0] == '"'
    ensures ParseIntThen(IntToString(n) + separator + rest, separator) == Some((n, rest))
  {
    var w := IntToString(n);
    var s := w + separator + rest;
    assert s[|w|] == '"';
    assert forall i | 0 <= i < |w| :: s[i] == w[i];
    assert s[..|w|] == w;
    assert s[|w|..] == separator + rest;
    IntToStringRoundTrip(n);
    assert s[|w| + |separator|..] == rest;
  }

  /** The iframe element gives back the width, height and source it was written with. */
  lemma IFrameRoundTrip(r: VastResource)
    requires WellFormed(r) && r.resourceType == IFrameResource
    ensures ParseIFrame(WebViewData(r)) == Some(FrameAttributes(r.width, r.height, r.resource))
  {
    var afterHeight := r.resource + IFrameClose;
    var afterWidth := IntToString(r.height) + IFrameSrc + afterHeight;
    var afterOpen := IntToString(r.width) + IFrameHeight + afterWidth;
    assert WebViewData(r) == IFrameOpen + afterOpen;
    assert WebViewData(r)[|IFrameOpen|..] == afterOpen;
    ParseIntThenRoundTrip(r.width, IFrameHeight, afterWidth);
    ParseIntThenRoundTrip(r.height, IFrameSrc, afterHeight);
  }

  /** The script element gives back the source it was written with. */
  lemma ScriptRoundTrip(src: string)
    ensures ParseScript(ScriptOpen + src + ScriptClose) == Some(src)
  {
    var data := ScriptOpen + src + ScriptClose;
    var body := src + ScriptClose;
    assert data[|ScriptOpen|..] == body;
    assert body[|body| - |ScriptClose|..] == ScriptClose;
    assert body[..|body| - |ScriptClose|] == src;
  }

  /** Whatever the descriptor, its payload can be read back from the data it loads. */
  lemma WebViewDataKeepsResource(r: VastResource)
    requires WellFormed(r)
    ensures LoadedResource(r.resourceType, r.creativeType, WebViewData(r)) == Some(r.resource)
  {
    match r.resourceType
    case IFrameResource => IFrameRoundTrip(r);
    case HtmlResource =>
    case StaticResource | BlurredLastFrame =>
      if r.creativeType != Image {
        ScriptRoundTrip(r.resource);
      }
  }

  /** Descriptors that differ in what they render load different data. */
  lemma WebViewDataDistinguishesPayloads(r1: VastResource, r2: VastResource)
    requires WellFormed(r1) && WellFormed(r2)
    requires r1.resourceType == r2.resourceType && r1.creativeType == r2.creativeType
    requires r1.resource != r2.resource
    ensures WebViewData(r1) != WebViewData(r2)
  {
    WebViewDataKeepsResource(r1);
    WebViewDataKeepsResource(r2);
  }

  /** Regrouping a concatenation of six strings. */
  lemma ConcatRegroup(a: string, b: string, c: string, d: string, e: string, f: string)
    ensures (a + b) + c + (d + e) + f == a + (b + c + d) + (e + f)
  {
  }

  /** The middle line of the SDK test's expected iframe, around the width. */
  lemma TestedWidthLine()
    ensures "marginwidth=\"0\" style=\"border: 0px; margin: 0px;\" width=\"50\" "
      == "marginwidth=\"0\" style=\"border: 0px; margin: 0px;\" width=\"" + "50" + "\" "
  {
  }

  /** The last line of the SDK test's expected iframe, around the height and source. */
  lemma TestedHeightLine()
    ensures "height=\"100\" src=\"resource\"></iframe>" == "height=\"" + "100" + IFrameSrc + "resource" + IFrameClose
  {
  }

  /** The iframe layout filled with the values of the SDK's test, spelled as the test spells it. */
  lemma TestedIFrameLayout()
    ensures IFrameOpen + "50" + IFrameHeight + "100" + IFrameSrc + "resource" + IFrameClose ==
      "<iframe frameborder=\"0\" scrolling=\"no\" marginheight=\"0\" " +
      "marginwidth=\"0\" style=\"border: 0px; margin: 0px;\" width=\"50\" " +
      "height=\"100\" src=\"resource\"></iframe>"
  {
    TestedWidthLine();
    TestedHeightLine();
    ConcatRegroup("<iframe frameborder=\"0\" scrolling=\"no\" marginheight=\"0\" ",
      "marginwidth=\"0\" style=\"border: 0px; margin: 0px;\" width=\"", "50", "\" ", "height=\"",
      "100" + IFrameSrc + "resource" + IFrameClose);
  }

  /** The iframe element the SDK's tests expect `loadData` to receive. */
  lemma TestedIFrameData()
    ensures WebViewData(VastResource("resource", IFrameResource, NoCreativeType, 50, 100)) ==
      "<iframe frameborder=\"0\" scrolling=\"no\" marginheight=\"0\" " +
      "marginwidth=\"0\" style=\"border: 0px; margin: 0px;\" width=\"50\" " +
      "height=\"100\" src=\"resource\"></iframe>"
  {
    assert IntToString(50) == "50" by {
      assert NatToDigits(50) == NatToDigits(5) + [DigitChar(0)];
    }
    assert IntToString(100) == "100" by {
      assert NatToDigits(10) == NatToDigits(1) + [DigitChar(0)];
      assert NatToDigits(100) == NatToDigits(10) + [DigitChar(0)];
    }
    TestedIFrameLayout();
  }

  /** The other data the SDK's tests expect `loadData` to receive. */
  lemma TestedWebViewData()
    ensures WebViewData(VastResource("resource", HtmlResource, NoCreativeType, 50, 100)) == "resource"
    ensures WebViewData(VastResource("resource", StaticResource, Image, 50, 100)) == "resource"
    ensures WebViewData(VastResource("resource", StaticResource, JavaScript, 50, 100)) == "<script src=\"resource\"></script>"
    ensures WebViewData(VastResource("resource", BlurredLastFrame, Image, 50, 100)) == "resource"
  {
  }
}

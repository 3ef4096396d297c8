/**
 * The browser client (public/app.js): the page-level state that `connect`,
 * the socket callbacks and `disconnect` update, the click-to-device
 * coordinate transform behind `handleTap`, the URL and text input rules,
 * `escapeHtml`, and the element list `renderElements` builds. Every call to
 * the server is recorded as the request it sends; what the server answers is
 * given as input.
 */
module Client {
  import opened Common
  import opened Js
  import Android

  // ===========================================================================
  // handleTap
  // ===========================================================================

  /** Math.max(0, Math.min(1, v)) */
  function Clamp01(v: real): (c: real)
    ensures 0.0 <= c <= 1.0
    ensures 0.0 <= v <= 1.0 ==> c == v
    ensures v < 0.0 ==> c == 0.0
    ensures v > 1.0 ==> c == 1.0
  {
    if v < 0.0 then 0.0 else if v > 1.0 then 1.0 else v
  }

  /** The size records the page keeps: the iOS point size and the Android pixel size. */
  datatype Dims = Dims(display: Size, device: Size)

  const DefaultDims: Dims := Dims(Size(390, 844), Size(1179, 2556))

  /** The size taps are scaled to: pixels on Android, points on iOS. */
  function TapSize(p: Platform, dims: Dims): Size {
    if p == Android then dims.device else dims.display
  }

  /** The device coordinate for a position relative to the overlay, along an axis of the given length. */
  function Scaled(rel: real, length: int): int {
    Round(Clamp01(rel) * length as real)
  }

  /** The coordinate always lies on the screen: between 0 and its length. */
  lemma {:induction false} ScaledOnScreen(rel: real, length: nat)
    ensures 0 <= Scaled(rel, length) <= length
  {
    var c := Clamp01(rel);
    var n := Scaled(rel, length);
    assert 0.0 <= c * length as real <= length as real by {
      assert c * length as real <= 1.0 * length as real;
    }
    assert n as real - 0.5 <= c * length as real < n as real + 0.5;
  }

  /** Positions left of or above the overlay tap the edge, as do those beyond its far side. */
  lemma ScaledClamps(rel: real, length: int)
    ensures rel <= 0.0 ==> Scaled(rel, length) == Scaled(0.0, length) == 0
    ensures rel >= 1.0 ==> Scaled(rel, length) == Scaled(1.0, length) == length
  {
    RoundOfInt(0);
    RoundOfInt(length);
  }

  /** Further right or down on the overlay never taps further left or up. */
  lemma {:induction false} ScaledMonotone(r1: real, r2: real, length: nat)
    requires r1 <= r2
    ensures Scaled(r1, length) <= Scaled(r2, length)
  {
    var c1, c2 := Clamp01(r1), Clamp01(r2);
    assert c1 <= c2;
    assert c1 * length as real <= c2 * length as real;
    RoundMonotone(c1 * length as real, c2 * length as real);
  }

  /** The overlay's bounding rectangle in client coordinates. */
  datatype Rect = Rect(left: real, top: real, width: real, height: real)

  /** A request the page sends to the server. */
  datatype Request =
    | TapRequest(x: int, y: int)
    | OpenUrlRequest(url: string)
    | TypeRequest(text: string)
    | TapElementRequest(query: string)

  // ===========================================================================
  // navigateToUrl
  // ===========================================================================

  /** The URL sent for the typed input: none when it is blank, https:// added unless it starts with "http". */
  function UrlFor(input: string): (url: Option<string>)
    ensures url.None? <==> Trim(input) == []
    ensures url.Some? ==> StartsWith(url.value, "http")
    ensures url.Some? && StartsWith(Trim(input), "http") ==> url.value == Trim(input)
    ensures url.Some? && !StartsWith(Trim(input), "http") ==> url.value == "https://" + Trim(input)
  {
    var u := Trim(input);
    if u == [] then None
    else if StartsWith(u, "http") then Some(u)
    else
      HttpsPrefix(u);
      Some("https://" + u)
  }

  lemma HttpsPrefix(u: string)
    ensures StartsWith("https://" + u, "http")
  {
    var s := "https://" + u;
    assert s[..4] == "https://"[..4] == "http";
  }

  /** An input that already has a scheme is sent as typed, apart from the surrounding whitespace. */
  lemma UrlKeepsScheme(u: string)
    requires Trimmed(u) && StartsWith(u, "http")
    ensures UrlFor(u) == Some(u)
  {
  }

  /** The prefix is not added twice: the URL sent for a URL that was sent is that URL. */
  lemma UrlForIdempotent(input: string)
    requires UrlFor(input).Some?
    ensures UrlFor(UrlFor(input).value) == UrlFor(input)
  {
    var u := Trim(input);
    var url := UrlFor(input).value;
    assert u != [] && !IsWhitespace(u[|u| - 1]);
    if !StartsWith(u, "http") {
      assert url[|url| - 1] == u[|u| - 1];
      assert !IsWhitespace(url[0]);
    }
    assert Trimmed(url);
  }

  // ===========================================================================
  // escapeHtml
  // ===========================================================================

  /** The replaces escapeHtml applies, in order: the ampersand first. */
  const HtmlPieces: seq<(char, string)> := [('&', "&amp;"), ('<', "&lt;"), ('>', "&gt;"), ('"', "&quot;")]

  function EscapeHtml(s: string): string {
    Chain(HtmlPieces, s)
  }

  /** The entity for each of the four characters, every other character unchanged. */
  function HtmlChar(c: char): string {
    if c == '&' then "&amp;"
    else if c == '<' then "&lt;"
    else if c == '>' then "&gt;"
    else if c == '"' then "&quot;"
    else [c]
  }

  function HtmlEach(s: string): string {
    if s == [] then [] else HtmlChar(s[0]) + HtmlEach(s[1..])
  }

  lemma HtmlPiecesSettled()
    ensures Settled(HtmlPieces)
  {
  }

  lemma LookupHtml(c: char)
    ensures Lookup(HtmlPieces, c) == HtmlChar(c)
  {
    var k := if c == '&' then 0 else if c == '<' then 1 else if c == '>' then 2 else if c == '"' then 3 else 4;
    LookupAt(HtmlPieces, k, c);
  }

  lemma HtmlOne(c: char)
    ensures EscapeHtml([c]) == HtmlChar(c)
  {
    HtmlPiecesSettled();
    ChainLookup(HtmlPieces, c);
    LookupHtml(c);
  }

  /** Replacing the ampersand first means no entity written later is escaped again: the escaping is per character. */
  lemma {:induction false} EscapeHtmlIsPerCharacter(s: string)
    ensures EscapeHtml(s) == HtmlEach(s)
  {
    if s != [] {
      assert s == [s[0]] + s[1..];
      ChainAppend(HtmlPieces, [s[0]], s[1..]);
      HtmlOne(s[0]);
      EscapeHtmlIsPerCharacter(s[1..]);
    }
  }

  /** The escaped text holds no raw <, > or double quote. */
  lemma {:induction false} EscapedHasNoMarkup(s: string)
    ensures '<' !in EscapeHtml(s) && '>' !in EscapeHtml(s) && '"' !in EscapeHtml(s)
  {
    EscapeHtmlIsPerCharacter(s);
    EachHasNoMarkup(s);
  }

  lemma {:induction false} EachHasNoMarkup(s: string)
    ensures '<' !in HtmlEach(s) && '>' !in HtmlEach(s) && '"' !in HtmlEach(s)
  {
    if s != [] {
      EachHasNoMarkup(s[1..]);
      assert HtmlEach(s) == HtmlChar(s[0]) + HtmlEach(s[1..]);
    }
  }

  /** How the browser reads an attribute value back: the four entities decoded. */
  function UnescapeHtml(s: string): string
    decreases |s|
  {
    if s == [] then []
    else if s[0] != '&' then [s[0]] + UnescapeHtml(s[1..])
    else if "&amp;" <= s then ['&'] + UnescapeHtml(s[5..])
    else if "&lt;" <= s then ['<'] + UnescapeHtml(s[4..])
    else if "&gt;" <= s then ['>'] + UnescapeHtml(s[4..])
    else if "&quot;" <= s then ['"'] + UnescapeHtml(s[6..])
    else ['&'] + UnescapeHtml(s[1..])
  }

  /** The browser reads back exactly the text that was escaped. */
  lemma {:induction false} EscapeHtmlRoundTrip(s: string)
    ensures UnescapeHtml(EscapeHtml(s)) == s
  {
    EscapeHtmlIsPerCharacter(s);
    UnescapeEach(s);
  }

  lemma {:induction false} UnescapeEach(s: string)
    ensures UnescapeHtml(HtmlEach(s)) == s
  {
    if s != [] {
      var c, rest := s[0], HtmlEach(s[1..]);
      UnescapeEach(s[1..]);
      UnescapeHead(c, rest);
      assert HtmlEach(s) == HtmlChar(c) + rest;
      assert s == [c] + s[1..];
    }
  }

  lemma UnescapeHead(c: char, rest: string)
    ensures UnescapeHtml(HtmlChar(c) + rest) == [c] + UnescapeHtml(rest)
  {
    var e := HtmlChar(c) + rest;
    if c == '&' {
      assert e[..5] == "&amp;" && e[5..] == rest;
      assert "&amp;" <= e;
      assert UnescapeHtml(e) == ['&'] + UnescapeHtml(e[5..]);
    } else if c == '<' {
      assert e[..4] == "&lt;" && e[4..] == rest;
      assert !("&amp;" <= e) by { assert e[1] == 'l'; }
      assert "&lt;" <= e;
      assert UnescapeHtml(e) == ['<'] + UnescapeHtml(e[4..]);
    } else if c == '>' {
      assert e[..4] == "&gt;" && e[4..] == rest;
      assert !("&amp;" <= e) && !("&lt;" <= e) by { assert e[1] == 'g'; }
      assert "&gt;" <= e;
      assert UnescapeHtml(e) == ['>'] + UnescapeHtml(e[4..]);
    } else if c == '"' {
      assert e[..6] == "&quot;" && e[6..] == rest;
      assert !("&amp;" <= e) && !("&lt;" <= e) && !("&gt;" <= e) by { assert e[1] == 'q'; }
      assert "&quot;" <= e;
      assert UnescapeHtml(e) == ['"'] + UnescapeHtml(e[6..]);
    } else {
      assert e[0] == c && e[1..] == rest;
    }
  }

  // ===========================================================================
  // renderElements
  // ===========================================================================

  /** An element is listed when it is clickable or has text. */
  predicate Listed(el: Android.Element) {
    el.clickable || el.text != []
  }

  /** JavaScript's `a || b` on strings: the first non-empty one. */
  function Or(a: string, b: string): string {
    if a != [] then a else b
  }

  /** One list entry: its data-query attribute, its icon, and its label, both as HTML text. */
  datatype Item = Item(query: string, tappable: bool, title: string)

  /** What the list shows: a message when nothing is listed, else the entries. */
  datatype Rendered = NoElements | Items(items: seq<Item>)

  const MaxItems: nat := 15
  const MaxLabel: nat := 30

  /** The entry for one element. */
  function ItemOf(el: Android.Element): Item {
    var name := Or(el.text, Or(el.resourceId, el.className));
    Item(EscapeHtml(Or(el.text, el.resourceId)), el.clickable,
      EscapeHtml(name[..if |name| < MaxLabel then |name| else MaxLabel]))
  }

  /** elements.filter(el => el.clickable || el.text): the elements that are listed. */
  function ListedOf(elements: seq<Android.Element>): (kept: seq<Android.Element>)
    ensures |kept| <= |elements|
    ensures forall i :: 0 <= i < |kept| ==> Listed(kept[i]) && kept[i] in elements
    ensures forall el :: el in elements && Listed(el) ==> el in kept
  {
    Filter(elements, Listed)
  }

  /** The listed elements keep the dump's order and repeats: each element is judged on its own. */
  lemma ListedInOrder(a: seq<Android.Element>, b: seq<Android.Element>)
    ensures ListedOf(a + b) == ListedOf(a) + ListedOf(b)
    ensures |a| == 1 ==> ListedOf(a) == (if Listed(a[0]) then a else [])
  {
    FilterAppend(a, b, Listed);
  }

  function RenderElements(elements: seq<Android.Element>): (r: Rendered)
    ensures r.NoElements? <==> forall el :: el in elements ==> !Listed(el)
    ensures r.Items? ==> 0 < |r.items| <= MaxItems
  {
    var kept := ListedOf(elements);
    if kept == [] then NoElements
    else
      assert kept[0] in elements && Listed(kept[0]);
      var shown := kept[..if |kept| < MaxItems then |kept| else MaxItems];
      Items(seq(|shown|, i requires 0 <= i < |shown| => ItemOf(shown[i])))
  }

  /** The i-th entry is the i-th listed element's, for the first fifteen listed. */
  lemma RenderedItems(elements: seq<Android.Element>, i: nat)
    requires RenderElements(elements).Items?
    requires i < |RenderElements(elements).items|
    ensures i < |ListedOf(elements)| && i < MaxItems
    ensures RenderElements(elements).items[i] == ItemOf(ListedOf(elements)[i])
  {
  }

  /** Fifteen listed elements or fewer are all shown. */
  lemma AllShownUpToFifteen(elements: seq<Android.Element>)
    requires 0 < |ListedOf(elements)| <= MaxItems
    ensures RenderElements(elements).Items? && |RenderElements(elements).items| == |ListedOf(elements)|
  {
  }

  /**
   * Reading an entry back: the label shows at most 30 characters of the text,
   * resource id or class name, and the query is the text or the resource id.
   */
  lemma {:induction false} ItemReadsBack(el: Android.Element)
    ensures var name := Or(el.text, Or(el.resourceId, el.className));
      var shown := UnescapeHtml(ItemOf(el).title);
      |shown| <= MaxLabel && shown <= name && (|name| <= MaxLabel ==> shown == name)
    ensures UnescapeHtml(ItemOf(el).query) == Or(el.text, el.resourceId)
    ensures ItemOf(el).tappable == el.clickable
  {
    var name := Or(el.text, Or(el.resourceId, el.className));
    EscapeHtmlRoundTrip(name[..if |name| < MaxLabel then |name| else MaxLabel]);
    EscapeHtmlRoundTrip(Or(el.text, el.resourceId));
  }

  // ===========================================================================
  // Page state
  // ===========================================================================

  /** The module-level state of the page and the requests it has sent. */
  class Page {
    var isConnected: bool
    var platform: Platform
    var dims: Dims
    var socketOpen: bool
    var urlInput: string
    var textInput: string
    var sent: seq<Request>

    constructor (url: string, text: string)
      ensures !isConnected && platform == IOS && dims == DefaultDims && !socketOpen
      ensures urlInput == url && textInput == text && sent == []
    {
      isConnected := false;
      platform := IOS;
      dims := DefaultDims;
      socketOpen := false;
      urlInput := url;
      textInput := text;
      sent := [];
    }

    /**
     * `connect` up to opening the socket: the platform and its size record are
     * taken from /api/platform and /api/screen when they succeed; without a
     * device the page ends disconnected and no socket is opened.
     */
    method Connect(platformResult: Option<Platform>, screenResult: Option<Size>, deviceFound: bool)
      modifies this
      ensures platform == if platformResult.Some? then platformResult.value else old(platform)
      ensures platformResult.Some? && screenResult.Some? && platformResult.value == Android
        ==> dims == old(dims).(device := screenResult.value)
      ensures platformResult.Some? && screenResult.Some? && platformResult.value == IOS
        ==> dims == old(dims).(display := screenResult.value)
      ensures platformResult.None? || screenResult.None? ==> dims == old(dims)
      ensures socketOpen == deviceFound
      ensures !deviceFound ==> !isConnected
      ensures deviceFound ==> isConnected == old(isConnected)
      ensures urlInput == old(urlInput) && textInput == old(textInput) && sent == old(sent)
    {
      if platformResult.Some? {
        platform := platformResult.value;
        if screenResult.Some? {
          if platformResult.value == Android {
            dims := dims.(device := screenResult.value);
          } else {
            dims := dims.(display := screenResult.value);
          }
        }
      }
      if !deviceFound {
        isConnected := false;
        socketOpen := false;
      } else {
        socketOpen := true;
      }
    }

    /** The socket opened: the page is connected (and asks for the stream at 8 fps). */
    method SocketOpened()
      modifies this
      ensures isConnected
      ensures platform == old(platform) && dims == old(dims) && socketOpen == old(socketOpen)
      ensures urlInput == old(urlInput) && textInput == old(textInput) && sent == old(sent)
    {
      isConnected := true;
    }

    /** The socket closed, or `disconnect`: the page is disconnected. */
    method SocketClosed()
      modifies this
      ensures !isConnected && !socketOpen
      ensures platform == old(platform) && dims == old(dims)
      ensures urlInput == old(urlInput) && textInput == old(textInput) && sent == old(sent)
    {
      if isConnected {
        isConnected := false;
      }
      socketOpen := false;
    }

    /** A click on the overlay: no request while disconnected, else the clamped, scaled and rounded point. */
    method HandleTap(clientX: real, clientY: real, rect: Rect) returns (tap: Option<Request>)
      requires rect.width > 0.0 && rect.height > 0.0
      modifies this
      ensures !old(isConnected) ==> tap.None? && sent == old(sent)
      ensures old(isConnected) ==> tap.Some? && sent == old(sent) + [tap.value]
      ensures tap.Some? ==> tap.value == TapRequest(
        Scaled((clientX - rect.left) / rect.width, TapSize(platform, dims).width),
        Scaled((clientY - rect.top) / rect.height, TapSize(platform, dims).height))
      ensures isConnected == old(isConnected) && platform == old(platform) && dims == old(dims)
        && socketOpen == old(socketOpen) && urlInput == old(urlInput) && textInput == old(textInput)
    {
      if !isConnected {
        return None;
      }
      var relX := (clientX - rect.left) / rect.width;
      var relY := (clientY - rect.top) / rect.height;
      var size := if platform == Android then dims.device else dims.display;
      var x := Round(Clamp01(relX) * size.width as real);
      var y := Round(Clamp01(relY) * size.height as real);
      tap := Some(TapRequest(x, y));
      sent := sent + [tap.value];
    }

    /**
     * `navigateToUrl`, given whether the request went through: the input is
     * cleared only then, and nothing is sent for a blank input or while
     * disconnected.
     */
    method NavigateToUrl(delivered: bool)
      modifies this
      ensures !old(isConnected) || UrlFor(old(urlInput)).None? ==> sent == old(sent) && urlInput == old(urlInput)
      ensures old(isConnected) && UrlFor(old(urlInput)).Some? ==>
        (sent == old(sent) + [OpenUrlRequest(UrlFor(old(urlInput)).value)]
        && urlInput == if delivered then [] else old(urlInput))
      ensures isConnected == old(isConnected) && platform == old(platform) && dims == old(dims)
        && socketOpen == old(socketOpen) && textInput == old(textInput)
    {
      if !isConnected {
        return;
      }
      var url := Trim(urlInput);
      if url == [] {
        return;
      }
      var fullUrl := if StartsWith(url, "http") then url else "https://" + url;
      sent := sent + [OpenUrlRequest(fullUrl)];
      if delivered {
        urlInput := [];
      }
    }

    /** `typeText`: the text is sent untrimmed, nothing for an empty input or while disconnected. */
    method TypeText(delivered: bool)
      modifies this
      ensures !old(isConnected) || old(textInput) == [] ==> sent == old(sent) && textInput == old(textInput)
      ensures old(isConnected) && old(textInput) != [] ==>
        (sent == old(sent) + [TypeRequest(old(textInput))]
        && textInput == if delivered then [] else old(textInput))
      ensures isConnected == old(isConnected) && platform == old(platform) && dims == old(dims)
        && socketOpen == old(socketOpen) && urlInput == old(urlInput)
    {
      if !isConnected {
        return;
      }
      var text := textInput;
      if text == [] {
        return;
      }
      sent := sent + [TypeRequest(text)];
      if delivered {
        textInput := [];
      }
    }

    /** A click on a list entry: the browser decodes its data-query, and an empty query sends nothing. */
    method ClickItem(item: Item)
      modifies this
      ensures old(isConnected) && UnescapeHtml(item.query) != []
        ==> sent == old(sent) + [TapElementRequest(UnescapeHtml(item.query))]
      ensures !old(isConnected) || UnescapeHtml(item.query) == [] ==> sent == old(sent)
      ensures isConnected == old(isConnected) && platform == old(platform) && dims == old(dims)
        && socketOpen == old(socketOpen) && urlInput == old(urlInput) && textInput == old(textInput)
    {
      var query := UnescapeHtml(item.query);
      if query == [] {
        return;
      }
      if !isConnected {
        return;
      }
      sent := sent + [TapElementRequest(query)];
    }
  }

  /** Connecting to an Android device scales taps to the reported pixel size, keeping the iOS record at its default. */
  method ConnectAndroid(size: Size) returns (p: Page)
    ensures p.platform == Android && p.dims == Dims(Size(390, 844), size)
    ensures TapSize(p.platform, p.dims) == size
  {
    p := new Page([], []);
    p.Connect(Some(Android), Some(size), true);
  }

  /** Clicking the entry of an element sends its text, or its resource id when it has none. */
  method ClickSendsQuery(el: Android.Element) returns (p: Page)
    requires Or(el.text, el.resourceId) != []
    ensures p.sent == [TapElementRequest(Or(el.text, el.resourceId))]
  {
    p := new Page([], []);
    p.Connect(Some(Android), None, true);
    p.SocketOpened();
    ItemReadsBack(el);
    p.ClickItem(ItemOf(el));
  }
}

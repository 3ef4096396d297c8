/**
 * The deterministic part of the Android driver (src/android.js): the uiautomator
 * dump parser and element filter, the element matcher behind tapElement and
 * typeIntoElement, shell escaping for `input text`, key-name mapping, and the
 * parsers for `adb devices`, `emulator -list-avds`, `pm list packages` and
 * `wm size` output. Every adb invocation is replaced by its output, given as input.
 */
module Android {
  import opened Common
  import opened Js

  datatype Bounds = Bounds(left: nat, top: nat, right: nat, bottom: nat)
  datatype Point = Point(x: int, y: int)

  /** One UI element kept from a uiautomator dump. */
  datatype Element = Element(
    text: string,
    resourceId: string,
    className: string,
    clickable: bool,
    enabled: bool,
    bounds: Bounds,
    center: Point)

  /** What the driver sends to the device through `adb shell input`. */
  datatype Input =
    | TapAt(x: int, y: int)
    | TextInput(escaped: string)
    | KeyEvent(code: KeyCode)

  /**
   * What pressKey interpolates: a keycode, the key itself, or (Inherited) the
   * string form of an Object.prototype property named by the key.
   */
  datatype KeyCode = Code(n: nat) | Verbatim(key: string) | Inherited(property: string)

  // ===========================================================================
  // <node ...> tags, as the global regex /<node[^>]*>/g yields them
  // ===========================================================================

  const NodeOpen: string := "<node"

  /** /<node[^>]*>/ matches at position i of xml. */
  predicate StartsNodeTag(xml: string, i: nat)
    requires i <= |xml|
  {
    NodeOpen <= xml[i..] && '>' in xml[i + |NodeOpen|..]
  }

  /** xml[i..j] is one match of /<node[^>]*>/. */
  predicate IsNodeTag(xml: string, i: nat, j: nat) {
    i + |NodeOpen| < j <= |xml| && NodeOpen <= xml[i..j] && xml[j - 1] == '>'
    && '>' !in xml[i + |NodeOpen|..j - 1]
  }

  /** The leftmost match at or after `from`: where the tag starts and where it ends (exclusive). */
  function NextNode(xml: string, from: nat): (m: Option<(nat, nat)>)
    requires from <= |xml|
    ensures m.Some? ==> from <= m.value.0 && IsNodeTag(xml, m.value.0, m.value.1)
    ensures m.Some? ==> forall i :: from <= i < m.value.0 ==> !StartsNodeTag(xml, i)
    ensures m.None? ==> forall i :: from <= i <= |xml| ==> !StartsNodeTag(xml, i)
    decreases |xml| - from
  {
    if StartsNodeTag(xml, from) then
      var rest := xml[from + |NodeOpen|..];
      var j := from + |NodeOpen| + IndexOf(rest, '>') + 1;
      assert xml[from + |NodeOpen|..j - 1] == rest[..IndexOf(rest, '>')];
      assert xml[from..j][..|NodeOpen|] == xml[from..][..|NodeOpen|];
      Some((from, j))
    else if from == |xml| then None
    else NextNode(xml, from + 1)
  }

  /** Every tag the global regex yields, in document order, resuming after each match. */
  function NodeTags(xml: string, from: nat): seq<string>
    requires from <= |xml|
    decreases |xml| - from
  {
    match NextNode(xml, from)
    case None => []
    case Some((i, j)) => [xml[i..j]] + NodeTags(xml, j)
  }

  // ===========================================================================
  // One tag: attributes, bounds, filter
  // ===========================================================================

  /**
   * node.match(new RegExp(`${attr}="([^"]*)"`)): the text between the quotes of the
   * first `attr="..."` occurrence, or '' when there is none. The name is not
   * anchored to an attribute boundary, exactly as in the regex.
   */
  function Attr(node: string, attr: string): (v: string)
    ensures '"' !in v
    decreases |node|
  {
    var key := attr + "=\"";
    if key <= node && '"' in node[|key|..] then
      node[|key|..|key| + IndexOf(node[|key|..], '"')]
    else if node == [] then ""
    else Attr(node[1..], attr)
  }

  /** A quoted attribute is read back, when nothing before it can be mistaken for it. */
  lemma {:induction false} AttrOfQuoted(before: string, attr: string, v: string, after: string)
    requires '"' !in before && '"' !in attr && '"' !in v
    ensures Attr(before + attr + "=\"" + v + "\"" + after, attr) == v
    decreases |before|
  {
    var key := attr + "=\"";
    var node := before + attr + "=\"" + v + "\"" + after;
    if before == [] {
      assert node == key + (v + "\"" + after);
      assert node[|key|..] == v + "\"" + after;
      IndexOfIs(node[|key|..], '"', |v|);
      assert node[|key|..|key| + |v|] == v;
    } else {
      var pre := before + attr + "=";
      assert node == pre + ("\"" + v + "\"" + after);
      assert node[|key| - 1] == pre[|key| - 1];
      assert node[|key| - 1] != '"';
      assert node[1..] == before[1..] + attr + "=\"" + v + "\"" + after;
      AttrOfQuoted(before[1..], attr, v, after);
    }
  }

  /** The literal lit at the head of s: what follows it. */
  function Expect(s: string, lit: string): (rest: Option<string>)
    ensures rest.Some? ==> s == lit + rest.value
  {
    if lit <= s then Some(s[|lit|..]) else None
  }

  /** A run of one or more digits at the head of s (\d+, greedy): its value and what follows. */
  function ReadNumber(s: string): (r: Option<(nat, string)>)
    ensures r.Some? ==> |r.value.1| < |s|
  {
    var k := DigitRun(s);
    if k == 0 then None else Some((DigitsValue(s[..k]), s[k..]))
  }

  lemma ReadNumberOf(n: nat, rest: string)
    requires rest == [] || !IsDigit(rest[0])
    ensures ReadNumber(NatToString(n) + rest) == Some((n, rest))
  {
    var s := NatToString(n) + rest;
    DigitRunOf(NatToString(n), rest);
    assert s[..|NatToString(n)|] == NatToString(n);
    DigitsValueOfNatToString(n);
  }

  /** \[(\d+),(\d+)\]\[(\d+),(\d+)\] anchored at the head of s. */
  function BoundsAt(s: string): Option<Bounds> {
    var r0 :- Expect(s, "[");
    var left :- ReadNumber(r0);
    var r1 :- Expect(left.1, ",");
    var top :- ReadNumber(r1);
    var r2 :- Expect(top.1, "][");
    var right :- ReadNumber(r2);
    var r3 :- Expect(right.1, ",");
    var bottom :- ReadNumber(r3);
    var _ :- Expect(bottom.1, "]");
    Some(Bounds(left.0, top.0, right.0, bottom.0))
  }

  /** bounds.match(/\[(\d+),(\d+)\]\[(\d+),(\d+)\]/): the leftmost match anywhere in s. */
  function FindBounds(s: string): Option<Bounds>
    decreases |s|
  {
    if BoundsAt(s).Some? then BoundsAt(s)
    else if s == [] then None
    else FindBounds(s[1..])
  }

  /** The text uiautomator writes for a bounds rectangle. */
  function BoundsText(b: Bounds): string {
    "[" + (NatToString(b.left) + ("," + (NatToString(b.top) + ("][" + (NatToString(b.right) + (","
    + (NatToString(b.bottom) + "]")))))))
  }

  lemma ExpectOf(lit: string, rest: string)
    ensures Expect(lit + rest, lit) == Some(rest)
  {
    assert (lit + rest)[..|lit|] == lit;
    assert (lit + rest)[|lit|..] == rest;
  }

  /** Parsing the written form of a rectangle gives the rectangle back. */
  lemma BoundsRoundTrip(b: Bounds)
    ensures FindBounds(BoundsText(b)) == Some(b)
  {
    var l, t, r, bo := NatToString(b.left), NatToString(b.top), NatToString(b.right), NatToString(b.bottom);
    var e4 := "]";
    var r3 := "," + (bo + e4);
    var r2 := "][" + (r + r3);
    var r1 := "," + (t + r2);
    var s := "[" + (l + r1);
    ExpectOf("[", l + r1);
    ReadNumberOf(b.left, r1);
    ExpectOf(",", t + r2);
    ReadNumberOf(b.top, r2);
    ExpectOf("][", r + r3);
    ReadNumberOf(b.right, r3);
    ExpectOf(",", bo + e4);
    ReadNumberOf(b.bottom, e4);
    ExpectOf("]", []);
    assert e4 == "]" + [];
    assert BoundsAt(s) == Some(b);
  }

  /** The center Math.round((left + right) / 2), Math.round((top + bottom) / 2). */
  function Center(b: Bounds): Point {
    Point(Round((b.left + b.right) as real / 2.0), Round((b.top + b.bottom) as real / 2.0))
  }

  /** The center is the midpoint rounded half up, and lies inside a well-formed rectangle. */
  lemma CenterIsRoundedMidpoint(b: Bounds)
    ensures Center(b).x == (b.left + b.right + 1) / 2 && Center(b).y == (b.top + b.bottom + 1) / 2
    ensures b.left <= b.right ==> b.left <= Center(b).x <= b.right
    ensures b.top <= b.bottom ==> b.top <= Center(b).y <= b.bottom
  {
    var c := Center(b);
    assert 2 * c.x - 1 <= b.left + b.right <= 2 * c.x;
    assert 2 * c.y - 1 <= b.top + b.bottom <= 2 * c.y;
  }

  /** The filter of getElements: labelled, clickable, or of a class/id that looks interactive. */
  predicate Keep(text: string, contentDesc: string, clickable: bool, resourceId: string, className: string) {
    text != "" || contentDesc != "" || clickable || Includes(resourceId, "button")
    || Includes(className, "Button") || Includes(className, "EditText")
    || Includes(className, "TextView") || Includes(className, "Image")
  }

  /** The element one tag contributes, if any. */
  function ElementOf(node: string): Option<Element>
  {
    var text := Attr(node, "text");
    var contentDesc := Attr(node, "content-desc");
    var resourceId := Attr(node, "resource-id");
    var className := Attr(node, "class");
    var clickable := Attr(node, "clickable") == "true";
    var enabled := Attr(node, "enabled") == "true";
    match FindBounds(Attr(node, "bounds"))
    case None => None
    case Some(b) =>
      if Keep(text, contentDesc, clickable, resourceId, className) then
        Some(Element(if text != "" then text else contentDesc,
                     LastSegment(resourceId, '/'), LastSegment(className, '.'),
                     clickable, enabled, b, Center(b)))
      else None
  }

  /**
   * A tag yields an element exactly when its bounds parse and it passes the filter;
   * the element's label falls back to content-desc, its id and class are the last
   * path segments, and its center is the rounded midpoint of its bounds.
   */
  lemma ElementOfFilter(node: string)
    ensures ElementOf(node).Some? <==> FindBounds(Attr(node, "bounds")).Some? && Keep(Attr(node, "text"),
      Attr(node, "content-desc"), Attr(node, "clickable") == "true", Attr(node, "resource-id"), Attr(node, "class"))
    ensures ElementOf(node).Some? ==> ElementOf(node).value.bounds == FindBounds(Attr(node, "bounds")).value
    ensures ElementOf(node).Some? ==> ElementOf(node).value.center == Center(ElementOf(node).value.bounds)
    ensures ElementOf(node).Some? ==>
      ElementOf(node).value.text == (if Attr(node, "text") != "" then Attr(node, "text") else Attr(node, "content-desc"))
    ensures ElementOf(node).Some? ==> ElementOf(node).value.resourceId == LastSegment(Attr(node, "resource-id"), '/')
    ensures ElementOf(node).Some? ==> ElementOf(node).value.className == LastSegment(Attr(node, "class"), '.')
    ensures ElementOf(node).Some? ==> ElementOf(node).value.clickable == (Attr(node, "clickable") == "true")
    ensures ElementOf(node).Some? ==> ElementOf(node).value.enabled == (Attr(node, "enabled") == "true")
  {
  }

  /** A worked example: bounds [100,200][300,260] are centered at (200,230). */
  lemma CenterExample()
    ensures Center(Bounds(100, 200, 300, 260)) == Point(200, 230)
  {
    CenterIsRoundedMidpoint(Bounds(100, 200, 300, 260));
  }

  /** The elements that read yields for a sequence of tags, in order. */
  function Collect(tags: seq<string>, read: string -> Option<Element>): seq<Element> {
    if tags == [] then []
    else (match read(tags[0]) case None => [] case Some(e) => [e]) + Collect(tags[1..], read)
  }

  /** The elements of a dump's tags: what getElements returns. */
  function ElementsOf(tags: seq<string>): seq<Element> {
    Collect(tags, ElementOf)
  }

  lemma {:induction false} CollectAppend(a: seq<string>, b: seq<string>, read: string -> Option<Element>)
    ensures Collect(a + b, read) == Collect(a, read) + Collect(b, read)
  {
    if a != [] {
      assert (a + b)[1..] == a[1..] + b;
      CollectAppend(a[1..], b, read);
    } else {
      assert a + b == b;
    }
  }

  /** Every element kept is read from some tag: nothing is invented. */
  lemma {:induction false} ElementsComeFromTags(tags: seq<string>, k: nat)
    requires k < |ElementsOf(tags)|
    ensures exists i :: 0 <= i < |tags| && ElementOf(tags[i]) == Some(ElementsOf(tags)[k])
  {
    CollectFrom(tags, ElementOf, k);
  }

  lemma {:induction false} CollectFrom(tags: seq<string>, read: string -> Option<Element>, k: nat)
    requires k < |Collect(tags, read)|
    ensures exists i :: 0 <= i < |tags| && read(tags[i]) == Some(Collect(tags, read)[k])
  {
    var head := match read(tags[0]) case None => [] case Some(e) => [e];
    assert Collect(tags, read) == head + Collect(tags[1..], read);
    if k < |head| {
      assert read(tags[0]) == Some(Collect(tags, read)[k]);
    } else {
      CollectFrom(tags[1..], read, k - |head|);
      var i :| 0 <= i < |tags[1..]| && read(tags[1..][i]) == Some(Collect(tags[1..], read)[k - |head|]);
      assert read(tags[i + 1]) == Some(Collect(tags, read)[k]);
    }
  }

  /** Every tag that yields an element has that element in the list. */
  lemma {:induction false} CollectKeeps(tags: seq<string>, read: string -> Option<Element>, i: nat)
    requires i < |tags| && read(tags[i]).Some?
    ensures read(tags[i]).value in Collect(tags, read)
  {
    var head := match read(tags[0]) case None => [] case Some(e) => [e];
    assert Collect(tags, read) == head + Collect(tags[1..], read);
    if i > 0 {
      assert tags[1..][i - 1] == tags[i];
      CollectKeeps(tags[1..], read, i - 1);
    }
  }

  /** One match of the global regex moves the scan past the tag it found, pushing what the tag yields. */
  lemma ScanStep(xml: string, pos: nat, read: string -> Option<Element>, elements: seq<Element>)
    requires pos <= |xml| && NextNode(xml, pos).Some?
    ensures var (i, j) := NextNode(xml, pos).value; pos < j <= |xml|
    ensures var (i, j) := NextNode(xml, pos).value; read(xml[i..j]).None? ==>
      elements + Collect(NodeTags(xml, pos), read) == elements + Collect(NodeTags(xml, j), read)
    ensures var (i, j) := NextNode(xml, pos).value; read(xml[i..j]).Some? ==>
      elements + Collect(NodeTags(xml, pos), read)
      == (elements + [read(xml[i..j]).value]) + Collect(NodeTags(xml, j), read)
  {
    var (i, j) := NextNode(xml, pos).value;
    var tag := xml[i..j];
    var later := Collect(NodeTags(xml, j), read);
    assert NodeTags(xml, pos) == [tag] + NodeTags(xml, j);
    CollectAppend([tag], NodeTags(xml, j), read);
    assert Collect([tag][1..], read) == [];
    if read(tag).Some? {
      assert Collect(NodeTags(xml, pos), read) == [read(tag).value] + later;
      assert elements + ([read(tag).value] + later) == (elements + [read(tag).value]) + later;
    } else {
      assert Collect(NodeTags(xml, pos), read) == later;
    }
  }

  /**
   * The loop of getElements: run the global regex over the dump and push what each
   * tag yields; read is what the loop body does with one tag.
   */
  method ScanNodes(xml: string, read: string -> Option<Element>) returns (elements: seq<Element>)
    ensures elements == Collect(NodeTags(xml, 0), read)
  {
    elements := [];
    var pos := 0;
    var m := NextNode(xml, pos);
    while m.Some?
      invariant pos <= |xml| && m == NextNode(xml, pos)
      invariant Collect(NodeTags(xml, 0), read) == elements + Collect(NodeTags(xml, pos), read)
      decreases |xml| - pos
    {
      var node := xml[m.value.0..m.value.1];
      ScanStep(xml, pos, read, elements);
      pos := m.value.1;
      var e := read(node);
      if e.Some? {
        elements := elements + [e.value];
      }
      m := NextNode(xml, pos);
    }
    assert NodeTags(xml, pos) == [];
    assert elements + [] == elements;
  }

  /**
   * getElements once the dump has been read: every <node> tag in document order,
   * each read by ElementOf (attributes, bounds, filter).
   */
  method GetElements(xml: string) returns (elements: seq<Element>)
    ensures elements == ElementsOf(NodeTags(xml, 0))
    ensures forall k :: 0 <= k < |elements| ==> elements[k].center == Center(elements[k].bounds)
  {
    elements := ScanNodes(xml, ElementOf);
    forall k | 0 <= k < |elements| ensures elements[k].center == Center(elements[k].bounds) {
      ElementsComeFromTags(NodeTags(xml, 0), k);
      var i :| 0 <= i < |NodeTags(xml, 0)| && ElementOf(NodeTags(xml, 0)[i]) == Some(elements[k]);
      ElementOfFilter(NodeTags(xml, 0)[i]);
    }
  }

  // ===========================================================================
  // tap, recording
  // ===========================================================================

  /** tap: `input tap` at the coordinates rounded as Math.round does. */
  function Tap(x: real, y: real): (sent: Input)
    ensures sent.TapAt?
    ensures sent.x as real - 0.5 <= x < sent.x as real + 0.5
    ensures sent.y as real - 0.5 <= y < sent.y as real + 0.5
  {
    TapAt(Round(x), Round(y))
  }

  /** What startRecording hands back: the device-side file the recording goes to. */
  datatype RecordInfo = RecordInfo(file: string)

  const RecordingPrefix: string := "/sdcard/simdeck_recording_"

  /** startRecording at time `now` (Date.now()): the file is named after the start time. */
  function StartRecording(now: nat): (info: RecordInfo)
    ensures RecordingPrefix <= info.file
    ensures info.file == RecordingPrefix + NatToString(now) + ".mp4"
  {
    RecordInfo(RecordingPrefix + NatToString(now) + ".mp4")
  }

  /** Recordings started at different times go to different files. */
  lemma RecordingFilesDistinct(a: nat, b: nat)
    requires StartRecording(a) == StartRecording(b)
    ensures a == b
  {
    var sa, sb := NatToString(a), NatToString(b);
    var fa, fb := StartRecording(a).file, StartRecording(b).file;
    assert |sa| == |sb|;
    assert sa == fa[|RecordingPrefix|..|RecordingPrefix| + |sa|];
    assert sb == fb[|RecordingPrefix|..|RecordingPrefix| + |sb|];
    DigitsValueOfNatToString(a);
    DigitsValueOfNatToString(b);
  }

  // ===========================================================================
  // tapElement and typeIntoElement
  // ===========================================================================

  /** The predicate of tapElement's find: equality in exact mode, else case-insensitive substring. */
  predicate Matches(el: Element, query: string, exact: bool) {
    if exact then el.text == query || el.resourceId == query
    else
      var q := ToLowerCase(query);
      Includes(ToLowerCase(el.text), q) || Includes(ToLowerCase(el.resourceId), q)
      || Includes(ToLowerCase(el.className), q)
  }

  /** elements.find(...): the index of the first element that matches. */
  function FindMatch(elements: seq<Element>, query: string, exact: bool): (k: Option<nat>)
    ensures k.Some? ==> k.value < |elements| && Matches(elements[k.value], query, exact)
    ensures k.Some? ==> forall i :: 0 <= i < k.value ==> !Matches(elements[i], query, exact)
    ensures k.None? ==> forall i :: 0 <= i < |elements| ==> !Matches(elements[i], query, exact)
  {
    if elements == [] then None
    else if Matches(elements[0], query, exact) then Some(0)
    else match FindMatch(elements[1..], query, exact)
      case None => None
      case Some(k) => Some(k + 1)
  }

  datatype TapResult = Tapped(element: Element, tappedAt: Point) | NotFound(error: string)

  /** tapElement over the current elements: the result and the input it sends. */
  function TapElement(elements: seq<Element>, query: string, exact: bool): (out: (TapResult, seq<Input>))
    ensures out.0.NotFound? <==> forall i :: 0 <= i < |elements| ==> !Matches(elements[i], query, exact)
    ensures out.0.NotFound? ==> out.0.error == "Element not found: " + query && out.1 == []
    ensures out.0.Tapped? ==>
              exists k :: 0 <= k < |elements| && elements[k] == out.0.element
                          && Matches(elements[k], query, exact)
                          && (forall i :: 0 <= i < k ==> !Matches(elements[i], query, exact))
    ensures out.0.Tapped? ==>
              out.0.tappedAt == out.0.element.center
              && out.1 == [TapAt(out.0.element.center.x, out.0.element.center.y)]
  {
    match FindMatch(elements, query, exact)
    case None => (NotFound("Element not found: " + query), [])
    case Some(k) =>
      var el := elements[k];
      RoundOfInt(el.center.x);
      RoundOfInt(el.center.y);
      (Tapped(el, el.center), [Tap(el.center.x as real, el.center.y as real)])
  }

  datatype TypeResult = TypedInto(typed: string, element: Element) | TypeFailed(error: string)

  /** typeIntoElement: tap the first substring match, then type; on no match return the tap failure. */
  function TypeIntoElement(elements: seq<Element>, query: string, text: string): (out: (TypeResult, seq<Input>))
    ensures out.0.TypeFailed? <==> forall i :: 0 <= i < |elements| ==> !Matches(elements[i], query, false)
    ensures out.0.TypeFailed? ==> out.0.error == "Element not found: " + query && out.1 == []
    ensures out.0.TypedInto? ==>
              out.0.typed == text
              && TapElement(elements, query, false).0 == Tapped(out.0.element, out.0.element.center)
              && out.1 == [TapAt(out.0.element.center.x, out.0.element.center.y), TextInput(ShellEscape(text))]
  {
    var tap := TapElement(elements, query, false);
    if tap.0.NotFound? then (TypeFailed(tap.0.error), tap.1)
    else (TypedInto(text, tap.0.element), tap.1 + [TextInput(ShellEscape(text))])
  }

  // ===========================================================================
  // typeText escaping
  // ===========================================================================

  /** The global replaces typeText applies, in order: each character and what replaces it. */
  const EscapePieces: seq<(char, string)> := [
    ('\\', "\\\\"), ('"', "\\\""), ('\'', "\\'"), (' ', "%s"), ('&', "\\&"),
    ('<', "\\<"), ('>', "\\>"), ('|', "\\|"), (';', "\\;")]

  /** The text typeText hands to `input text`. */
  function ShellEscape(text: string): string {
    Chain(EscapePieces, text)
  }

  /** How one character is escaped: a backslash before \ " ' & < > | ;, and %s for a space. */
  function EscapeChar(c: char): string {
    if c == ' ' then "%s"
    else if BackslashEscaped(c) then ['\\', c]
    else [c]
  }

  predicate BackslashEscaped(c: char) {
    c == '\\' || c == '"' || OnlyDeviceEscaped(c)
  }

  function EscapeEach(s: string): string {
    if s == [] then [] else EscapeChar(s[0]) + EscapeEach(s[1..])
  }

  lemma EscapePiecesSettled()
    ensures Settled(EscapePieces)
  {
  }

  lemma LookupEscape(c: char)
    ensures Lookup(EscapePieces, c) == EscapeChar(c)
  {
    var k := if c == '\\' then 0 else if c == '"' then 1 else if c == '\'' then 2 else if c == ' ' then 3
      else if c == '&' then 4 else if c == '<' then 5 else if c == '>' then 6 else if c == '|' then 7
      else if c == ';' then 8 else 9;
    LookupAt(EscapePieces, k, c);
  }

  lemma EscapeOne(c: char)
    ensures ShellEscape([c]) == EscapeChar(c)
  {
    EscapePiecesSettled();
    ChainLookup(EscapePieces, c);
    LookupEscape(c);
  }

  /** The chain acts on each character independently, so no inserted backslash is escaped again. */
  lemma {:induction false} ShellEscapeIsPerCharacter(s: string)
    ensures ShellEscape(s) == EscapeEach(s)
  {
    if s != [] {
      assert s == [s[0]] + s[1..];
      ChainAppend(EscapePieces, [s[0]], s[1..]);
      EscapeOne(s[0]);
      ShellEscapeIsPerCharacter(s[1..]);
    }
  }

  // The command `adb -s <id> shell input text "<escaped>"` is read by two shells:
  // the host shell of child_process.exec reads the escaped text inside double
  // quotes, and adb joins the words it is given into one command line that the
  // device shell reads again, unquoted.

  /**
   * The host shell's double-quote pass: a backslash is dropped only before
   * $ ` " \ and newline, and a backslash-newline pair is removed as a line
   * continuation (section 2.2.3 of the POSIX Shell Command Language).
   * Expansion of $ and ` and the closing " are outside this function: it is
   * applied only to text in which neither occurs unescaped.
   */
  function HostDoubleQuoted(s: string): string
    decreases |s|
  {
    if s == [] then []
    else if s[0] == '\\' && |s| >= 2 && s[1] == '\n' then HostDoubleQuoted(s[2..])
    else if s[0] == '\\' && |s| >= 2 && DoubleQuoteSpecial(s[1]) then [s[1]] + HostDoubleQuoted(s[2..])
    else [s[0]] + HostDoubleQuoted(s[1..])
  }

  /** The characters a backslash escapes inside double quotes. */
  predicate DoubleQuoteSpecial(c: char) {
    c == '$' || c == '`' || c == '"' || c == '\\' || c == '\n'
  }

  /**
   * The device shell's pass over an unquoted word: a backslash keeps the next
   * character, and a backslash before a newline joins the lines. It describes
   * the shell only for words whose unescaped characters are all inert.
   */
  function DeviceUnquoted(s: string): string
    decreases |s|
  {
    if s == [] then []
    else if s[0] == '\\' && |s| >= 2 then (if s[1] == '\n' then [] else [s[1]]) + DeviceUnquoted(s[2..])
    else [s[0]] + DeviceUnquoted(s[1..])
  }

  /** What `input text` receives for the text typeText was given. */
  function DeviceText(text: string): string {
    DeviceUnquoted(HostDoubleQuoted(ShellEscape(text)))
  }

  predicate AsciiAlnum(c: char) {
    'a' <= c <= 'z' || 'A' <= c <= 'Z' || '0' <= c <= '9'
  }

  /** The characters typeText escapes with a backslash that the host shell leaves alone. */
  predicate OnlyDeviceEscaped(c: char) {
    c == '\'' || c == '&' || c == '<' || c == '>' || c == '|' || c == ';'
  }

  /**
   * Characters that reach `input text` intact through both shells: letters and
   * digits, the space, the characters typeText escapes other than \ and ",
   * and punctuation no shell treats specially.
   */
  predicate TypedSafe(c: char) {
    AsciiAlnum(c) || c == ' ' || OnlyDeviceEscaped(c)
    || c == '.' || c == ',' || c == '-' || c == '_' || c == '+' || c == ':' || c == '@' || c == '/'
    || c == '=' || c == '%'
  }

  /** All characters of s are safe. */
  predicate AllSafe(s: string) {
    forall i :: 0 <= i < |s| ==> TypedSafe(s[i])
  }

  /** s holds neither \ nor ", the two characters the host's double-quote pass unescapes. */
  predicate HostInert(s: string) {
    forall i :: 0 <= i < |s| ==> s[i] != '\\' && s[i] != '"'
  }

  lemma SafeIsHostInert(s: string)
    requires AllSafe(s)
    ensures HostInert(s)
  {
    forall i | 0 <= i < |s|
      ensures s[i] != '\\' && s[i] != '"'
    {
      assert TypedSafe(s[i]);
    }
  }

  /**
   * For text made of safe characters the device receives it unchanged except
   * that each space became %s, the encoding `input text` expects; a literal
   * "%s" is therefore not told apart from a space.
   */
  lemma ShellSeesText(s: string)
    requires AllSafe(s)
    ensures DeviceText(s) == ReplaceAll(s, ' ', "%s")
  {
    ShellEscapeIsPerCharacter(s);
    SafeIsHostInert(s);
    HostKeepsEach(s, []);
    UnquoteEach(s, []);
    assert EscapeEach(s) + [] == EscapeEach(s);
    assert ReplaceAll(s, ' ', "%s") + [] == ReplaceAll(s, ' ', "%s");
  }

  lemma {:induction false} EscapeEachAppend(a: string, b: string)
    ensures EscapeEach(a + b) == EscapeEach(a) + EscapeEach(b)
  {
    if a == [] {
      assert a + b == b;
    } else {
      assert (a + b)[0] == a[0] && (a + b)[1..] == a[1..] + b;
      EscapeEachAppend(a[1..], b);
      AppendAssoc(EscapeChar(a[0]), EscapeEach(a[1..]), EscapeEach(b));
    }
  }

  /** Without \ and " the escaped text holds no sequence the double-quote pass changes. */
  lemma {:induction false} HostKeepsEach(s: string, rest: string)
    requires HostInert(s)
    ensures HostDoubleQuoted(EscapeEach(s) + rest) == EscapeEach(s) + HostDoubleQuoted(rest)
  {
    if s == [] {
      assert EscapeEach(s) + rest == rest;
    } else {
      var head, tail := EscapeChar(s[0]), EscapeEach(s[1..]);
      assert EscapeEach(s) == head + tail;
      AppendAssoc(head, tail, rest);
      HostKeepsOne(s[0], tail + rest);
      assert HostInert(s[1..]) by {
        assert forall i :: 0 <= i < |s[1..]| ==> s[1..][i] == s[i + 1];
      }
      HostKeepsEach(s[1..], rest);
      AppendAssoc(head, tail, HostDoubleQuoted(rest));
    }
  }

  lemma HostKeepsOne(c: char, rest: string)
    requires c != '\\' && c != '"'
    ensures HostDoubleQuoted(EscapeChar(c) + rest) == EscapeChar(c) + HostDoubleQuoted(rest)
  {
    var e := EscapeChar(c) + rest;
    if c == ' ' {
      assert e == ['%', 's'] + rest;
      assert e[1..] == ['s'] + rest && e[1..][1..] == rest;
    } else if c == '\'' || c == '&' || c == '<' || c == '>' || c == '|' || c == ';' {
      assert e == ['\\', c] + rest;
      assert !DoubleQuoteSpecial(c);
      assert e[1..] == [c] + rest && e[1..][1..] == rest;
    } else {
      assert e == [c] + rest;
      assert e[1..] == rest;
    }
  }

  /** The device shell's pass undoes each escape typeText made. */
  lemma {:induction false} UnquoteEach(s: string, rest: string)
    ensures DeviceUnquoted(EscapeEach(s) + rest) == ReplaceAll(s, ' ', "%s") + DeviceUnquoted(rest)
  {
    if s == [] {
      assert EscapeEach(s) + rest == rest;
    } else {
      var head, tail := EscapeChar(s[0]), EscapeEach(s[1..]);
      assert EscapeEach(s) == head + tail;
      AppendAssoc(head, tail, rest);
      UnquoteOne(s[0], tail + rest);
      UnquoteEach(s[1..], rest);
      var r := if s[0] == ' ' then "%s" else [s[0]];
      assert ReplaceAll(s, ' ', "%s") == r + ReplaceAll(s[1..], ' ', "%s");
      AppendAssoc(r, ReplaceAll(s[1..], ' ', "%s"), DeviceUnquoted(rest));
    }
  }

  lemma UnquoteOne(c: char, rest: string)
    ensures DeviceUnquoted(EscapeChar(c) + rest) == (if c == ' ' then "%s" else [c]) + DeviceUnquoted(rest)
  {
    var e := EscapeChar(c) + rest;
    if c == ' ' {
      assert e == ['%', 's'] + rest;
      assert e[1..] == ['s'] + rest && e[1..][1..] == rest;
    } else if BackslashEscaped(c) {
      assert e == ['\\', c] + rest;
      assert e[2..] == rest;
    } else {
      assert e == [c] + rest;
      assert e[1..] == rest;
    }
  }

  /** The escaped form of x \ y, split at the backslash. */
  lemma EscapeAround(x: string, c: char, y: string)
    ensures EscapeEach(x + [c] + y) == EscapeEach(x) + (EscapeChar(c) + EscapeEach(y))
  {
    EscapeEachAppend(x + [c], y);
    EscapeEachAppend(x, [c]);
    EscapeSingle(c);
    AppendAssoc(EscapeEach(x), EscapeChar(c), EscapeEach(y));
  }

  lemma EscapeSingle(c: char)
    ensures EscapeEach([c]) == EscapeChar(c)
  {
    assert [c][1..] == [];
    assert EscapeChar(c) + [] == EscapeChar(c);
  }

  /**
   * As written, a backslash is escaped once for two shells: the host turns \\
   * back into \, which the device shell then drops, so x\y is typed as xy
   * whenever y starts with a letter or digit.
   */
  lemma BackslashLost(x: string, y: string)
    requires AllSafe(x) && AllSafe(y) && y != [] && AsciiAlnum(y[0])
    ensures DeviceText(x + ['\\'] + y) == ReplaceAll(x + y, ' ', "%s")
  {
    ShellEscapeIsPerCharacter(x + ['\\'] + y);
    EscapeAround(x, '\\', y);
    var ey := EscapeEach(y);
    SafeIsHostInert(x);
    SafeIsHostInert(y);
    HostKeepsEach(x, ['\\', '\\'] + ey);
    BackslashHalved(y);
    UnquoteEach(x, ['\\'] + ey);
    BackslashDropped(y);
    ReplaceAllAppend(x, y, ' ', "%s");
  }

  lemma BackslashHalved(y: string)
    requires HostInert(y)
    ensures HostDoubleQuoted(['\\', '\\'] + EscapeEach(y)) == ['\\'] + EscapeEach(y)
  {
    var ey := EscapeEach(y);
    assert (['\\', '\\'] + ey)[2..] == ey;
    HostKeepsEach(y, []);
    assert ey + [] == ey;
  }

  lemma BackslashDropped(y: string)
    requires y != [] && AsciiAlnum(y[0])
    ensures DeviceUnquoted(['\\'] + EscapeEach(y)) == ReplaceAll(y, ' ', "%s")
  {
    var rest := EscapeEach(y[1..]);
    assert EscapeEach(y) == EscapeChar(y[0]) + rest;
    assert EscapeChar(y[0]) == [y[0]];
    var e := ['\\'] + EscapeEach(y);
    assert e == ['\\', y[0]] + rest;
    assert e[2..] == rest;
    assert DeviceUnquoted(e) == [y[0]] + DeviceUnquoted(rest);
    UnquoteEach(y[1..], []);
    assert rest + [] == rest;
    assert ReplaceAll(y, ' ', "%s") == [y[0]] + ReplaceAll(y[1..], ' ', "%s");
  }

  /**
   * As written, the host turns \" back into a bare ", so the device shell
   * receives an unescaped double quote, which opens a quotation there.
   */
  lemma QuoteReachesDeviceBare(x: string, y: string)
    requires AllSafe(x) && AllSafe(y)
    ensures HostDoubleQuoted(ShellEscape(x + ['"'] + y)) == EscapeEach(x) + ['"'] + EscapeEach(y)
  {
    ShellEscapeIsPerCharacter(x + ['"'] + y);
    EscapeAround(x, '"', y);
    assert EscapeChar('"') == ['\\', '"'];
    SafeIsHostInert(x);
    SafeIsHostInert(y);
    HostKeepsEach(x, ['\\', '"'] + EscapeEach(y));
    QuoteUnescaped(y);
    AppendAssoc(EscapeEach(x), ['"'], EscapeEach(y));
  }

  lemma QuoteUnescaped(y: string)
    requires HostInert(y)
    ensures HostDoubleQuoted(['\\', '"'] + EscapeEach(y)) == ['"'] + EscapeEach(y)
  {
    var ey := EscapeEach(y);
    assert (['\\', '"'] + ey)[2..] == ey;
    HostKeepsEach(y, []);
    assert ey + [] == ey;
  }

  /**
   * Corrected escaping: a space becomes %s, letters and digits stay, and every
   * other character gets a backslash; the command is then run without the host
   * shell (as an argument list, the way bootEmulator spawns the emulator), so
   * the device shell is the only one to read it.
   */
  function DeviceEscape(text: string): (escaped: string)
    ensures |escaped| >= |text|
  {
    if text == [] then []
    else
      var c := text[0];
      (if c == ' ' then "%s" else if AsciiAlnum(c) then [c] else ['\\', c]) + DeviceEscape(text[1..])
  }

  /** A word the device shell reads without expanding anything: inert characters, or escaped ones. */
  predicate InertWord(s: string)
    decreases |s|
  {
    s == []
    || (s[0] == '\\' && |s| >= 2 && s[1] != '\n' && InertWord(s[2..]))
    || ((AsciiAlnum(s[0]) || s[0] == '%') && InertWord(s[1..]))
  }

  /**
   * With the corrected escaping every text without a newline reaches `input text`
   * with each space as %s and nothing else changed, and the device shell finds
   * nothing in it to expand.
   */
  lemma {:induction false} DeviceEscapeSurvives(s: string)
    requires '\n' !in s
    ensures InertWord(DeviceEscape(s))
    ensures DeviceUnquoted(DeviceEscape(s)) == ReplaceAll(s, ' ', "%s")
  {
    if s != [] {
      var c := s[0];
      var e := DeviceEscape(s);
      var rest := DeviceEscape(s[1..]);
      assert c != '\n';
      DeviceEscapeSurvives(s[1..]);
      if c == ' ' {
        assert e == "%s" + rest;
        assert e[1..] == "s" + rest && e[1..][1..] == rest;
        assert InertWord(e[1..]);
      } else if AsciiAlnum(c) {
        assert e == [c] + rest && e[1..] == rest;
      } else {
        assert e == ['\\', c] + rest && e[2..] == rest;
      }
    }
  }

  /** A space and the two characters %s reach the device as the same text. */
  lemma SpaceAndPercentSCollide()
    ensures ShellEscape(" ") == ShellEscape("%s") == "%s"
  {
    EscapeOne(' ');
    assert [' '] == " ";
    PercentSUntouched("%s");
  }

  lemma PercentSUntouched(s: string)
    requires s == "%s"
    ensures ShellEscape(s) == s
  {
    forall i | 0 <= i < |EscapePieces| ensures EscapePieces[i].0 !in s {
      assert EscapePieces[i].0 != '%' && EscapePieces[i].0 != 's';
    }
    ChainAbsent(EscapePieces, s);
  }

  // ===========================================================================
  // pressKey
  // ===========================================================================

  const KeyMap: map<string, nat> := map[
    "home" := 3, "back" := 4, "menu" := 82, "power" := 26, "volumeUp" := 24,
    "volumeDown" := 25, "enter" := 66, "delete" := 67, "tab" := 61]

  /**
   * The properties every object literal inherits from Object.prototype: for
   * these `keyMap[key]` is a function or an object, which is truthy.
   */
  const ObjectPrototypeNames: set<string> := {
    "constructor", "hasOwnProperty", "isPrototypeOf", "propertyIsEnumerable",
    "toLocaleString", "toString", "valueOf", "__proto__",
    "__defineGetter__", "__defineSetter__", "__lookupGetter__", "__lookupSetter__"}

  /**
   * keyMap[key] || key: a known name gives its keycode, an inherited property
   * gives that property's string form, and anything else goes through verbatim.
   */
  function KeyCodeFor(key: string): (k: KeyCode)
    ensures key in KeyMap ==> k == Code(KeyMap[key]) && k.n > 0
    ensures key !in KeyMap && key in ObjectPrototypeNames ==> k == Inherited(key)
    ensures key !in KeyMap && key !in ObjectPrototypeNames ==> k == Verbatim(key)
  {
    if key in KeyMap && KeyMap[key] != 0 then Code(KeyMap[key])
    else if key in ObjectPrototypeNames then Inherited(key)
    else Verbatim(key)
  }

  /** The nine named keys and their Android keycodes; distinct names give distinct codes. */
  lemma KeyCodes()
    ensures KeyCodeFor("home") == Code(3) && KeyCodeFor("back") == Code(4)
    ensures KeyCodeFor("menu") == Code(82) && KeyCodeFor("power") == Code(26)
    ensures KeyCodeFor("volumeUp") == Code(24) && KeyCodeFor("volumeDown") == Code(25)
    ensures KeyCodeFor("enter") == Code(66) && KeyCodeFor("delete") == Code(67)
    ensures KeyCodeFor("tab") == Code(61)
    ensures forall a, b :: a in KeyMap && b in KeyMap && a != b ==> KeyCodeFor(a) != KeyCodeFor(b)
  {
  }

  /** pressKey: the single key event sent. */
  function PressKey(key: string): (sent: seq<Input>)
    ensures |sent| == 1 && sent[0].KeyEvent?
    ensures key in KeyMap ==> sent[0].code == Code(KeyMap[key])
    ensures key !in KeyMap && key in ObjectPrototypeNames ==> sent[0].code == Inherited(key)
    ensures key !in KeyMap && key !in ObjectPrototypeNames ==> sent[0].code == Verbatim(key)
  {
    [KeyEvent(KeyCodeFor(key))]
  }

  // ===========================================================================
  // pm list packages, wm size
  // ===========================================================================

  /** One line of `pm list packages`: the first "package:" removed, then trimmed. */
  function PackageName(line: string): string {
    Trim(ReplaceFirst(line, "package:", ""))
  }

  /** Each line mapped by name, empty results dropped, order kept. */
  function NonEmptyNames(lines: seq<string>, name: string -> string): (apps: seq<string>)
    ensures |apps| <= |lines|
    ensures forall i :: 0 <= i < |apps| ==> apps[i] != []
  {
    if lines == [] then []
    else (if name(lines[0]) != [] then [name(lines[0])] else []) + NonEmptyNames(lines[1..], name)
  }

  function Packages(lines: seq<string>): seq<string> {
    NonEmptyNames(lines, PackageName)
  }

  /** listApps: package names in output order, none of them empty. */
  function ListApps(output: string): (apps: seq<string>)
    ensures forall i :: 0 <= i < |apps| ==> apps[i] != []
  {
    Packages(Split(Trim(output), '\n'))
  }

  function PackageLines(pkgs: seq<string>): (lines: seq<string>)
    ensures |lines| == |pkgs|
    ensures forall i :: 0 <= i < |pkgs| ==> lines[i] == "package:" + pkgs[i]
  {
    seq(|pkgs|, i requires 0 <= i < |pkgs| => "package:" + pkgs[i])
  }

  /** The text `pm list packages` prints for a list of packages. */
  function PmOutput(pkgs: seq<string>): string {
    if pkgs == [] then "" else Join(PackageLines(pkgs), '\n') + "\n"
  }

  predicate PlainName(p: string) {
    p != [] && Trimmed(p) && '\n' !in p
  }

  lemma {:induction false} PackagesOfLines(pkgs: seq<string>)
    requires forall i :: 0 <= i < |pkgs| ==> PlainName(pkgs[i])
    ensures Packages(PackageLines(pkgs)) == pkgs
  {
    forall i | 0 <= i < |pkgs| ensures PackageName(PackageLines(pkgs)[i]) == pkgs[i] {
      PackageNameOf(pkgs[i]);
    }
    NamesOfLines(PackageLines(pkgs), PackageName, pkgs);
  }

  lemma {:induction false} NamesOfLines(lines: seq<string>, name: string -> string, names: seq<string>)
    requires |lines| == |names|
    requires forall i :: 0 <= i < |lines| ==> name(lines[i]) == names[i] && names[i] != []
    ensures NonEmptyNames(lines, name) == names
  {
    if lines != [] {
      NamesOfLines(lines[1..], name, names[1..]);
    }
  }

  lemma PackageNameOf(p: string)
    requires PlainName(p)
    ensures PackageName("package:" + p) == p
  {
    assert ReplaceFirst("package:" + p, "package:", "") == p;
  }

  lemma BlankLines()
    ensures forall k :: 0 <= k < |"\n"| ==> IsWhitespace("\n"[k])
    ensures forall k :: 0 <= k < |"\n\n"| ==> IsWhitespace("\n\n"[k])
  {
  }

  /** Reading back what `pm list packages` prints for plain package names gives them back, in order. */
  lemma ListAppsRoundTrip(pkgs: seq<string>)
    requires forall i :: 0 <= i < |pkgs| ==> PlainName(pkgs[i])
    ensures ListApps(PmOutput(pkgs)) == pkgs
  {
    if pkgs != [] {
      var lines := PackageLines(pkgs);
      var last := pkgs[|pkgs| - 1];
      assert lines[|lines| - 1] == "package:" + last;
      assert forall i :: 0 <= i < |lines| ==> '\n' !in lines[i] by {
        forall i | 0 <= i < |lines| ensures '\n' !in lines[i] {
          assert lines[i] == "package:" + pkgs[i];
        }
      }
      BlankLines();
      ReadLines(lines, "\n");
      PackagesOfLines(pkgs);
    } else {
      assert Split("", '\n') == [""];
    }
  }

  /** (\d+)x(\d+) anchored at the head of s. */
  function SizeAt(s: string): Option<Size> {
    var w :- ReadNumber(s);
    var r :- Expect(w.1, "x");
    var h :- ReadNumber(r);
    Some(Size(w.0, h.0))
  }

  /** at finds something at position i of s, and nothing at any earlier position. */
  predicate FirstAt<T>(s: string, at: string -> Option<T>, i: nat) {
    i <= |s| && at(s[i..]).Some? && forall j :: 0 <= j < i ==> at(s[j..]).None?
  }

  /** A regex match without the g flag: what at finds at the leftmost position where it finds anything. */
  function Leftmost<T>(s: string, at: string -> Option<T>): Option<T>
    decreases |s|
  {
    if at(s).Some? then at(s)
    else if s == [] then None
    else Leftmost(s[1..], at)
  }

  /** Leftmost finds the leftmost position, and nothing when there is none. */
  lemma {:induction false} LeftmostFirst<T>(s: string, at: string -> Option<T>)
    ensures Leftmost(s, at).None? <==> forall i :: 0 <= i <= |s| ==> at(s[i..]).None?
    ensures forall i: nat :: FirstAt(s, at, i) ==> Leftmost(s, at) == at(s[i..])
    decreases |s|
  {
    assert s[0..] == s;
    if at(s).Some? {
      assert forall i: nat :: FirstAt(s, at, i) ==> i == 0;
    } else if s != [] {
      LeftmostFirst(s[1..], at);
      assert forall i :: 1 <= i <= |s| ==> s[i..] == s[1..][i - 1..];
      forall i: nat | FirstAt(s, at, i) ensures FirstAt(s[1..], at, i - 1) {
        forall j | 0 <= j < i - 1 ensures at(s[1..][j..]).None? {
          assert s[1..][j..] == s[j + 1..];
        }
      }
    }
  }

  /** output.match(/(\d+)x(\d+)/) */
  function FindSize(s: string): Option<Size> {
    Leftmost(s, SizeAt)
  }

  /**
   * getScreenSize: the size of the leftmost WxH in the output; 1080x1920 when
   * there is none.
   */
  function GetScreenSize(output: string): (size: Size)
    ensures (forall i :: 0 <= i <= |output| ==> SizeAt(output[i..]).None?) ==> size == Size(1080, 1920)
    ensures forall i: nat :: FirstAt(output, SizeAt, i) ==> size == SizeAt(output[i..]).value
  {
    LeftmostFirst(output, SizeAt);
    match FindSize(output)
    case None => Size(1080, 1920)
    case Some(s) => s
  }

  predicate NoDigits(s: string) {
    forall i :: 0 <= i < |s| ==> !IsDigit(s[i])
  }

  /** `wm size` output such as "Physical size: 1080x2400" is read as its first WxH. */
  lemma ScreenSizeRoundTrip(before: string, w: nat, h: nat, after: string)
    requires NoDigits(before)
    requires after == [] || !IsDigit(after[0])
    ensures GetScreenSize(before + NatToString(w) + "x" + NatToString(h) + after) == Size(w, h)
  {
    assert before + NatToString(w) + "x" + NatToString(h) + after
      == before + (NatToString(w) + ("x" + (NatToString(h) + after)));
    FindSizeOf(before, w, h, after);
  }

  lemma {:induction false} FindSizeOf(before: string, w: nat, h: nat, after: string)
    requires NoDigits(before)
    requires after == [] || !IsDigit(after[0])
    ensures FindSize(before + (NatToString(w) + ("x" + (NatToString(h) + after)))) == Some(Size(w, h))
    decreases |before|
  {
    var s := before + (NatToString(w) + ("x" + (NatToString(h) + after)));
    if before == [] {
      assert s == NatToString(w) + ("x" + (NatToString(h) + after));
      SizeAtOf(w, h, after);
    } else {
      assert DigitRun(s) == 0;
      assert s[1..] == before[1..] + (NatToString(w) + ("x" + (NatToString(h) + after)));
      FindSizeOf(before[1..], w, h, after);
    }
  }

  lemma SizeAtOf(w: nat, h: nat, after: string)
    requires after == [] || !IsDigit(after[0])
    ensures SizeAt(NatToString(w) + ("x" + (NatToString(h) + after))) == Some(Size(w, h))
  {
    ReadNumberOf(w, "x" + (NatToString(h) + after));
    ExpectOf("x", NatToString(h) + after);
    ReadNumberOf(h, after);
  }

  // ===========================================================================
  // adb devices, emulator -list-avds
  // ===========================================================================

  /** What the two getprop calls for a device returned (model, sdk), when neither failed. */
  datatype Props = Props(model: string, sdk: string)

  datatype AndroidDevice = AndroidDevice(id: string, name: string, sdkVersion: Option<string>)

  /** The lines of `adb devices` after the header. */
  function DeviceLines(output: string): seq<string> {
    Split(Trim(output), '\n')[1..]
  }

  /** const [id, status] = line.split('\t'): the id when it is non-empty and the status is exactly "device". */
  function ReadyId(line: string): (id: Option<string>)
    ensures id.Some? ==> id.value != [] && '\t' !in id.value
  {
    var fields := Split(line, '\t');
    if fields[0] != [] && |fields| >= 2 && fields[1] == "device" then Some(fields[0]) else None
  }

  /** The ids of the ready devices among lines, in order. */
  function ReadyIds(lines: seq<string>): seq<string> {
    if lines == [] then []
    else
      var last := lines[|lines| - 1];
      ReadyIds(lines[..|lines| - 1]) + (match ReadyId(last) case None => [] case Some(id) => [id])
  }

  /** The device record pushed for one id: model name (or the id), and the sdk level when getprop worked. */
  function Describe(id: string, props: Option<Props>): (d: AndroidDevice)
    ensures d.id == id
    ensures props.None? ==> d.name == id && d.sdkVersion.None?
    ensures props.Some? ==> d.sdkVersion == Some(Trim(props.value.sdk))
    ensures props.Some? && Trim(props.value.model) != [] ==> d.name == Trim(props.value.model)
    ensures props.Some? && Trim(props.value.model) == [] ==> d.name == id
    ensures id != [] ==> d.name != []
  {
    match props
    case None => AndroidDevice(id, id, None)
    case Some(p) => AndroidDevice(id, if Trim(p.model) != [] then Trim(p.model) else id, Some(Trim(p.sdk)))
  }

  /** The records pushed for a sequence of ready ids, in order. */
  function DescribeAll(ids: seq<string>, getprop: string -> Option<Props>): (ds: seq<AndroidDevice>)
    ensures |ds| == |ids| && forall k :: 0 <= k < |ids| ==> ds[k] == Describe(ids[k], getprop(ids[k]))
  {
    seq(|ids|, k requires 0 <= k < |ids| => Describe(ids[k], getprop(ids[k])))
  }

  lemma ReadyIdsSnoc(lines: seq<string>, i: nat)
    requires i < |lines|
    ensures ReadyIds(lines[..i + 1]) == ReadyIds(lines[..i])
      + (match ReadyId(lines[i]) case None => [] case Some(id) => [id])
  {
    assert lines[..i + 1][..i] == lines[..i];
  }

  lemma DescribeAllSnoc(ids: seq<string>, id: string, getprop: string -> Option<Props>)
    ensures DescribeAll(ids + [id], getprop) == DescribeAll(ids, getprop) + [Describe(id, getprop(id))]
  {
  }

  /**
   * getRunningEmulators: `output` is what `adb devices` printed (Err when it failed) and
   * `getprop` what the two getprop calls for a device gave (None when one failed).
   */
  method GetRunningEmulators(output: Result<string>, getprop: string -> Option<Props>)
    returns (devices: seq<AndroidDevice>)
    ensures output.Err? ==> devices == []
    ensures output.Ok? ==> devices == DescribeAll(ReadyIds(DeviceLines(output.value)), getprop)
  {
    devices := [];
    if output.Err? {
      return;
    }
    var lines := DeviceLines(output.value);
    var i := 0;
    while i < |lines|
      invariant 0 <= i <= |lines|
      invariant devices == DescribeAll(ReadyIds(lines[..i]), getprop)
    {
      var line := lines[i];
      ReadyIdsSnoc(lines, i);
      var fields := Split(line, '\t');
      if fields[0] != [] && |fields| >= 2 && fields[1] == "device" {
        var id := fields[0];
        DescribeAllSnoc(ReadyIds(lines[..i]), id, getprop);
        var name := id;
        match getprop(id) {
          case Some(p) =>
            name := if Trim(p.model) != [] then Trim(p.model) else id;
            devices := devices + [AndroidDevice(id, name, Some(Trim(p.sdk)))];
          case None =>
            devices := devices + [AndroidDevice(id, name, None)];
        }
      }
      i := i + 1;
    }
    assert lines[..i] == lines;
  }

  /** One row adb prints: a serial and its state. */
  datatype AdbRow = AdbRow(serial: string, state: string)

  const AdbHeader: string := "List of devices attached"

  function RowText(r: AdbRow): string {
    r.serial + "\t" + r.state
  }

  function RowTexts(rows: seq<AdbRow>): (ts: seq<string>)
    ensures |ts| == |rows| && forall i :: 0 <= i < |rows| ==> ts[i] == RowText(rows[i])
  {
    seq(|rows|, i requires 0 <= i < |rows| => RowText(rows[i]))
  }

  /** The text `adb devices` prints: a header, one line per device, and a blank line. */
  function AdbDevicesOutput(rows: seq<AdbRow>): string {
    Join([AdbHeader] + RowTexts(rows), '\n') + "\n\n"
  }

  /** The serials adb reports in state "device", in order. */
  function ReadySerials(rows: seq<AdbRow>): seq<string> {
    if rows == [] then []
    else
      var last := rows[|rows| - 1];
      ReadySerials(rows[..|rows| - 1]) + (if last.state == "device" then [last.serial] else [])
  }

  predicate Token(s: string) {
    s != [] && forall i :: 0 <= i < |s| ==> !IsWhitespace(s[i])
  }

  /** Serials and states are single words, as adb prints them. */
  predicate TokenRows(rows: seq<AdbRow>) {
    forall i :: 0 <= i < |rows| ==> Token(rows[i].serial) && Token(rows[i].state)
  }

  lemma {:induction false} ReadyIdsOfRows(rows: seq<AdbRow>)
    requires TokenRows(rows)
    ensures ReadyIds(RowTexts(rows)) == ReadySerials(rows)
  {
    if rows != [] {
      var last := rows[|rows| - 1];
      var ts := RowTexts(rows);
      assert ts[..|ts| - 1] == RowTexts(rows[..|rows| - 1]);
      ReadyIdsOfRows(rows[..|rows| - 1]);
      assert '\t' !in last.serial && '\t' !in last.state by {
        assert forall c :: c in last.serial ==> !IsWhitespace(c);
        assert forall c :: c in last.state ==> !IsWhitespace(c);
      }
      SplitJoin([last.serial, last.state], '\t');
      assert Join([last.serial, last.state], '\t') == RowText(last);
    }
  }


  lemma HeaderLine()
    ensures AdbHeader != [] && !IsWhitespace(AdbHeader[0]) && !IsWhitespace(AdbHeader[|AdbHeader| - 1])
    ensures '\n' !in AdbHeader
  {
  }

  lemma RowLine(r: AdbRow)
    requires Token(r.serial) && Token(r.state)
    ensures var t := RowText(r); t != [] && !IsWhitespace(t[|t| - 1]) && '\n' !in t
  {
    var t := RowText(r);
    assert t[|t| - 1] == r.state[|r.state| - 1];
    assert forall k :: 0 <= k < |t| ==> t[k] == '\t' || t[k] in r.serial || t[k] in r.state;
  }

  /** The lines of the printed table after the header are the rows. */
  lemma AdbLines(rows: seq<AdbRow>)
    requires TokenRows(rows)
    ensures DeviceLines(AdbDevicesOutput(rows)) == RowTexts(rows)
  {
    var texts := RowTexts(rows);
    var parts := [AdbHeader] + texts;
    AdbParts(rows);
    BlankLines();
    ReadLines(parts, "\n\n");
    assert parts[1..] == texts;
  }

  lemma AdbParts(rows: seq<AdbRow>)
    requires TokenRows(rows)
    ensures var parts := [AdbHeader] + RowTexts(rows);
      (forall i :: 0 <= i < |parts| ==> '\n' !in parts[i])
      && parts[0] != [] && !IsWhitespace(parts[0][0])
      && parts[|parts| - 1] != [] && !IsWhitespace(parts[|parts| - 1][|parts[|parts| - 1]| - 1])
  {
    var texts := RowTexts(rows);
    var parts := [AdbHeader] + texts;
    HeaderLine();
    forall i | 0 <= i < |rows| ensures '\n' !in texts[i] {
      RowLine(rows[i]);
    }
    if rows != [] {
      RowLine(rows[|rows| - 1]);
    }
    assert forall i :: 0 <= i < |parts| ==> '\n' !in parts[i] by {
      forall i | 0 <= i < |parts| ensures '\n' !in parts[i] {
        if i > 0 {
          assert parts[i] == texts[i - 1];
        }
      }
    }
  }

  /** Reading back what `adb devices` prints gives the serials of the devices in state "device", in order. */
  lemma AdbDevicesRoundTrip(rows: seq<AdbRow>)
    requires TokenRows(rows)
    ensures ReadyIds(DeviceLines(AdbDevicesOutput(rows))) == ReadySerials(rows)
  {
    AdbLines(rows);
    ReadyIdsOfRows(rows);
  }

  /** getAvailableAvds: the non-blank lines of `emulator -list-avds`, untrimmed; none on failure. */
  function AvailableAvds(output: Result<string>): (names: seq<string>)
    ensures output.Err? ==> names == []
    ensures forall i :: 0 <= i < |names| ==> Trim(names[i]) != []
  {
    match output
    case Err(_) => []
    case Ok(text) => NonBlank(Split(Trim(text), '\n'))
  }

  predicate NotBlank(line: string) {
    Trim(line) != []
  }

  function NonBlank(lines: seq<string>): seq<string> {
    Filter(lines, NotBlank)
  }

  /** The text `emulator -list-avds` prints: one name per line. */
  function AvdListOutput(names: seq<string>): string {
    if names == [] then "" else Join(names, '\n') + "\n"
  }

  /** Reading back what `emulator -list-avds` prints for plain AVD names gives them back, in order. */
  lemma AvailableAvdsRoundTrip(names: seq<string>)
    requires forall i :: 0 <= i < |names| ==> PlainName(names[i])
    ensures AvailableAvds(Ok(AvdListOutput(names))) == names
  {
    if names != [] {
      BlankLines();
      ReadLines(names, "\n");
      FilterKeepsAll(names, NotBlank);
    } else {
      assert Split("", '\n') == [""];
      assert Filter([""], NotBlank) == [];
    }
  }

  // ===========================================================================
  // bootEmulator: the one-second poll
  // ===========================================================================

  const MaxAttempts: nat := 60

  datatype BootState = Waiting | Booted(device: AndroidDevice) | TimedOut

  /** One poll: count the attempt; resolve with the first device, or reject on the 60th empty poll. */
  function PollStep(attempts: nat, devices: seq<AndroidDevice>): (out: (nat, BootState))
    requires attempts < MaxAttempts
    ensures out.0 == attempts + 1
  {
    if |devices| > 0 then (attempts + 1, Booted(devices[0]))
    else if attempts + 1 >= MaxAttempts then (attempts + 1, TimedOut)
    else (attempts + 1, Waiting)
  }

  /** The state after a sequence of polls, each given by the devices getRunningEmulators returned. */
  function BootAfter(polls: seq<seq<AndroidDevice>>): (out: (nat, BootState))
    ensures out.0 <= MaxAttempts && out.0 <= |polls|
    ensures out.1.Waiting? ==> out.0 == |polls| < MaxAttempts
    ensures out.1.TimedOut? ==> out.0 == MaxAttempts
  {
    if polls == [] then (0, Waiting)
    else
      var before := BootAfter(polls[..|polls| - 1]);
      if before.1.Waiting? then PollStep(before.0, polls[|polls| - 1]) else before
  }

  /** The poll that boots: the first non-empty poll within 60 attempts gives the device, else 60 empty polls time out. */
  lemma {:induction false} BootOutcome(polls: seq<seq<AndroidDevice>>)
    ensures BootAfter(polls).1.Booted? <==>
      exists k :: 0 <= k < |polls| && k < MaxAttempts && |polls[k]| > 0
    ensures forall k ::
              (0 <= k < |polls| && k < MaxAttempts && |polls[k]| > 0 && (forall j :: 0 <= j < k ==> |polls[j]| == 0))
              ==> BootAfter(polls) == (k + 1, Booted(polls[k][0]))
    ensures BootAfter(polls).1.TimedOut? <==>
      |polls| >= MaxAttempts && forall j :: 0 <= j < MaxAttempts ==> |polls[j]| == 0
  {
    if polls != [] {
      var init := polls[..|polls| - 1];
      BootOutcome(init);
      assert forall j :: 0 <= j < |init| ==> init[j] == polls[j];
    }
  }

  /** The poll of one boot: an attempt counter and the outcome so far. */
  class EmulatorBoot {
    var attempts: nat
    var state: BootState
    ghost var polls: seq<seq<AndroidDevice>>

    ghost predicate Valid()
      reads this
    {
      (attempts, state) == BootAfter(polls)
    }

    constructor ()
      ensures Valid() && attempts == 0 && state == Waiting && polls == []
    {
      attempts := 0;
      state := Waiting;
      polls := [];
    }

    /** One tick of the interval, which only runs while the promise is pending. */
    method Poll(devices: seq<AndroidDevice>)
      requires Valid() && state == Waiting
      modifies this
      ensures Valid() && polls == old(polls) + [devices]
      ensures attempts == old(attempts) + 1 && attempts <= MaxAttempts
      ensures |devices| > 0 ==> state == Booted(devices[0])
      ensures |devices| == 0 ==> (state == TimedOut <==> attempts == MaxAttempts)
    {
      polls := polls + [devices];
      assert polls[..|polls| - 1] == old(polls);
      attempts := attempts + 1;
      if |devices| > 0 {
        state := Booted(devices[0]);
      } else if attempts >= MaxAttempts {
        state := TimedOut;
      }
    }
  }
}

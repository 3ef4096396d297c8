/**
 * The request handling of the HTTP server (src/server.js) for one device: the
 * feature list and the per-platform gating of the platform-only endpoints, the
 * `simctl status_bar` command builder, the element endpoints that sit on top of
 * the Android driver, and the session state the handlers share: the single
 * recording slot and the screen size used by iOS taps. Everything an endpoint
 * asks of the outside world (a command's output, a file, the clock, the
 * Simulator window) is a parameter.
 */
module Server {
  import opened Common
  import opened Js
  import Android
  import opened Letterbox
  import opened Screens

  // ===========================================================================
  // Responses
  // ===========================================================================

  /** The JSON body an endpoint sends. */
  datatype Body =
    | Done                                                       // { success: true }
    | Failed(error: string)                                      // { success: false, error }
    | FailedNoElements(error: string)                            // { success: false, error, elements: [] }
    | ElementList(elements: seq<Android.Element>, count: nat)    // { success: true, elements, count }
    | TappedElement(element: Android.Element, tappedAt: Android.Point)
    | TypedElement(typed: string, element: Android.Element)
    | ScreenSize(size: Size)                                     // { success: true, width, height }
    | RecordingTo(file: string)                                  // { success: true, file }
    | Video(data: Blob)                                          // { success: true, video: data URL of data }
    | PlatformInfo(platform: Platform, deviceId: string, features: seq<string>)
    | AppList(apps: seq<string>)                                 // { success: true, apps }
    | RawApps(raw: string)                                       // { success: true, raw }

  datatype Response = Response(status: nat, body: Body)

  /** A handler that threw: status 500 with the error's message. */
  function Crashed(message: string): Response {
    Response(500, Failed(message))
  }

  // ===========================================================================
  // Features and gating
  // ===========================================================================

  /** The endpoints a client may ask about. */
  datatype Action =
    | TapAction | SwipeAction | TypeAction | KeyAction | LaunchAction | OpenUrlAction
    | ScreenshotAction | RecordAction | InstallAction | UninstallAction
    | ElementsAction | TapElementAction | TypeElementAction | StatusBarAction

  /** The name GET /api/platform uses for an action. */
  function Name(a: Action): string {
    match a
    case TapAction => "tap"
    case SwipeAction => "swipe"
    case TypeAction => "type"
    case KeyAction => "key"
    case LaunchAction => "launch"
    case OpenUrlAction => "openurl"
    case ScreenshotAction => "screenshot"
    case RecordAction => "record"
    case InstallAction => "install"
    case UninstallAction => "uninstall"
    case ElementsAction => "elements"
    case TapElementAction => "tap-element"
    case TypeElementAction => "type-element"
    case StatusBarAction => "statusbar"
  }

  /** The feature list of GET /api/platform, as actions, in the order it is sent. */
  function Features(p: Platform): seq<Action> {
    var common := [TapAction, SwipeAction, TypeAction, KeyAction, LaunchAction, OpenUrlAction,
                   ScreenshotAction, RecordAction];
    match p
    case Android => common + [InstallAction, UninstallAction, ElementsAction, TapElementAction]
    case IOS => common + [StatusBarAction]
  }

  /** The `features` array of GET /api/platform. */
  function FeatureNames(p: Platform): (names: seq<string>)
    ensures p == Android ==> names == ["tap", "swipe", "type", "key", "launch", "openurl", "screenshot",
      "record", "install", "uninstall", "elements", "tap-element"]
    ensures p == IOS ==> names == ["tap", "swipe", "type", "key", "launch", "openurl", "screenshot",
      "record", "statusbar"]
  {
    seq(|Features(p)|, i requires 0 <= i < |Features(p)| => Name(Features(p)[i]))
  }

  /** GET /api/platform. */
  function PlatformEndpoint(p: Platform, deviceId: string): Response {
    Response(200, PlatformInfo(p, deviceId, FeatureNames(p)))
  }

  /** The only platform a handler serves, for the endpoints that check one. */
  function Gate(a: Action): Option<Platform> {
    match a
    case StatusBarAction => Some(IOS)
    case InstallAction => Some(Android)
    case UninstallAction => Some(Android)
    case ElementsAction => Some(Android)
    case TapElementAction => Some(Android)
    case TypeElementAction => Some(Android)
    case _ => None
  }

  /** What a gated endpoint answers on the other platform. */
  function GateError(a: Action): string {
    match a
    case StatusBarAction => "Status bar override only available on iOS"
    case InstallAction => "APK install only available on Android"
    case UninstallAction => "Uninstall only available on Android"
    case ElementsAction => "Element detection currently only available on Android"
    case TapElementAction => "Element tapping currently only available on Android"
    case TypeElementAction => "Element typing currently only available on Android"
    case _ => ""
  }

  predicate Served(a: Action, p: Platform) {
    Gate(a).None? || Gate(a) == Some(p)
  }

  /**
   * The advertised features are exactly what the handlers serve, except that
   * type-element is served on Android but advertised on neither platform.
   */
  lemma FeaturesMatchGates(a: Action, p: Platform)
    ensures a != TypeElementAction ==> (a in Features(p) <==> Served(a, p))
    ensures TypeElementAction !in Features(p) && Served(TypeElementAction, Android)
  {
  }

  /** The two platforms share only the gesture, input, app and capture features. */
  lemma PlatformOnlyFeatures()
    ensures StatusBarAction in Features(IOS) && StatusBarAction !in Features(Android)
    ensures forall a :: a in Features(Android) && a !in Features(IOS) ==>
      a in {InstallAction, UninstallAction, ElementsAction, TapElementAction}
  {
  }

  /** Distinct actions have distinct names, so the name list says which actions are advertised. */
  lemma NamesDistinct(a: Action, b: Action)
    requires Name(a) == Name(b)
    ensures a == b
  {
  }

  // ===========================================================================
  // POST /api/statusbar
  // ===========================================================================

  /** One option the status bar command is given. */
  datatype Flag = TimeFlag(time: string) | BatteryFlag(level: string) | WifiFlag(active: bool)

  /** The options, in the order they are appended: time and battery when truthy, wifi whenever present. */
  function StatusBarFlags(time: Value, battery: Value, wifi: Value): seq<Flag> {
    TimePart(time) + BatteryPart(battery) + WifiPart(wifi)
  }

  function TimePart(time: Value): seq<Flag> {
    if Truthy(time) then [TimeFlag(Show(time))] else []
  }

  function BatteryPart(battery: Value): seq<Flag> {
    if Truthy(battery) then [BatteryFlag(Show(battery))] else []
  }

  function WifiPart(wifi: Value): seq<Flag> {
    if wifi != Undefined then [WifiFlag(Truthy(wifi))] else []
  }

  function FlagText(f: Flag): string {
    match f
    case TimeFlag(t) => " --time \"" + t + "\""
    case BatteryFlag(b) => " --batteryLevel " + b
    case WifiFlag(a) => " --wifiMode " + (if a then "active" else "failed")
  }

  function FlagsText(flags: seq<Flag>): string {
    if flags == [] then "" else FlagText(flags[0]) + FlagsText(flags[1..])
  }

  function StatusBarBase(deviceId: string): string {
    "xcrun simctl status_bar " + deviceId + " override"
  }

  /** The time option is there exactly when the time is truthy, and carries its text. */
  lemma TimeFlagSpec(time: Value, battery: Value, wifi: Value, t: string)
    ensures TimeFlag(t) in StatusBarFlags(time, battery, wifi) <==> Truthy(time) && t == Show(time)
  {
    var flags := StatusBarFlags(time, battery, wifi);
    if Truthy(time) {
      assert flags[0] == TimeFlag(Show(time));
    }
  }

  /** The battery option is there exactly when the battery level is truthy, and carries its text. */
  lemma BatteryFlagSpec(time: Value, battery: Value, wifi: Value, b: string)
    ensures BatteryFlag(b) in StatusBarFlags(time, battery, wifi) <==> Truthy(battery) && b == Show(battery)
  {
    var flags := StatusBarFlags(time, battery, wifi);
    if Truthy(battery) {
      var k := if Truthy(time) then 1 else 0;
      assert flags[k] == BatteryFlag(Show(battery));
    }
  }

  /** The wifi option is there exactly when wifi is present at all, and is "active" iff wifi is truthy. */
  lemma WifiFlagSpec(time: Value, battery: Value, wifi: Value, a: bool)
    ensures WifiFlag(a) in StatusBarFlags(time, battery, wifi) <==> wifi != Undefined && a == Truthy(wifi)
  {
    var flags := StatusBarFlags(time, battery, wifi);
    if wifi != Undefined {
      assert flags[|flags| - 1] == WifiFlag(Truthy(wifi));
    }
  }

  /** A null wifi is not undefined: it asks for wifi mode "failed". */
  lemma NullWifiFails()
    ensures StatusBarFlags(Undefined, Undefined, Null) == [WifiFlag(false)]
    ensures StatusBarFlags(Undefined, Undefined, Undefined) == []
  {
  }

  lemma {:induction false} FlagsTextAppend(a: seq<Flag>, b: seq<Flag>)
    ensures FlagsText(a + b) == FlagsText(a) + FlagsText(b)
  {
    if a == [] {
      assert a + b == b;
    } else {
      assert (a + b)[1..] == a[1..] + b;
      FlagsTextAppend(a[1..], b);
    }
  }

  /** Appending the text of one group of options after another gives the text of both. */
  lemma AppendStep(a: seq<Flag>, b: seq<Flag>, c0: string, c1: string, c2: string)
    requires c1 == c0 + FlagsText(a)
    requires c2 == c1 + FlagsText(b)
    ensures c2 == c0 + FlagsText(a + b)
  {
    var x, y := FlagsText(a), FlagsText(b);
    AppendAssoc(c0, x, y);
    FlagsTextAppend(a, b);
  }

  /** The command is built by appending to a string, one option at a time. */
  method BuildStatusBarCommand(deviceId: string, time: Value, battery: Value, wifi: Value) returns (cmd: string)
    ensures cmd == StatusBarBase(deviceId) + FlagsText(StatusBarFlags(time, battery, wifi))
  {
    cmd := "xcrun simctl status_bar " + deviceId + " override";
    ghost var c0 := cmd;
    cmd := AppendTime(cmd, time);
    ghost var c1 := cmd;
    cmd := AppendBattery(cmd, battery);
    ghost var c2 := cmd;
    cmd := AppendWifi(cmd, wifi);
    AppendStep(TimePart(time), BatteryPart(battery), c0, c1, c2);
    AppendStep(TimePart(time) + BatteryPart(battery), WifiPart(wifi), c0, c2, cmd);
  }

  method AppendTime(cmd: string, time: Value) returns (cmd': string)
    ensures cmd' == cmd + FlagsText(TimePart(time))
  {
    cmd' := cmd;
    if Truthy(time) {
      cmd' := cmd' + (" --time \"" + Show(time) + "\"");
    }
  }

  method AppendBattery(cmd: string, battery: Value) returns (cmd': string)
    ensures cmd' == cmd + FlagsText(BatteryPart(battery))
  {
    cmd' := cmd;
    if Truthy(battery) {
      cmd' := cmd' + (" --batteryLevel " + Show(battery));
    }
  }

  method AppendWifi(cmd: string, wifi: Value) returns (cmd': string)
    ensures cmd' == cmd + FlagsText(WifiPart(wifi))
  {
    cmd' := cmd;
    if wifi != Undefined {
      cmd' := cmd' + (" --wifiMode " + (if Truthy(wifi) then "active" else "failed"));
    }
  }

  /**
   * POST /api/statusbar: on iOS, the command to run and what the endpoint answers
   * once it has run (`ran` is the command's outcome); elsewhere, no command.
   */
  method StatusBar(p: Platform, deviceId: string, time: Value, battery: Value, wifi: Value, ran: Result<string>)
    returns (resp: Response, cmd: Option<string>)
    ensures p != IOS ==> cmd == None && resp == Response(200, Failed(GateError(StatusBarAction)))
    ensures p == IOS ==> cmd == Some(StatusBarBase(deviceId) + FlagsText(StatusBarFlags(time, battery, wifi)))
    ensures p == IOS ==> resp == (if ran.Ok? then Response(200, Done) else Crashed(ran.message))
  {
    if p != IOS {
      return Response(200, Failed("Status bar override only available on iOS")), None;
    }
    var c := BuildStatusBarCommand(deviceId, time, battery, wifi);
    cmd := Some(c);
    if ran.Err? {
      resp := Crashed(ran.message);
    } else {
      resp := Response(200, Done);
    }
  }

  // ===========================================================================
  // POST /api/install, /api/uninstall
  // ===========================================================================

  /**
   * An Android-only endpoint that hands one request field to the driver:
   * the field handed over (none when gated) and the answer, given the driver's outcome.
   */
  function AndroidOnly(a: Action, p: Platform, field: Value, driver: Result<()>): (out: (Response, Option<Value>))
    requires a == InstallAction || a == UninstallAction
    ensures p != Android ==> out == (Response(200, Failed(GateError(a))), None)
    ensures p == Android ==> out.1 == Some(field)
    ensures p == Android ==> (out.0.body.Done? <==> driver.Ok?)
    ensures p == Android && driver.Err? ==> out.0 == Crashed(driver.message)
    ensures p == Android && driver.Ok? ==> out.0 == Response(200, Done)
  {
    if p != Android then (Response(200, Failed(GateError(a))), None)
    else if driver.Err? then (Crashed(driver.message), Some(field))
    else (Response(200, Done), Some(field))
  }

  // ===========================================================================
  // GET /api/apps
  // ===========================================================================

  /**
   * GET /api/apps. `ran` is the output of `pm list packages -3` on Android and
   * of `simctl listapps` on iOS.
   */
  function AppsEndpoint(p: Platform, ran: Result<string>): (resp: Response)
    ensures resp.status == 200 <==> ran.Ok?
    ensures ran.Err? ==> resp == Crashed(ran.message)
    ensures ran.Ok? && p == IOS ==> resp.body == RawApps(ran.value)
    ensures ran.Ok? && p == Android ==> resp.body.AppList?
    ensures resp.body.AppList? ==> forall i :: 0 <= i < |resp.body.apps| ==> resp.body.apps[i] != []
  {
    match ran
    case Err(message) => Crashed(message)
    case Ok(output) =>
      if p == Android then Response(200, AppList(Android.ListApps(output)))
      else Response(200, RawApps(output))
  }

  /** On Android the packages `pm list packages` printed are answered, in order. */
  lemma AppsEndpointLists(pkgs: seq<string>)
    requires forall i :: 0 <= i < |pkgs| ==> Android.PlainName(pkgs[i])
    ensures AppsEndpoint(Android, Ok(Android.PmOutput(pkgs))) == Response(200, AppList(pkgs))
  {
    Android.ListAppsRoundTrip(pkgs);
  }

  // ===========================================================================
  // GET /api/elements, POST /api/tap-element, POST /api/type-element
  // ===========================================================================

  /** GET /api/elements, given what reading the dump gave (the parsed elements, or the error). */
  function ElementsEndpoint(p: Platform, dump: Result<seq<Android.Element>>): (resp: Response)
    ensures p != Android ==> resp == Response(200, FailedNoElements(GateError(ElementsAction)))
    ensures p == Android && dump.Ok? ==> resp.body == ElementList(dump.value, |dump.value|)
    ensures p == Android && dump.Err? ==> resp == Response(500, FailedNoElements(dump.message))
  {
    if p != Android then
      Response(200, FailedNoElements("Element detection currently only available on Android"))
    else match dump
      case Err(message) => Response(500, FailedNoElements(message))
      case Ok(elements) => Response(200, ElementList(elements, |elements|))
  }

  /** The message Node gives when a non-string query reaches `query.toLowerCase()`. */
  const QueryNotString: string := "query.toLowerCase is not a function"

  /**
   * POST /api/tap-element: gate, then 400 for a missing query, then the driver's
   * first-match search over the dump. `ran` is what the tap command gave; when
   * it failed, tapElement rejects and the handler answers 500 with its message.
   * Returns the answer and what was sent to the device.
   */
  function TapElementEndpoint(p: Platform, query: Value, exact: Value, dump: Result<seq<Android.Element>>,
                              ran: Result<string>)
    : (out: (Response, seq<Android.Input>))
    ensures p != Android ==> out == (Response(200, Failed(GateError(TapElementAction))), [])
    ensures p == Android && !Truthy(query) ==> out == (Response(400, Failed("Query is required")), [])
    ensures out.1 != [] ==>
      (p == Android && query.Str? && dump.Ok?
       && out.1 == Android.TapElement(dump.value, query.s, Truthy(exact)).1)
    ensures p == Android && Truthy(query) && query.Str? && dump.Ok? ==>
      (out.0.body.TappedElement? <==>
         ran.Ok? && exists i :: 0 <= i < |dump.value| && Android.Matches(dump.value[i], query.s, Truthy(exact)))
    ensures p == Android && Truthy(query) && query.Str? && dump.Ok?
      && Android.TapElement(dump.value, query.s, Truthy(exact)).0.Tapped? && ran.Err?
      ==> out == (Crashed(ran.message), Android.TapElement(dump.value, query.s, Truthy(exact)).1)
  {
    if p != Android then (Response(200, Failed("Element tapping currently only available on Android")), [])
    else if !Truthy(query) then (Response(400, Failed("Query is required")), [])
    else match dump
      case Err(message) => (Crashed(message), [])
      case Ok(elements) =>
        if !query.Str? then (Crashed(QueryNotString), [])
        else
          var (result, sent) := Android.TapElement(elements, query.s, Truthy(exact));
          match result
          case NotFound(error) => (Response(200, Failed(error)), sent)
          case Tapped(el, at) =>
            if ran.Err? then (Crashed(ran.message), sent) else (Response(200, TappedElement(el, at)), sent)
  }

  /** A type-element request that gets past the checks and finds an element to type into. */
  predicate TypesInto(p: Platform, query: Value, text: Value, dump: Result<seq<Android.Element>>) {
    p == Android && Truthy(query) && Truthy(text) && query.Str? && text.Str? && dump.Ok?
    && Android.TypeIntoElement(dump.value, query.s, text.s).0.TypedInto?
  }

  /** The message Node gives when a non-string text reaches `text.replace(...)`. */
  const TextNotString: string := "text.replace is not a function"

  /**
   * POST /api/type-element: gate, then 400 unless both query and text are given,
   * then the driver taps the first substring match and types into it. `tapRan`
   * and `textRan` are what the tap and the text command gave; the first that
   * failed makes the handler answer 500 with its message, and a failed tap
   * means the text is never sent.
   */
  function TypeElementEndpoint(p: Platform, query: Value, text: Value, dump: Result<seq<Android.Element>>,
                               tapRan: Result<string>, textRan: Result<string>)
    : (out: (Response, seq<Android.Input>))
    ensures p != Android ==> out == (Response(200, Failed(GateError(TypeElementAction))), [])
    ensures p == Android && (!Truthy(query) || !Truthy(text)) ==>
      out == (Response(400, Failed("Query and text are required")), [])
    ensures out.0.body.TypedElement? ==>
      (query.Str? && text.Str? && dump.Ok? && tapRan.Ok? && textRan.Ok?
       && out.0.body.typed == text.s
       && out.1 == Android.TypeIntoElement(dump.value, query.s, text.s).1)
    ensures TypesInto(p, query, text, dump) && tapRan.Err? ==>
      out == (Crashed(tapRan.message), Android.TapElement(dump.value, query.s, false).1)
    ensures TypesInto(p, query, text, dump) && tapRan.Ok? && textRan.Err? ==>
      out == (Crashed(textRan.message), Android.TypeIntoElement(dump.value, query.s, text.s).1)
    ensures TypesInto(p, query, text, dump) && tapRan.Ok? && textRan.Ok? ==> out.0.body.TypedElement?
  {
    if p != Android then (Response(200, Failed("Element typing currently only available on Android")), [])
    else if !Truthy(query) || !Truthy(text) then (Response(400, Failed("Query and text are required")), [])
    else match dump
      case Err(message) => (Crashed(message), [])
      case Ok(elements) =>
        if !query.Str? then (Crashed(QueryNotString), [])
        else if !text.Str? then
          // the tap happens before typeText fails on the text
          var (tapped, sent) := Android.TapElement(elements, query.s, false);
          (if tapped.NotFound? then Response(200, Failed(tapped.error))
           else if tapRan.Err? then Crashed(tapRan.message)
           else Crashed(TextNotString), sent)
        else
          var typed := Android.TypeIntoElement(elements, query.s, text.s);
          if typed.0.TypeFailed? then (Response(200, Failed(typed.0.error)), typed.1)
          else if tapRan.Err? then (Crashed(tapRan.message), Android.TapElement(elements, query.s, false).1)
          else if textRan.Err? then (Crashed(textRan.message), typed.1)
          else (Response(200, TypedElement(typed.0.typed, typed.0.element)), typed.1)
  }

  /** A gated endpoint called on the wrong platform sends nothing to the device. */
  lemma GatedSendsNothing(query: Value, exact: Value, text: Value, dump: Result<seq<Android.Element>>,
                          ran: Result<string>, textRan: Result<string>)
    ensures TapElementEndpoint(IOS, query, exact, dump, ran).1 == []
    ensures TypeElementEndpoint(IOS, query, text, dump, ran, textRan).1 == []
    ensures ElementsEndpoint(IOS, dump).body.FailedNoElements?
  {
  }

  // ===========================================================================
  // The session: recording slot and screen size
  // ===========================================================================

  /** The iOS recorder the server spawned, known by the file it writes. */
  datatype Recorder = Recorder(file: string)

  /** How a tap reaches the device. */
  datatype TapSent =
    | AdbTap(input: Android.Input)       // adb shell input tap
    | ClickAt(x: real, y: real)          // the AppleScript click, before its final rounding

  /** The state the handlers of one server share. */
  class Session {
    const platform: Platform
    const deviceId: string
    /** The Android recording in progress (recordInfo). */
    var recordInfo: Option<Android.RecordInfo>
    /** The iOS recorder and its file (app.locals.recordProcess, app.locals.recordFile). */
    var recordProcess: Option<Recorder>
    var recordFile: Option<string>
    /** The size iOS taps are scaled by (screenDimensions). */
    var screenDimensions: Size

    predicate Valid()
      reads this
    {
      Positive(screenDimensions)
      && (recordProcess.Some? ==> recordFile == Some(recordProcess.value.file))
    }

    constructor(platform: Platform, deviceId: string)
      ensures Valid()
      ensures this.platform == platform && this.deviceId == deviceId
      ensures recordInfo == None && recordProcess == None && recordFile == None
      ensures screenDimensions == DefaultSize
    {
      this.platform := platform;
      this.deviceId := deviceId;
      recordInfo := None;
      recordProcess := None;
      recordFile := None;
      screenDimensions := Size(393, 852);
    }

    /**
     * POST /api/tap at (x, y): on Android an adb tap at the rounded point; on iOS a
     * click in the Simulator window `win`, letterboxed by the stored screen size.
     * `ran` is what running the command gave.
     */
    method Tap(x: real, y: real, win: Window, ran: Result<string>) returns (resp: Response, sent: TapSent)
      requires Valid()
      ensures resp == if ran.Ok? then Response(200, Done) else Crashed(ran.message)
      ensures platform == Android ==> sent == AdbTap(Android.Tap(x, y))
      ensures platform == IOS ==>
        sent == ClickAt(ClickPoint(win, screenDimensions.width as real, screenDimensions.height as real, x, y).0,
                        ClickPoint(win, screenDimensions.width as real, screenDimensions.height as real, x, y).1)
    {
      if platform == Android {
        sent := AdbTap(Android.Tap(x, y));
      } else {
        var p := ClickPoint(win, screenDimensions.width as real, screenDimensions.height as real, x, y);
        sent := ClickAt(p.0, p.1);
      }
      resp := if ran.Ok? then Response(200, Done) else Crashed(ran.message);
    }

    /**
     * GET /api/screen. Android answers `wm size` read by getScreenSize and keeps the
     * stored size; iOS looks the device up in the booted list and stores what it finds.
     */
    method Screen(wmSize: Result<string>, booted: Result<seq<Runtime>>) returns (resp: Response)
      requires Valid()
      modifies this
      ensures Valid()
      ensures recordInfo == old(recordInfo) && recordProcess == old(recordProcess) && recordFile == old(recordFile)
      ensures platform == Android ==> screenDimensions == old(screenDimensions)
      ensures platform == Android ==>
        resp == match wmSize
          case Err(m) => Crashed(m)
          case Ok(out) => Response(200, ScreenSize(Android.GetScreenSize(out)))
      ensures platform == IOS && booted.Err? ==>
        screenDimensions == old(screenDimensions) && resp == Crashed(booted.message)
      ensures platform == IOS && booted.Ok? ==>
        screenDimensions == SizeAfter(booted.value, deviceId)
        && resp == Response(200, ScreenSize(screenDimensions))
    {
      if platform == Android {
        match wmSize
        case Err(m) => resp := Crashed(m);
        case Ok(out) => resp := Response(200, ScreenSize(Android.GetScreenSize(out)));
      } else {
        match booted
        case Err(m) => resp := Crashed(m);
        case Ok(runtimes) =>
          var size := LookupScreenSize(runtimes, deviceId);
          SizeAfterPositive(runtimes, deviceId);
          screenDimensions := size;
          resp := Response(200, ScreenSize(size));
      }
    }

    /**
     * POST /api/record/start at time `now`: fills the slot unconditionally, so a
     * second start replaces the first recording without stopping it.
     */
    method RecordStart(now: nat, tmpDir: string) returns (resp: Response)
      requires Valid()
      modifies this
      ensures Valid()
      ensures screenDimensions == old(screenDimensions)
      ensures platform == Android ==>
        recordInfo == Some(Android.StartRecording(now)) && resp == Response(200, Done)
        && recordProcess == old(recordProcess) && recordFile == old(recordFile)
      ensures platform == IOS ==>
        var file := RecordingFile(tmpDir, now);
        recordProcess == Some(Recorder(file)) && recordFile == Some(file)
        && recordInfo == old(recordInfo) && resp == Response(200, RecordingTo(file))
    {
      if platform == Android {
        recordInfo := Some(Android.StartRecording(now));
        resp := Response(200, Done);
      } else {
        var file := RecordingFile(tmpDir, now);
        recordProcess := Some(Recorder(file));
        recordFile := Some(file);
        resp := Response(200, RecordingTo(file));
      }
    }

    /**
     * POST /api/record/stop. `pulled` is what stopping the Android recording gave
     * (the video, or the error it threw); `saved` is the iOS recording file's
     * contents when the file exists.
     */
    method RecordStop(pulled: Result<Blob>, saved: Option<Blob>) returns (resp: Response)
      requires Valid()
      modifies this
      ensures Valid()
      ensures screenDimensions == old(screenDimensions)
      ensures recordProcess == old(recordProcess) && recordFile == old(recordFile)
      ensures platform == Android && old(recordInfo).None? ==>
        recordInfo == None && resp == Response(200, Failed(NoRecording))
      ensures platform == Android && old(recordInfo).Some? && pulled.Err? ==>
        recordInfo == old(recordInfo) && resp == Crashed(pulled.message)
      ensures platform == Android && old(recordInfo).Some? && pulled.Ok? ==>
        recordInfo == None && resp == Response(200, Video(pulled.value))
      ensures platform == IOS ==> recordInfo == old(recordInfo)
      ensures platform == IOS ==>
        resp == if recordProcess.Some? && saved.Some? then Response(200, Video(saved.value))
                else Response(200, Failed(NoRecording))
    {
      if platform == Android {
        if recordInfo.None? {
          resp := Response(200, Failed("No recording in progress"));
          return;
        }
        match pulled
        case Err(m) => resp := Crashed(m);
        case Ok(video) =>
          recordInfo := None;
          resp := Response(200, Video(video));
      } else {
        if recordProcess.Some? && saved.Some? {
          resp := Response(200, Video(saved.value));
        } else {
          resp := Response(200, Failed("No recording in progress"));
        }
      }
    }
  }

  const NoRecording: string := "No recording in progress"

  /** The iOS recording file: simdeck-recording-<now>.mp4 in the temporary directory. */
  function RecordingFile(tmpDir: string, now: nat): (file: string)
    ensures |file| > |tmpDir| + 1 && file[..|tmpDir| + 1] == tmpDir + "/"
  {
    tmpDir + "/" + "simdeck-recording-" + NatToString(now) + ".mp4"
  }

  /**
   * Stopping an iOS recording leaves the slot filled: a second stop answers with
   * the same file again as long as it exists.
   */
  method StopTwiceIOS(s: Session, saved: Blob) returns (first: Response, second: Response)
    requires s.Valid() && s.platform == IOS && s.recordProcess.Some?
    modifies s
    ensures first == second == Response(200, Video(saved))
  {
    first := s.RecordStop(Err(""), Some(saved));
    second := s.RecordStop(Err(""), Some(saved));
  }

  /** On Android a start after a start replaces the slot; one stop then empties it. */
  method RestartThenStop(s: Session, t1: nat, t2: nat, video: Blob) returns (resp: Response)
    requires s.Valid() && s.platform == Android
    modifies s
    ensures resp == Response(200, Video(video)) && s.recordInfo == None
  {
    var r1 := s.RecordStart(t1, "");
    var r2 := s.RecordStart(t2, "");
    assert s.recordInfo == Some(Android.StartRecording(t2));
    resp := s.RecordStop(Ok(video), None);
  }
}

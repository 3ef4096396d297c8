# simdeck in Dafny

simdeck controls an iOS Simulator or an Android emulator from a browser. A
command-line entry point (`bin/simdeck.js`) picks a device and starts an HTTP
and WebSocket server (`src/server.js`). The server turns browser requests into
`simctl`, `adb` and `osascript` commands; its Android driver is
`src/android.js`. The page in the browser (`public/app.js`) turns clicks into
device coordinates and streams screenshots.

This project models the deterministic logic under those commands. Every
external call is replaced by its outcome, given as an input:

- a command's output is a `Result<string>`;
- a `simctl` JSON listing is given already parsed;
- `Date.now()` is a `now: nat` parameter;
- the Simulator window is a `Window` rectangle;
- a screenshot, a recording or a file read is an `Option` or `Result` of bytes;
- whether a browser request went through is a `delivered: bool`.

The files:

- `common.dfy`: Option, Result, Platform, Size, Blob.
- `js.dfy`: the JavaScript string and number operations the source relies on (`trim`, `split`, `join`, `includes`, `replace`, `toLowerCase`, digit parsing, `Math.round`, truthiness).
- `android.js` is modelled in `android.dfy`:
  - the uiautomator dump parser and element filter;
  - the element matcher of `tapElement` and `typeIntoElement`;
  - `typeText` escaping and `pressKey` key codes;
  - the `adb devices`, `emulator -list-avds`, `pm list packages` and `wm size` parsers;
  - the emulator boot poll, as a class.
- `server.js` is modelled in four files:
  - `letterbox.dfy`: the AppleScript tap arithmetic.
  - `screens.dfy`: the iOS screen-size lookup, as nested loops.
  - `server.dfy`: the feature list and platform gating, the `status_bar` command builder, the element endpoints, and a `Session` class. The class holds the recording slot and the stored screen size.
  - `stream.dfy`: the per-connection stream state, as a `Connection` class.
- `client.dfy`: the page state of `app.js` as a `Page` class, the tap transform, the URL and text rules, `escapeHtml` and `renderElements`.
- `cli.dfy`: the `--device=` argument, the `simctl` listing filters, the numbered device list of `selectDevice` and the decision chain of `main`.

## Model

| member | source | states |
|---|---|---|
| Js.Trim | src/android.js:44 | `trim()` leaves no whitespace at either end and leaves a trimmed string unchanged |
| Js.TrimPadded | src/android.js:44 | trimming a visible string followed by whitespace padding gives back the string |
| Js.Split | src/android.js:48 | `split` on one character never yields an empty array, and no part holds the separator |
| Js.SplitJoin | src/android.js:44 | joining separator-free parts and splitting again gives back the parts |
| Js.ReadLines | src/android.js:44 | lines printed one per line and padded with blanks are read back exactly by `trim().split('\n')` |
| Js.LastSegment | src/android.js:367-368 | `split(sep).pop()` is the longest separator-free suffix, preceded by the separator when shorter than the string |
| Js.IncludesAt | src/server.js:391 | a substring at a known position is found by `includes` |
| Js.ReplaceAllAppend | src/android.js:166-175 | a global one-character replace acts on each part of a concatenation separately |
| Js.ReplaceAllAbsent | src/android.js:166-175 | a global replace of an absent character changes nothing |
| Js.ChainAppend | src/android.js:166-175 | a chain of global replaces distributes over concatenation |
| Js.ChainLookup | src/android.js:166-175 | a chain in which no replacement holds a character replaced later acts on one character as a table lookup |
| Js.ToLowerCase | src/android.js:387 | `toLowerCase` keeps the length and lowers each character |
| Js.DigitsValueOfNatToString | src/android.js:357 | reading the decimal text of a number gives the number back |
| Js.DigitRunOf | src/android.js:258 | the digit run at the head of digits followed by a non-digit is exactly those digits |
| Js.Round | src/android.js:149 | `Math.round` gives the integer within half of the value, halves going up |
| Js.RoundMonotone | public/app.js:232-236 | `Math.round` never decreases as its argument grows |
| Js.Filter | src/android.js:80 | every item kept is one the test accepts and comes from the input, and every accepted item of the input is kept |
| Js.FilterAppend | src/android.js:80 | `filter` keeps order and multiplicity: a concatenation is filtered part by part, and a single item is kept exactly when the test accepts it |
| Js.FilterKeepsAll | src/android.js:80 | a list every item of which the test accepts is returned whole |
| Android.NextNode | src/android.js:333-336 | the next `<node[^>]*>` match is the leftmost one at or after the scan position, and none is skipped |
| Android.Attr | src/android.js:340-343 | an attribute value read by `attr="([^"]*)"` holds no double quote |
| Android.AttrOfQuoted | src/android.js:340-343 | a quoted attribute is read back when nothing before it can be mistaken for it |
| Android.BoundsRoundTrip | src/android.js:354-357 | the `[l,t][r,b]` text of a rectangle parses back to that rectangle |
| Android.CenterIsRoundedMidpoint | src/android.js:358-359 | the center is the half-up rounded midpoint of the bounds and lies inside well-formed bounds |
| Android.CenterExample | src/android.js:358-359 | bounds `[100,200][300,260]` are tapped at (200, 230) |
| Android.ElementOfFilter | src/android.js:345-373 | a tag yields an element exactly when its bounds parse and it is labelled or interactive; then the element has those bounds and their center, the text or else the content-desc as its text, the last `/` segment of the resource id, the last `.` segment of the class, and is clickable or enabled exactly when that attribute is `true` |
| Android.ElementsComeFromTags | src/android.js:336-374 | every element returned was read from one of the dump's tags |
| Android.CollectKeeps | src/android.js:336-374 | every tag that yields an element has that element in the list |
| Android.CollectAppend | src/android.js:336-374 | the elements of two runs of tags are the elements of the first followed by those of the second |
| Android.ScanNodes | src/android.js:332-377 | the regex loop pushes exactly what each tag yields, in document order |
| Android.GetElements | src/android.js:319-378 | getElements returns the elements of all `<node>` tags in order, each centered on its bounds |
| Android.Tap | src/android.js:148-150 | the tap is sent at the coordinates rounded as `Math.round` does |
| Android.StartRecording | src/android.js:268-276 | the device-side file is `/sdcard/simdeck_recording_<now>.mp4` |
| Android.RecordingFilesDistinct | src/android.js:269 | recordings started at different times go to different files |
| Android.FindMatch | src/android.js:387-397 | `find` returns the first element that matches, or none when no element matches |
| Android.TapElement | src/android.js:383-411 | no match gives "Element not found: " + query and sends nothing; otherwise the first match is tapped at its center, once |
| Android.TypeIntoElement | src/android.js:416-427 | without a substring match the tap failure is returned and nothing is sent; otherwise a tap on the first match and the escaped text are sent, in that order |
| Android.ShellEscapeIsPerCharacter | src/android.js:166-175 | the nine replaces act on each character independently, so no inserted backslash is escaped again |
| Android.EscapeOne | src/android.js:166-175 | each of `\ " ' & < > \| ;` gets a backslash, a space becomes `%s`, every other character is unchanged |
| Android.ShellSeesText | src/android.js:166-177 | the command passes through the host shell inside double quotes and then through the device shell; text of letters, digits, spaces, `' & < > \| ;` and `. , - _ + : @ / = %` reaches `input text` unchanged except that each space became `%s` |
| Android.BackslashLost | src/android.js:166-177 | as written, a backslash is lost: `x\y` reaches `input text` as `xy` when y starts with a letter or digit |
| Android.QuoteReachesDeviceBare | src/android.js:166-177 | as written, after the host shell a double quote reaches the device shell without its backslash |
| Android.DeviceEscapeSurvives | src/android.js:166-177 | escaping every character other than letters, digits and space once gives a word the device shell reads as the text with `%s` for each space, leaving no special character unescaped |
| Android.SpaceAndPercentSCollide | src/android.js:170 | a space and the two characters `%s` reach the device as the same text |
| Android.KeyCodeFor | src/android.js:184-196 | a known key name gives its code; a name inherited from `Object.prototype` gives that inherited property, not the name; any other key is passed through verbatim |
| Android.KeyCodes | src/android.js:184-194 | the nine key names map to 3, 4, 82, 26, 24, 25, 66, 67 and 61, and distinct names give distinct codes |
| Android.PressKey | src/android.js:183-198 | pressKey sends exactly one key event: the code of a known key name, the inherited property for a name inherited from `Object.prototype`, and the key name itself otherwise |
| Android.ListApps | src/android.js:222-230 | no package name returned is empty |
| Android.ListAppsRoundTrip | src/android.js:222-230 | reading back what `pm list packages` prints for plain names gives the names back, in order |
| Android.GetScreenSize | src/android.js:256-263 | the size is the `WxH` at the first position where one matches, and 1080x1920 when no position matches |
| Android.LeftmostFirst | src/android.js:258 | the leftmost-match search finds nothing exactly when no position matches, and otherwise what matches at the first matching position |
| Android.ScreenSizeRoundTrip | src/android.js:256-263 | output such as `Physical size: 1080x2400` is read as its size |
| Android.ReadyId | src/android.js:48-49 | a line gives an id only when the id is non-empty and the status is exactly `device` |
| Android.Describe | src/android.js:51-64 | the record keeps the id; its name is the trimmed model, or the id when the model is blank or getprop failed; the sdk level is present exactly when getprop worked; a non-empty id never gets an empty name |
| Android.GetRunningEmulators | src/android.js:41-72 | the loop returns one record per ready line after the header, in order, and none when `adb devices` fails |
| Android.AdbDevicesRoundTrip | src/android.js:43-49 | reading back what `adb devices` prints gives the serials in state `device`, in order |
| Android.AvailableAvds | src/android.js:77-89 | no name returned is blank, and none is returned when the command fails |
| Android.AvailableAvdsRoundTrip | src/android.js:77-89 | reading back what `emulator -list-avds` prints for plain AVD names gives the names back, in order |
| Android.BootAfter | src/android.js:104-124 | no more than 60 polls are counted; a poll still waiting has used fewer than 60 |
| Android.BootOutcome | src/android.js:107-117 | the boot resolves with the first device of the first non-empty poll within 60 attempts, and rejects exactly when the first 60 polls are empty |
| Android.EmulatorBoot.Poll | src/android.js:107-117 | one poll counts an attempt, resolves on a non-empty device list, and times out on the 60th empty poll |
| Letterbox.Letterbox | src/server.js:160-181 | the scale is the smaller of the two axis ratios of the content area under the 28-point title bar |
| Letterbox.LetterboxFits | src/server.js:169-181 | the scaled screen fits the content area, and both offsets are non-negative and center it |
| Letterbox.LetterboxTouches | src/server.js:169-181 | the scaled screen touches the content edges on at least one axis |
| Letterbox.LetterboxSameAspect | src/server.js:169-181 | content of the device's aspect ratio is filled exactly, with no offsets |
| Letterbox.OriginMapsToContentOrigin | src/server.js:184-185 | device point (0, 0) is clicked at the top-left corner of the scaled screen |
| Letterbox.ClickIsAffine | src/server.js:184-185 | moving the device point moves the click by the rounded distance times the scale on each axis |
| Letterbox.ClickIsMonotone | src/server.js:184-185 | the click does not move left or up as the device point moves right or down |
| Letterbox.ClickInsideWindow | src/server.js:160-185 | every device point of the screen is clicked inside the window, below the title bar |
| Screens.FirstIncluded | src/server.js:390-395 | the size of the first table key the name includes, and none when no key is included |
| Screens.SizesPositive | src/server.js:357-383 | the default and every size in the table are positive |
| Screens.FirstWithUdid | src/server.js:387-388 | the first device of a runtime with the udid, and none when no device has it |
| Screens.LookupScreenSize | src/server.js:383-399 | the nested loop computes the size left by the last runtime listing the device, starting from 393x852 |
| Screens.ScanRuntime | src/server.js:387-398 | the inner loop matches the name of the first device with the udid, then stops |
| Screens.MatchTable | src/server.js:390-395 | the table loop takes the size of the first key the name includes, else keeps the size |
| Screens.SizeAfterPositive | src/server.js:383-401 | the stored size is always positive, so later taps never divide by zero |
| Screens.UnlistedGetsDefault | src/server.js:383-399 | a device that no runtime lists gets 393x852 |
| Screens.ListedOnceGetsItsSize | src/server.js:383-399 | a device listed in one runtime gets its name's table size, or 393x852 when no key matches |
| Screens.ProMaxBeforePro | src/server.js:358-359 | an "iPhone 15 Pro Max" gets the Pro Max size, not the Pro size |
| Server.FeatureNames | src/server.js:519-521 | Android advertises tap, swipe, type, key, launch, openurl, screenshot, record, install, uninstall, elements and tap-element; iOS the first eight and statusbar |
| Server.FeaturesMatchGates | src/server.js:412-590 | an action is advertised exactly when its handler serves the platform, except that type-element is served on Android and advertised nowhere |
| Server.PlatformOnlyFeatures | src/server.js:519-521 | only statusbar is iOS-only; install, uninstall, elements and tap-element are Android-only |
| Server.NamesDistinct | src/server.js:519-521 | distinct actions have distinct feature names |
| Server.TimeFlagSpec | src/server.js:419 | `--time` is there exactly when the time is truthy, with its text |
| Server.BatteryFlagSpec | src/server.js:420 | `--batteryLevel` is there exactly when the battery is truthy, with its text |
| Server.WifiFlagSpec | src/server.js:421 | `--wifiMode` is there exactly when wifi is defined, and is `active` exactly when wifi is truthy |
| Server.NullWifiFails | src/server.js:421 | a null wifi asks for mode `failed`; an empty body adds no option |
| Server.FlagsTextAppend | src/server.js:418-421 | the text of two groups of options is the text of the first followed by that of the second |
| Server.BuildStatusBarCommand | src/server.js:418-421 | the `cmd +=` steps build the base command followed by the options time, battery, wifi |
| Server.StatusBar | src/server.js:410-427 | off iOS no command is run; on iOS the built command runs, and its failure gives status 500 |
| Server.AndroidOnly | src/server.js:482-511 | install and uninstall off Android hand nothing to the driver; on Android the field is handed over, a driver success answers 200 and a driver failure answers status 500 with its message |
| Server.AppsEndpoint | src/server.js:329-342 | status 200 exactly when the command worked, else 500 with its message; iOS answers the raw listing, Android a list of non-empty package names |
| Server.AppsEndpointLists | src/server.js:331-333 | on Android the packages `pm list packages` printed are answered, in order |
| Server.ElementsEndpoint | src/server.js:526-542 | off Android the gate error with no elements; on Android the elements and their count, or status 500 with no elements |
| Server.TapElementEndpoint | src/server.js:545-566 | the gate, then status 400 for a missing query; a tap is sent only on Android for a string query; the answer is a tap exactly when some element matches and the tap command worked; a failed tap command gives status 500 with its message |
| Server.TypeElementEndpoint | src/server.js:569-590 | the gate, then status 400 unless query and text are both given; text is typed only through typeIntoElement; a failed tap or text command gives status 500 with its message; the typed answer comes only when both commands worked |
| Server.GatedSendsNothing | src/server.js:528-577 | the element endpoints called on iOS send nothing to the device |
| Server.Session.Tap | src/server.js:128-209 | Android taps at the rounded point; iOS clicks the letterboxed point for the stored screen size; a failed command gives status 500 |
| Server.Session.Screen | src/server.js:345-407 | Android answers `wm size` and keeps the stored size; iOS stores and answers the looked-up size; a failed command gives status 500 |
| Server.Session.RecordStart | src/server.js:430-446 | the slot is filled unconditionally, replacing a recording in progress |
| Server.Session.RecordStop | src/server.js:449-479 | an Android stop with an empty slot fails, and a successful one empties the slot; an iOS stop never clears its slot |
| Server.RecordingFile | src/server.js:437 | the iOS recording file lies in the temporary directory |
| Server.StopTwiceIOS | src/server.js:462-473 | a second iOS stop answers with the same video again |
| Server.RestartThenStop | src/server.js:433-458 | on Android, a start after a start replaces the slot, and one stop then empties it |
| Stream.Period | src/server.js:610-611 | the period times the effective rate is 1000 ms |
| Stream.DefaultPeriod | src/server.js:610 | a missing or zero rate gives 5 frames a second, one every 200 ms |
| Stream.FasterIsShorter | src/server.js:610-611 | a faster rate gives a shorter period |
| Stream.Connection.Start | src/server.js:606-613 | ignored while streaming; otherwise one new timer at the asked period |
| Stream.Connection.Stop | src/server.js:642-648 | no longer streaming, and the timer is cleared and forgotten |
| Stream.Connection.Close | src/server.js:651-657 | no longer streaming and the timer cleared, but its handle kept |
| Stream.Connection.OnMessage | src/server.js:603-649 | a start message leaves exactly one timer; a stop message leaves none; other messages change nothing |
| Stream.Connection.Tick | src/server.js:613-627 | each firing starts a capture, whether or not one is still running |
| Stream.Connection.CaptureDone | src/server.js:629-638 | a frame is sent only when the capture worked and the socket is open |
| Stream.AtMostOneTimer | src/server.js:606-657 | at most one timer runs per connection, and only while streaming |
| Stream.StartTwice | src/server.js:607 | a second start keeps the first timer |
| Stream.StopThenRestart | src/server.js:642-648 | after a stop, a start is accepted again at the new rate |
| Stream.OverlappingCaptures | src/server.js:613 | two firings without a finished capture leave two captures running |
| Stream.FrameAfterStop | src/server.js:629-635 | a capture finishing after a stop is still sent while the socket is open |
| Stream.NoFrameAfterClose | src/server.js:629 | a capture finishing after the socket closed sends nothing |
| Client.Clamp01 | public/app.js:226-227 | the clamped value lies in [0, 1] and equals the input inside it |
| Client.ScaledOnScreen | public/app.js:232-236 | a tap coordinate lies between 0 and the screen length |
| Client.ScaledClamps | public/app.js:222-236 | a click beyond an edge of the overlay taps that edge |
| Client.ScaledMonotone | public/app.js:222-236 | a click further right or down never taps further left or up |
| Client.UrlFor | public/app.js:321-325 | blank input sends nothing; otherwise the trimmed input, with `https://` added unless it starts with `http` |
| Client.UrlKeepsScheme | public/app.js:325 | an input that starts with `http` is sent as typed |
| Client.UrlForIdempotent | public/app.js:325 | the prefix is never added twice |
| Client.EscapeHtmlIsPerCharacter | public/app.js:399-401 | escaping the ampersand first makes the escaping act per character |
| Client.HtmlOne | public/app.js:399-401 | `& < > "` become their entities and every other character is unchanged |
| Client.EscapedHasNoMarkup | public/app.js:399-401 | the escaped text holds no raw `<`, `>` or `"` |
| Client.EscapeHtmlRoundTrip | public/app.js:399-401 | the browser decodes the escaped text to exactly the original |
| Client.ListedOf | public/app.js:371 | the listed elements are exactly those that are clickable or have text, in order |
| Client.ListedInOrder | public/app.js:371 | the listing keeps order: a concatenation is listed part by part, and a single element is listed exactly when it is clickable or has text |
| Client.RenderElements | public/app.js:370-389 | the empty message is shown exactly when nothing is listed; otherwise between 1 and 15 entries |
| Client.RenderedItems | public/app.js:378-387 | the i-th entry is that of the i-th listed element |
| Client.AllShownUpToFifteen | public/app.js:378 | up to fifteen listed elements are all shown |
| Client.ItemReadsBack | public/app.js:379-384 | the label reads back as at most 30 characters of text, else resource id, else class; the query reads back as the text, else the resource id |
| Client.Page.Connect | public/app.js:145-172 | the platform reply sets the platform, and the screen size goes to `device` on Android and to `display` on iOS; without a device the page stays disconnected |
| Client.Page.SocketOpened | public/app.js:174-178 | the open socket connects the page |
| Client.Page.SocketClosed | public/app.js:191-214 | a closed socket or a disconnect leaves the page disconnected |
| Client.Page.HandleTap | public/app.js:217-250 | nothing is sent while disconnected; otherwise the clamped, scaled and rounded point, for the platform's size record |
| Client.Page.NavigateToUrl | public/app.js:320-333 | nothing is sent for blank input or while disconnected; the input is cleared only when the request went through |
| Client.Page.TypeText | public/app.js:335-346 | the text is sent untrimmed; nothing for empty input or while disconnected |
| Client.Page.ClickItem | public/app.js:391-405 | a click sends the decoded query; an empty query sends nothing |
| Client.ConnectAndroid | public/app.js:45-48 | on Android taps are scaled to the reported pixel size, and the iOS record keeps its default |
| Client.ClickSendsQuery | public/app.js:382-394 | clicking an element's entry sends its text, or its resource id when it has none |
| Cli.DeviceArg | bin/simdeck.js:32 | the value of the first `--device=` argument up to any further `=`, and none when there is no such argument |
| Cli.DeviceArgOf | bin/simdeck.js:32 | the value written after `--device=` is read back, whatever follows a second `=` |
| Cli.AvailableOf | bin/simdeck.js:105-113 | exactly the available entries of a runtime are kept |
| Cli.AvailableSimulators | bin/simdeck.js:97-120 | every record returned is an iOS simulator that is not running, with the runtime's last dotted segment |
| Cli.AvailableSimulatorsSound | bin/simdeck.js:103-111 | every record returned is built from an available entry of a runtime whose key includes `iOS`, with its udid and name and the key's last dotted segment as runtime |
| Cli.AvailableSimulatorsComplete | bin/simdeck.js:103-111 | every available entry of a runtime whose key mentions iOS is offered |
| Cli.FirstBooted | bin/simdeck.js:85-88 | the entry at the first index in state Booted, and none exactly when no entry is booted |
| Cli.BootedSimulator | bin/simdeck.js:79-95 | an iOS record of a booted entry, and none exactly when no runtime has one |
| Cli.BootedSimulatorFirst | bin/simdeck.js:84-88 | the record is that of the first booted entry of the first runtime that has one |
| Cli.EmulatorServedAsIos | bin/simdeck.js:289-294 | as written, a running emulator record without a platform is served as iOS |
| Cli.TaggedEmulatorServedAsAndroid | bin/simdeck.js:348-349 | a record tagged Android is served as Android, by its id |
| Cli.UnlistedSims | bin/simdeck.js:186 | exactly the simulators whose udid no running simulator has, in order |
| Cli.UnlistedAvds | bin/simdeck.js:201 | exactly the AVD names that no running emulator has, in order |
| Cli.UnlistedSimsInOrder | bin/simdeck.js:186 | the filter keeps order: a concatenation is filtered part by part, and one simulator is kept exactly when no running simulator has its udid |
| Cli.UnlistedAvdsInOrder | bin/simdeck.js:201 | the filter keeps order: a concatenation is filtered part by part, and one AVD is kept exactly when no running emulator has its name |
| Cli.RunningFirst | bin/simdeck.js:163-210 | the running devices come first in the list |
| Cli.AvailablePart | bin/simdeck.js:184-210 | at most five idle simulators are listed, none of them running, and every listed AVD is an AVD that exists |
| Cli.PushGroup | bin/simdeck.js:165-169 | one loop pushes each item's record, numbered by the running counter |
| Cli.SelectDeviceMap | bin/simdeck.js:159-210 | the list is running iOS, running Android, up to five idle simulators, then idle AVDs, numbered from 1 |
| Cli.ParseIntOfNat | bin/simdeck.js:217 | `parseInt` reads back a typed number, whatever non-digit text follows it |
| Cli.Select | bin/simdeck.js:212-224 | an empty list gives none; otherwise an entry of the list |
| Cli.SelectByNumber | bin/simdeck.js:216-224 | typing the number printed before an entry picks that entry |
| Cli.SelectFallsBack | bin/simdeck.js:219-222 | an answer that is not a number in range picks the first entry |
| Cli.Preferred | bin/simdeck.js:308-310 | the first simulator whose name includes `iPhone 15` or `iPhone 14`; else the first simulator; none exactly when there is no simulator |
| Cli.PickDevice | bin/simdeck.js:273-301 | the device argument, then a forced platform with one running device, then a single running device, then the prompt |
| Cli.Fallback | bin/simdeck.js:304-330 | with nothing selected, a simulator is booted, else the first AVD, else there is nothing |
| Cli.Settle | bin/simdeck.js:333-349 | a device that is not running is booted first, and the id is the udid on iOS and the id otherwise |
| Cli.ChooseDevice | bin/simdeck.js:237-349 | main exits without tools exactly when both are missing; a device argument fixes the platform; a lone emulator is served as its record says |
| Cli.SingleEmulatorAsWritten | bin/simdeck.js:289-294 | with adb only and one running emulator, the emulator is served in iOS mode |
| Cli.SingleEmulatorCorrected | bin/simdeck.js:289-294 | with the record tagged Android, the same run serves the emulator in Android mode |

## Findings

| source | as written | input that shows it | evidently intended | confidence | as-written member | corrected member |
|---|---|---|---|---|---|---|
| bin/simdeck.js:289-294 | A running emulator chosen without the device list keeps the record of src/android.js:56-64, which has no `platform` field. So bin/simdeck.js:348-349 reads an undefined platform, and src/server.js:32 defaults it to `'ios'`. | Xcode absent, adb present, no flags, one running emulator `emulator-5554`. | The emulator is served in Android mode by its serial. | not executed | Cli.EmulatorServedAsIos, Cli.SingleEmulatorAsWritten | Cli.TaggedEmulatorServedAsAndroid, Cli.SingleEmulatorCorrected |
| src/android.js:166-177 | typeText escapes the text once, but the command line is read by two shells: the host shell inside double quotes, then the device shell. The host turns `\\` back into `\` and `\"` back into `"`. | Text `a\b` is typed as `ab`. Text `a"b` gives the device shell an unmatched `"`. | Every character of the text reaches `input text`, with `%s` for a space. | not executed | Android.BackslashLost, Android.QuoteReachesDeviceBare | Android.DeviceEscape, Android.DeviceEscapeSurvives |

`Cli.ChooseDevice` takes the emulator records as input. The as-written member feeds it `Cli.EmulatorRecord`, which has no platform. The corrected member feeds it `Cli.TaggedEmulatorRecord`, which is tagged Android.

`Android.DeviceEscape` escapes for the device shell alone. That is what it takes when the command is given as an argument list, without a host shell, the way `bootEmulator` spawns `emulator`. `Android.TypeIntoElement` and the element endpoints record the escaped text typeText builds, which is what is sent as written.

## Left out

- Process execution (`exec`, `spawn`), temporary files, `adb pull` and `rm` are left out. Each is replaced by the output or failure it gives, passed as a parameter.
- JSON parsing of `simctl` output and of WebSocket messages is left out, as are Express routing and the WebSocket transport. Parsed values are inputs.
- Base64 encoding of screenshots and videos is left out. A frame or a video carries the raw bytes.
- Running the AppleScript and its cliclick or System Events fallbacks is left out. AppleScript's final `round` is also left out. Click positions are stated over reals, before that rounding.
- Numbers are Dafny reals or integers, not IEEE doubles. `Math.round` is the floor of v + 1/2.
- Js.Value: a numeric request field is an integer. Fractional numbers and NaN in a request body are not modelled.
- Js.ToLowerCase lowers ASCII letters only. The Unicode case mapping of `toLowerCase` is not modelled.
- Strings are sequences of characters, not UTF-16 code units. `substring(0, 30)` on text outside the Basic Multilingual Plane is not modelled.
- Cli.ParseInt reads decimal digits only. `parseInt`'s "0x" prefix and its other radix rules are not modelled.
- Client.Page.HandleTap requires an overlay of positive width and height. A zero-size overlay, which gives NaN coordinates in the browser, is not modelled.
- Stream.Period: a non-numeric or negative `fps` and the clamping `setInterval` applies to its delay are not modelled. The rate is an optional real, where zero or absent means 5.
- Timing is left out: `setInterval`, `setTimeout`, the 200, 500, 1000 and 3000 ms waits, and how ticks and captures overlap in real time. The stream and the boot poll are driven by explicit `Tick`, `CaptureDone` and `Poll` steps.
- Server.RecordingFile states only that the file lies in the temporary directory. `path.join` normalisation of that directory is not modelled.
- The swipe, type, key, launch, openurl, screenshot and device endpoints of src/server.js are left out. They only hand request fields to a command.
- Android.ShellSeesText: the host shell's expansion of `$` and backquote and the device shell's treatment of `( ) * ? [ ] ~ #`, newline and tab are not modelled. The lemma covers only text made of the characters its row names.
- Android.KeyCodeFor: for a key inherited from `Object.prototype`, the string form of that property is not modelled; the key code is only marked as inherited.
- `getDeviceInfo`, `screenshot`, `swipe`, `launchApp`, `openUrl`, `installApk`, `uninstallApp` and `checkAdb` in src/android.js only build a command and run it, and are left out.
- `bootSimulator` and `open -a Simulator` are left out, and so is a failure of either. A simulator boot is the booted listing read after it.
- The DOM code of public/app.js is left out: `updateUI`, `updatePlatformUI`, `showTapFeedback`, the tap indicator, alerts and event wiring.
- Terminal output, the readline prompt, opening the browser and SIGINT handling in bin/simdeck.js are left out. The user's answer is an input string.
- Screens.LookupScreenSize: the nested `for` loop with its two `break`s is written as one method per loop level.

/**
 * The device-selection logic of the command-line entry point (bin/simdeck.js):
 * the `--device=` argument, the `simctl` listing filters, the numbered device
 * list the user picks from and the reading of the answer, and the decision
 * chain of `main` that ends in the platform and device id the server is
 * started with. The `simctl` listings are given already parsed, the running
 * emulators and the booted emulator as the driver's records, and the user's
 * answer as text.
 */
module Cli {
  import opened Common
  import opened Js
  import Android

  // ===========================================================================
  // Arguments
  // ===========================================================================

  /** The text after `--device=` in the first such argument, up to any further '='. */
  function DeviceArg(args: seq<string>): (v: Option<string>)
    ensures v.None? <==> forall i :: 0 <= i < |args| ==> !StartsWith(args[i], "--device=")
    ensures v.Some? ==> '=' !in v.value
  {
    if args == [] then None
    else if StartsWith(args[0], "--device=") then
      assert args[0][8] == '=';
      Some(SecondPart(args[0]))
    else
      var v := DeviceArg(args[1..]);
      assert forall i :: 1 <= i < |args| ==> args[i] == args[1..][i - 1];
      v
  }

  /** `s.split('=')[1]` for a string holding an '='. */
  function SecondPart(s: string): (v: string)
    requires '=' in s
    ensures '=' !in v
  {
    var parts := Split(s, '=');
    assert |parts| >= 2;
    parts[1]
  }

  /** The value written after `--device=` is read back, whatever follows a second '='. */
  lemma {:induction false} DeviceArgOf(pre: seq<string>, v: string, rest: string, post: seq<string>)
    requires forall i :: 0 <= i < |pre| ==> !StartsWith(pre[i], "--device=")
    requires '=' !in v && (rest == [] || rest[0] == '=')
    ensures DeviceArg(pre + ["--device=" + v + rest] + post) == Some(v)
  {
    var args := pre + ["--device=" + v + rest] + post;
    if pre == [] {
      var a := "--device=" + v + rest;
      assert StartsWith(a, "--device=");
      assert args[0] == a;
      IndexOfIs(a, '=', 8);
      assert a[9..] == v + rest;
      assert Split(a, '=') == [a[..8]] + Split(v + rest, '=');
      if rest == [] {
        assert v + rest == v;
        assert Split(v, '=') == [v];
      } else {
        IndexOfIs(v + rest, '=', |v|);
        assert (v + rest)[..|v|] == v;
        assert Split(v + rest, '=')[0] == v;
      }
    } else {
      assert args[1..] == pre[1..] + ["--device=" + v + rest] + post;
      DeviceArgOf(pre[1..], v, rest, post);
    }
  }

  /** `if (deviceArg)`: present and not empty. */
  predicate Given(arg: Option<string>) {
    arg.Some? && arg.value != []
  }

  // ===========================================================================
  // Device records and the simctl listings
  // ===========================================================================

  /**
   * A device record as main handles it; `platform` is None when the record
   * has no platform field, and `running` is false when it has no running field.
   */
  datatype Device = Device(
    platform: Option<Platform>,
    udid: Option<string>,
    id: Option<string>,
    name: string,
    runtime: string,
    running: bool,
    isAvd: bool)

  /** One entry of `simctl list devices -j`. */
  datatype SimEntry = SimEntry(udid: string, name: string, state: string, isAvailable: bool)

  /** A runtime key of the listing and its entries, in the listing's order. */
  type Listing = seq<(string, seq<SimEntry>)>

  /** The record for an available simulator of a runtime: the runtime's last dotted segment is kept. */
  function SimRecord(key: string, e: SimEntry): Device {
    Device(Some(IOS), Some(e.udid), None, e.name, LastSegment(key, '.'), false, false)
  }

  function AvailableOf(key: string, entries: seq<SimEntry>): (devs: seq<Device>)
    ensures forall d :: d in devs ==> exists e :: e in entries && e.isAvailable && d == SimRecord(key, e)
    ensures forall e :: e in entries && e.isAvailable ==> SimRecord(key, e) in devs
  {
    if entries == [] then []
    else (if entries[0].isAvailable then [SimRecord(key, entries[0])] else []) + AvailableOf(key, entries[1..])
  }

  /** getAvailableSimulators: the available simulators of the iOS runtimes, in listing order. */
  function AvailableSimulators(listing: Listing): (devs: seq<Device>)
    ensures forall d :: d in devs ==> d.platform == Some(IOS) && !d.running && '.' !in d.runtime
  {
    if listing == [] then []
    else
      var (key, entries) := listing[0];
      var here := if Includes(key, "iOS") then AvailableOf(key, entries) else [];
      assert forall d :: d in here ==> exists e :: e in entries && d == SimRecord(key, e);
      here + AvailableSimulators(listing[1..])
  }

  /** Entry e of runtime r is offered: the runtime's key mentions iOS and e is available. */
  predicate Offered(listing: Listing, r: nat, e: SimEntry) {
    r < |listing| && Includes(listing[r].0, "iOS") && e in listing[r].1 && e.isAvailable
  }

  /**
   * Every record offered comes from an available entry of a runtime whose key
   * mentions iOS, and carries that entry's udid and name and the key's last
   * dotted segment as its runtime.
   */
  lemma {:induction false} AvailableSimulatorsSound(listing: Listing, d: Device)
    requires d in AvailableSimulators(listing)
    ensures exists r: nat, e ::
              Offered(listing, r, e) && d == SimRecord(listing[r].0, e)
              && d.udid == Some(e.udid) && d.name == e.name && d.runtime == LastSegment(listing[r].0, '.')
  {
    var key := listing[0].0;
    var entries := listing[0].1;
    var here := if Includes(key, "iOS") then AvailableOf(key, entries) else [];
    assert AvailableSimulators(listing) == here + AvailableSimulators(listing[1..]);
    if d in here {
      var e :| e in entries && e.isAvailable && d == SimRecord(key, e);
      assert Offered(listing, 0, e);
    } else {
      AvailableSimulatorsSound(listing[1..], d);
      var r: nat, e :| Offered(listing[1..], r, e) && d == SimRecord(listing[1..][r].0, e);
      assert listing[1..][r] == listing[r + 1];
      assert Offered(listing, r + 1, e);
    }
  }

  /** Exactly the available entries of runtimes whose key mentions iOS are offered. */
  lemma {:induction false} AvailableSimulatorsComplete(listing: Listing, r: nat, e: SimEntry)
    requires r < |listing| && e in listing[r].1
    ensures SimRecord(listing[r].0, e) in AvailableSimulators(listing)
      <== Includes(listing[r].0, "iOS") && e.isAvailable
  {
    if Includes(listing[r].0, "iOS") && e.isAvailable && r > 0 {
      AvailableSimulatorsComplete(listing[1..], r - 1, e);
    }
  }

  /** The first entry in state Booted, if any. */
  function FirstBooted(entries: seq<SimEntry>): (b: Option<SimEntry>)
    ensures b.None? <==> forall i :: 0 <= i < |entries| ==> entries[i].state != "Booted"
    ensures forall i ::
              (0 <= i < |entries| && entries[i].state == "Booted"
               && forall j :: 0 <= j < i ==> entries[j].state != "Booted") ==> b == Some(entries[i])
  {
    if entries == [] then None
    else if entries[0].state == "Booted" then Some(entries[0])
    else
      var b := FirstBooted(entries[1..]);
      assert forall i :: 1 <= i < |entries| ==> entries[i] == entries[1..][i - 1];
      b
  }

  /** The record getBootedSimulator returns for a booted entry: `{ ...device, platform: 'ios' }`. */
  function BootedRecord(e: SimEntry): Device {
    Device(Some(IOS), Some(e.udid), None, e.name, "", false, false)
  }

  /**
   * getBootedSimulator: the first booted entry of the first runtime that has
   * one, as an iOS record without a running field; none when no entry is booted.
   */
  function BootedSimulator(listing: Listing): (d: Option<Device>)
    ensures d.Some? ==> d.value.platform == Some(IOS) && d.value.udid.Some? && !d.value.running && !d.value.isAvd
    ensures d.None? <==> forall r :: 0 <= r < |listing| ==> FirstBooted(listing[r].1).None?
  {
    if listing == [] then None
    else
      match FirstBooted(listing[0].1)
      case Some(e) => Some(BootedRecord(e))
      case None =>
        var d := BootedSimulator(listing[1..]);
        assert forall r :: 1 <= r < |listing| ==> listing[r] == listing[1..][r - 1];
        d
  }

  /** Runtime r is the first with a booted entry. */
  predicate FirstBootedRuntime(listing: Listing, r: nat) {
    r < |listing| && FirstBooted(listing[r].1).Some?
    && forall q :: 0 <= q < r ==> FirstBooted(listing[q].1).None?
  }

  /** The record returned is that of the first booted entry of the first runtime that has one. */
  lemma {:induction false} BootedSimulatorFirst(listing: Listing, r: nat)
    requires FirstBootedRuntime(listing, r)
    ensures BootedSimulator(listing) == Some(BootedRecord(FirstBooted(listing[r].1).value))
  {
    if r > 0 {
      assert listing[1..][r - 1] == listing[r];
      assert forall q :: 0 <= q < r - 1 ==> listing[1..][q] == listing[q + 1];
      BootedSimulatorFirst(listing[1..], r - 1);
    }
  }

  /** A running emulator as getRunningEmulators reports it: it has no platform field. */
  function EmulatorRecord(d: Android.AndroidDevice): Device {
    Device(None, None, Some(d.id), d.name, "", false, false)
  }

  /** The record the emulator evidently should have: tagged as Android. */
  function TaggedEmulatorRecord(d: Android.AndroidDevice): Device {
    Device(Some(Android), None, Some(d.id), d.name, "", false, false)
  }

  /** What the server is started with for a record: a missing platform becomes createServer's default, iOS. */
  function Serving(dev: Device): Outcome {
    var p := if dev.platform.Some? then dev.platform.value else IOS;
    Serve(p, if dev.platform == Some(IOS) then dev.udid else dev.id)
  }

  /** As written: an emulator record picked without the device list is served as an iOS device. */
  lemma EmulatorServedAsIos(d: Android.AndroidDevice)
    ensures Serving(EmulatorRecord(d)) == Serve(IOS, Some(d.id))
  {
  }

  /** Corrected: the tagged record is served as the Android device it is. */
  lemma TaggedEmulatorServedAsAndroid(d: Android.AndroidDevice)
    ensures Serving(TaggedEmulatorRecord(d)) == Serve(Android, Some(d.id))
  {
  }

  // ===========================================================================
  // selectDevice
  // ===========================================================================

  /** No running simulator has d's udid: `!iosDevices.find(r => r.udid === d.udid)`. */
  predicate NotRunningSim(ios: seq<Device>, d: Device) {
    forall x :: x in ios ==> x.udid != d.udid
  }

  /** No running emulator has the AVD's name: `!androidDevices.find(d => d.name === avd.name)`. */
  predicate NotRunningAvd(emulators: seq<Device>, a: string) {
    forall x :: x in emulators ==> x.name != a
  }

  /** The simulators whose udid no running simulator has. */
  function UnlistedSims(available: seq<Device>, ios: seq<Device>): (r: seq<Device>)
    ensures |r| <= |available|
    ensures forall d :: d in r ==> d in available && forall x :: x in ios ==> x.udid != d.udid
    ensures forall d :: d in available && (forall x :: x in ios ==> x.udid != d.udid) ==> d in r
  {
    Filter(available, d => NotRunningSim(ios, d))
  }

  /** UnlistedSims keeps the listing's order and its repeats: it acts on each simulator in turn. */
  lemma UnlistedSimsInOrder(a: seq<Device>, b: seq<Device>, ios: seq<Device>)
    ensures UnlistedSims(a + b, ios) == UnlistedSims(a, ios) + UnlistedSims(b, ios)
    ensures |a| == 1 ==> UnlistedSims(a, ios) == (if NotRunningSim(ios, a[0]) then a else [])
  {
    FilterAppend(a, b, d => NotRunningSim(ios, d));
  }

  /** The AVD names no running emulator has as its name. */
  function UnlistedAvds(avds: seq<string>, emulators: seq<Device>): (r: seq<string>)
    ensures |r| <= |avds|
    ensures forall a :: a in r ==> a in avds && forall x :: x in emulators ==> x.name != a
    ensures forall a :: a in avds && (forall x :: x in emulators ==> x.name != a) ==> a in r
  {
    Filter(avds, a => NotRunningAvd(emulators, a))
  }

  /** UnlistedAvds keeps the order and repeats of the AVD list: it acts on each name in turn. */
  lemma UnlistedAvdsInOrder(a: seq<string>, b: seq<string>, emulators: seq<Device>)
    ensures UnlistedAvds(a + b, emulators) == UnlistedAvds(a, emulators) + UnlistedAvds(b, emulators)
    ensures |a| == 1 ==> UnlistedAvds(a, emulators) == (if NotRunningAvd(emulators, a[0]) then a else [])
  {
    FilterAppend(a, b, x => NotRunningAvd(emulators, x));
  }

  const MaxAvailableShown: nat := 5

  /** A group of the list: each item turned into its record. */
  function Mapped<T>(items: seq<T>, f: T -> Device): (r: seq<Device>)
    ensures |r| == |items| && forall i :: 0 <= i < |items| ==> r[i] == f(items[i])
  {
    seq(|items|, i requires 0 <= i < |items| => f(items[i]))
  }

  function MarkRunningIos(d: Device): Device {
    d.(platform := Some(IOS), running := true)
  }

  function MarkRunningAndroid(d: Device): Device {
    d.(platform := Some(Android), running := true)
  }

  function MarkAvailableIos(d: Device): Device {
    d.(platform := Some(IOS), running := false)
  }

  function AvdRecord(name: string): Device {
    Device(Some(Android), None, None, name, "", false, true)
  }

  function RunningIos(ios: seq<Device>): seq<Device> {
    Mapped(ios, MarkRunningIos)
  }

  function RunningEmulators(emulators: seq<Device>): seq<Device> {
    Mapped(emulators, MarkRunningAndroid)
  }

  /** The first five simulators that are not running. */
  function ShownSims(available: seq<Device>, ios: seq<Device>): seq<Device> {
    var unlisted := UnlistedSims(available, ios);
    unlisted[..if |unlisted| < MaxAvailableShown then |unlisted| else MaxAvailableShown]
  }

  function AvailableIos(available: seq<Device>, ios: seq<Device>): seq<Device> {
    Mapped(ShownSims(available, ios), MarkAvailableIos)
  }

  function AvailableAvds(avds: seq<string>, emulators: seq<Device>): seq<Device> {
    Mapped(UnlistedAvds(avds, emulators), AvdRecord)
  }

  /** The numbered list: running iOS, running Android, up to five other simulators, then the other AVDs. */
  function DeviceMap(ios: seq<Device>, emulators: seq<Device>, available: seq<Device>, avds: seq<string>): seq<Device> {
    RunningIos(ios) + RunningEmulators(emulators) + AvailableIos(available, ios) + AvailableAvds(avds, emulators)
  }

  /** The running devices come first in the list. */
  lemma RunningFirst(ios: seq<Device>, emulators: seq<Device>, available: seq<Device>, avds: seq<string>, i: nat, j: nat)
    requires i < j < |DeviceMap(ios, emulators, available, avds)|
    requires DeviceMap(ios, emulators, available, avds)[j].running
    ensures DeviceMap(ios, emulators, available, avds)[i].running
  {
  }

  /** At most five simulators that are not running are listed, none of them a running one, and every AVD listed is runnable. */
  lemma AvailablePart(ios: seq<Device>, emulators: seq<Device>, available: seq<Device>, avds: seq<string>)
    ensures |AvailableIos(available, ios)| <= MaxAvailableShown
    ensures forall d :: d in AvailableIos(available, ios) ==> forall x :: x in ios ==> x.udid != d.udid
    ensures forall d :: d in AvailableAvds(avds, emulators) ==> d.isAvd && d.name in avds
  {
    var unlisted := UnlistedSims(available, ios);
    var shown := ShownSims(available, ios);
    forall d | d in AvailableIos(available, ios) ensures forall x :: x in ios ==> x.udid != d.udid {
      var i :| 0 <= i < |shown| && d == MarkAvailableIos(shown[i]);
      assert shown[i] in unlisted;
    }
  }

  /** Entries numbered from 1 in order: the number printed before each. */
  predicate Numbered(labels: seq<nat>) {
    forall k :: 0 <= k < |labels| ==> labels[k] == k + 1
  }

  /** One loop of selectDevice: each item's record is pushed and numbered with the running counter. */
  method PushGroup<T>(deviceMap: seq<Device>, labels: seq<nat>, index: nat, items: seq<T>, f: T -> Device)
    returns (deviceMap': seq<Device>, labels': seq<nat>, index': nat)
    requires index == |deviceMap| + 1 && |labels| == |deviceMap| && Numbered(labels)
    ensures deviceMap' == deviceMap + Mapped(items, f)
    ensures index' == |deviceMap'| + 1 && |labels'| == |deviceMap'| && Numbered(labels')
  {
    deviceMap', labels', index' := deviceMap, labels, index;
    for i := 0 to |items|
      invariant deviceMap' == deviceMap + Mapped(items, f)[..i]
      invariant index' == |deviceMap'| + 1 && |labels'| == |deviceMap'| && Numbered(labels')
    {
      labels' := labels' + [index'];
      deviceMap' := deviceMap' + [f(items[i])];
      index' := index' + 1;
    }
  }

  /**
   * selectDevice's list: the groups are pushed in turn while a counter numbers
   * the entries; `labels` are the numbers printed before them.
   */
  method SelectDeviceMap(ios: seq<Device>, emulators: seq<Device>, available: seq<Device>, avds: seq<string>)
    returns (deviceMap: seq<Device>, labels: seq<nat>)
    ensures deviceMap == DeviceMap(ios, emulators, available, avds)
    ensures |labels| == |deviceMap| && Numbered(labels)
  {
    var index := 1;
    deviceMap, labels := [], [];
    deviceMap, labels, index := PushGroup(deviceMap, labels, index, ios, MarkRunningIos);
    assert deviceMap == RunningIos(ios);
    deviceMap, labels, index := PushGroup(deviceMap, labels, index, emulators, MarkRunningAndroid);
    assert deviceMap == RunningIos(ios) + RunningEmulators(emulators);
    var notRunningIos := ShownSims(available, ios);
    deviceMap, labels, index := PushGroup(deviceMap, labels, index, notRunningIos, MarkAvailableIos);
    assert deviceMap == RunningIos(ios) + RunningEmulators(emulators) + AvailableIos(available, ios);
    var notRunningAndroid := UnlistedAvds(avds, emulators);
    deviceMap, labels, index := PushGroup(deviceMap, labels, index, notRunningAndroid, AvdRecord);
  }

  /** parseInt on the answer: optional sign and the leading decimal digits; None for NaN. */
  function ParseInt(s: string): (n: Option<int>) {
    var t := TrimStart(s);
    var signed := t != [] && (t[0] == '-' || t[0] == '+');
    var body := if signed then t[1..] else t;
    var k := DigitRun(body);
    if k == 0 then None
    else if t[0] == '-' then Some(0 - DigitsValue(body[..k]))
    else Some(DigitsValue(body[..k]))
  }

  /** A typed number is read back, whatever non-digit text follows it. */
  lemma {:induction false} ParseIntOfNat(n: nat, rest: string)
    requires rest == [] || !IsDigit(rest[0])
    ensures ParseInt(NatToString(n) + rest) == Some(n)
  {
    var ds := NatToString(n);
    var s := ds + rest;
    assert TrimStart(s) == s by {
      assert s[0] == ds[0] && IsDigit(s[0]);
      NoLeadingSpace(s);
    }
    assert DigitRun(s) == |ds| && s[..|ds|] == ds by {
      DigitRunOf(ds, rest);
    }
    assert DigitsValue(ds) == n by {
      DigitsValueOfNatToString(n);
    }
    assert s[0] != '-' && s[0] != '+';
  }

  lemma NoLeadingSpace(s: string)
    requires s != [] && IsDigit(s[0])
    ensures TrimStart(s) == s
  {
    assert !IsWhitespace(s[0]);
  }

  /** The entry picked by the answer: the numbered one, else the first; None for an empty list. */
  function Select(deviceMap: seq<Device>, answer: string): (d: Option<Device>)
    ensures d.None? <==> deviceMap == []
    ensures d.Some? ==> d.value in deviceMap
  {
    if deviceMap == [] then None
    else
      var selection := ParseInt(answer);
      if selection.None? || selection.value < 1 || selection.value > |deviceMap| then Some(deviceMap[0])
      else Some(deviceMap[selection.value - 1])
  }

  /** Typing the number printed before an entry picks that entry. */
  lemma SelectByNumber(deviceMap: seq<Device>, labels: seq<nat>, i: nat)
    requires |labels| == |deviceMap| && Numbered(labels)
    requires i < |deviceMap|
    ensures Select(deviceMap, NatToString(labels[i])) == Some(deviceMap[i])
  {
    ParseIntOfNat(labels[i], []);
    assert NatToString(labels[i]) + [] == NatToString(labels[i]);
  }

  /** An answer that is not a number in range picks the first entry. */
  lemma SelectFallsBack(deviceMap: seq<Device>, answer: string)
    requires deviceMap != []
    requires ParseInt(answer).None? || ParseInt(answer).value < 1 || ParseInt(answer).value > |deviceMap|
    ensures Select(deviceMap, answer) == Some(deviceMap[0])
  {
  }

  // ===========================================================================
  // main
  // ===========================================================================

  /** How main ends: the process exits without tools or devices, an emulator boot times out, or the server starts. */
  datatype Outcome = NoTools | NoDevices | BootFailed | Serve(platform: Platform, deviceId: Option<string>)

  /** Which tools the checks found, and the command-line flags. */
  datatype Setup = Setup(hasXcode: bool, hasAdb: bool, forceIos: bool, forceAndroid: bool, deviceArg: Option<string>)

  /**
   * What the environment reports: the booted and the available simulator
   * listings (the booted one as it is after a simulator boot), the running
   * emulators and the AVD names, the user's answer, and the device an
   * emulator boot resolves with (None when it times out).
   */
  datatype World = World(
    booted: Listing,
    bootedAfter: Listing,
    available: Listing,
    emulators: seq<Device>,
    avds: seq<string>,
    answer: string,
    emulatorBoot: Option<Device>)

  /** Emulator records are Android records that are neither AVDs nor iOS devices. */
  predicate EmulatorRecords(w: World) {
    (forall e :: e in w.emulators ==> e.platform != Some(IOS) && !e.isAvd && e.id.Some?)
    && (w.emulatorBoot.Some? ==> w.emulatorBoot.value.platform != Some(IOS) && !w.emulatorBoot.value.isAvd)
  }

  /** The iPhone 15 or 14 simulators are preferred when one has to be booted. */
  predicate Preferable(d: Device) {
    Includes(d.name, "iPhone 15") || Includes(d.name, "iPhone 14")
  }

  /** ds.find(p): the first device p accepts. */
  function FirstWhere(ds: seq<Device>, p: Device -> bool): (r: Option<Device>)
    ensures r.None? <==> forall i :: 0 <= i < |ds| ==> !p(ds[i])
    ensures forall i :: (0 <= i < |ds| && p(ds[i]) && forall j :: 0 <= j < i ==> !p(ds[j])) ==> r == Some(ds[i])
  {
    if ds == [] then None
    else if p(ds[0]) then Some(ds[0])
    else
      var r := FirstWhere(ds[1..], p);
      assert forall i :: 1 <= i < |ds| ==> ds[i] == ds[1..][i - 1];
      r
  }

  /**
   * The simulator to boot when none was selected: the first preferable one,
   * else `available[0]`, and none when there is no simulator at all.
   */
  function Preferred(available: seq<Device>): (d: Option<Device>)
    ensures d.None? <==> available == []
    ensures forall i ::
              (0 <= i < |available| && Preferable(available[i])
               && forall j :: 0 <= j < i ==> !Preferable(available[j])) ==> d == Some(available[i])
    ensures available != [] && (forall i :: 0 <= i < |available| ==> !Preferable(available[i]))
      ==> d == Some(available[0])
  {
    match FirstWhere(available, Preferable)
    case Some(x) => Some(x)
    case None => if available == [] then None else Some(available[0])
  }

  /**
   * Step 3 of main: the device argument, then a forced platform with one
   * running device, then a single running device, then the prompt when there
   * is a choice or something to boot.
   */
  method PickDevice(s: Setup, ios: seq<Device>, emulators: seq<Device>, available: seq<Device>, avds: seq<string>,
                    answer: string) returns (selected: Option<Device>)
    ensures Given(s.deviceArg) && (s.forceIos || (!s.forceAndroid && s.hasXcode))
      ==> selected == Some(Device(Some(IOS), s.deviceArg, None, "", "", false, false))
    ensures Given(s.deviceArg) && !(s.forceIos || (!s.forceAndroid && s.hasXcode))
      ==> selected == Some(Device(Some(Android), None, s.deviceArg, "", "", false, false))
    ensures !Given(s.deviceArg) && s.forceIos && |ios| == 1 ==> selected == Some(ios[0])
    ensures (!Given(s.deviceArg) && !(s.forceIos && |ios| == 1) && s.forceAndroid && |emulators| == 1)
      ==> selected == Some(emulators[0])
    ensures (!Given(s.deviceArg) && !(s.forceIos && |ios| == 1) && !(s.forceAndroid && |emulators| == 1)
      && |ios| + |emulators| == 1) ==> selected == Some((ios + emulators)[0])
    ensures (!Given(s.deviceArg) && !(s.forceIos && |ios| == 1) && !(s.forceAndroid && |emulators| == 1)
      && |ios| + |emulators| != 1)
      ==> selected == (if |ios| + |emulators| > 1 || |available| + |avds| > 0
                       then Select(DeviceMap(ios, emulators, available, avds), answer) else None)
  {
    selected := None;
    if Given(s.deviceArg) {
      if s.forceIos || (!s.forceAndroid && s.hasXcode) {
        selected := Some(Device(Some(IOS), s.deviceArg, None, "", "", false, false));
      } else {
        selected := Some(Device(Some(Android), None, s.deviceArg, "", "", false, false));
      }
    } else if s.forceIos && |ios| == 1 {
      selected := Some(ios[0]);
    } else if s.forceAndroid && |emulators| == 1 {
      selected := Some(emulators[0]);
    } else if |ios| + |emulators| == 1 {
      selected := Some(if |ios| == 1 then ios[0] else emulators[0]);
    } else if |ios| + |emulators| > 1 || (|ios| + |emulators| == 0 && |available| + |avds| > 0) {
      var deviceMap, _ := SelectDeviceMap(ios, emulators, available, avds);
      selected := Select(deviceMap, answer);
    }
  }

  /** Step 4 of main: with nothing selected, a simulator is booted, else the first AVD; else there is nothing. */
  method Fallback(s: Setup, available: seq<Device>, avds: seq<string>, emulatorBoot: Option<Device>)
    returns (selected: Option<Device>, failed: bool)
    ensures s.hasXcode && !s.forceAndroid && available != []
      ==> !failed && selected == Some(Preferred(available).value.(running := true))
    ensures !(s.hasXcode && !s.forceAndroid && available != []) && s.hasAdb && !s.forceIos && avds != []
      ==> failed == emulatorBoot.None? && (!failed ==> selected == Some(emulatorBoot.value.(running := true)))
    ensures !(s.hasXcode && !s.forceAndroid && available != []) && !(s.hasAdb && !s.forceIos && avds != [])
      ==> !failed && selected == None
  {
    selected, failed := None, false;
    if s.hasXcode && !s.forceAndroid {
      var preferred := Preferred(available);
      if preferred.Some? {
        selected := Some(preferred.value.(running := true));
      }
    }
    if selected.None? && s.hasAdb && !s.forceIos {
      if |avds| > 0 {
        if emulatorBoot.None? {
          return None, true;
        }
        selected := Some(emulatorBoot.value.(running := true));
      }
    }
  }

  /**
   * The end of main: a device that is not running is booted (a simulator is
   * re-read from the booted listing, an AVD replaced by the emulator that
   * came up), then the platform and id are read off the record.
   */
  method Settle(dev: Device, bootedAfter: Option<Device>, emulatorBoot: Option<Device>) returns (r: Outcome)
    ensures dev.running ==> r == Serving(dev)
    ensures !dev.running && dev.platform == Some(IOS)
      ==> r == Serving(if bootedAfter.Some? then bootedAfter.value else dev)
    ensures !dev.running && dev.platform != Some(IOS) && dev.isAvd
      ==> r == if emulatorBoot.Some? then Serving(emulatorBoot.value) else BootFailed
    ensures !dev.running && dev.platform != Some(IOS) && !dev.isAvd ==> r == Serving(dev)
  {
    var selectedDevice := dev;
    if !selectedDevice.running {
      if selectedDevice.platform == Some(IOS) {
        if bootedAfter.Some? {
          selectedDevice := bootedAfter.value;
        }
      } else if selectedDevice.isAvd {
        if emulatorBoot.None? {
          return BootFailed;
        }
        selectedDevice := emulatorBoot.value;
      }
    }
    var platform := selectedDevice.platform;
    var deviceId := if platform == Some(IOS) then selectedDevice.udid else selectedDevice.id;
    r := Serve(if platform.Some? then platform.value else IOS, deviceId);
  }

  /** main, from the tool checks to the platform and device id handed to the server. */
  method ChooseDevice(s: Setup, w: World) returns (r: Outcome)
    requires EmulatorRecords(w)
    ensures r == NoTools <==> !s.hasXcode && !s.hasAdb
    ensures (s.hasXcode || s.hasAdb) && Given(s.deviceArg) && !(s.forceIos || (!s.forceAndroid && s.hasXcode))
      ==> r == Serve(Android, s.deviceArg)
    ensures (s.hasXcode || s.hasAdb) && Given(s.deviceArg) && (s.forceIos || (!s.forceAndroid && s.hasXcode))
      ==> r == Serve(IOS, if BootedSimulator(w.bootedAfter).Some? then BootedSimulator(w.bootedAfter).value.udid
                          else s.deviceArg)
    ensures s.hasAdb && !s.hasXcode && !Given(s.deviceArg) && !s.forceIos && |w.emulators| == 1
      ==> r == Serving(w.emulators[0])
    ensures r == NoDevices ==> BootedSimulator(w.booted).None? || !s.hasXcode || s.forceAndroid
  {
    if !s.hasXcode && !s.hasAdb {
      return NoTools;
    }
    var iosDevices: seq<Device> := [];
    if s.hasXcode && !s.forceAndroid {
      var booted := BootedSimulator(w.booted);
      if booted.Some? {
        iosDevices := [booted.value];
      }
    }
    var androidDevices: seq<Device> := [];
    var androidAvds: seq<string> := [];
    if s.hasAdb && !s.forceIos {
      androidDevices := w.emulators;
      androidAvds := w.avds;
    }
    var available := AvailableSimulators(w.available);
    var selected := PickDevice(s, iosDevices, androidDevices, available, androidAvds, w.answer);
    if selected.None? {
      var failed;
      selected, failed := Fallback(s, available, androidAvds, w.emulatorBoot);
      if failed {
        return BootFailed;
      }
      if selected.None? {
        return NoDevices;
      }
    }
    r := Settle(selected.value, BootedSimulator(w.bootedAfter), w.emulatorBoot);
  }

  /** As written: the one running emulator, picked without a prompt, is served in iOS mode. */
  method SingleEmulatorAsWritten(d: Android.AndroidDevice, avds: seq<string>) returns (r: Outcome)
    ensures r == Serve(IOS, Some(d.id))
  {
    var w := World([], [], [], [EmulatorRecord(d)], avds, [], None);
    r := ChooseDevice(Setup(false, true, false, false, None), w);
    EmulatorServedAsIos(d);
  }

  /** Corrected: with the record tagged as Android, the same run serves it in Android mode. */
  method SingleEmulatorCorrected(d: Android.AndroidDevice, avds: seq<string>) returns (r: Outcome)
    ensures r == Serve(Android, Some(d.id))
  {
    var w := World([], [], [], [TaggedEmulatorRecord(d)], avds, [], None);
    r := ChooseDevice(Setup(false, true, false, false, None), w);
    TaggedEmulatorServedAsAndroid(d);
  }
}

/**
 * The iOS branch of GET /api/screen (src/server.js): the logical screen size of
 * the booted simulator is looked up by device name in an ordered table, the
 * first key contained in the name winning, with 393x852 as the default. The
 * `simctl list devices booted -j` output is given already parsed, as the list
 * of runtimes with their devices in the order the JSON lists them.
 */
module Screens {
  import opened Common
  import opened Js

  /** One simulator as `simctl` lists it. */
  datatype SimDevice = SimDevice(udid: string, name: string)

  /** A runtime's name and its devices. */
  datatype Runtime = Runtime(name: string, devices: seq<SimDevice>)

  /** The size the server assumes when nothing is known (an iPhone 15 Pro). */
  const DefaultSize: Size := Size(393, 852)

  /** The device-name table, in the order its entries are tried. */
  const DeviceSizes: seq<(string, Size)> := [
    ("iPhone 15 Pro Max", Size(430, 932)),
    ("iPhone 15 Pro", Size(393, 852)),
    ("iPhone 15 Plus", Size(430, 932)),
    ("iPhone 15", Size(393, 852)),
    ("iPhone 14 Pro Max", Size(430, 932)),
    ("iPhone 14 Pro", Size(393, 852)),
    ("iPhone 14 Plus", Size(428, 926)),
    ("iPhone 14", Size(390, 844)),
    ("iPhone 13 Pro Max", Size(428, 926)),
    ("iPhone 13 Pro", Size(390, 844)),
    ("iPhone 13 mini", Size(375, 812)),
    ("iPhone 13", Size(390, 844)),
    ("iPhone 12 Pro Max", Size(428, 926)),
    ("iPhone 12 Pro", Size(390, 844)),
    ("iPhone 12 mini", Size(375, 812)),
    ("iPhone 12", Size(390, 844)),
    ("iPhone SE", Size(375, 667)),
    ("iPhone 17 Pro", Size(402, 874)),
    ("iPhone 16 Pro Max", Size(440, 956)),
    ("iPhone 16 Pro", Size(402, 874)),
    ("iPad Pro", Size(1024, 1366)),
    ("iPad Air", Size(820, 1180)),
    ("iPad mini", Size(744, 1133))]

  predicate Positive(s: Size) {
    s.width > 0 && s.height > 0
  }

  /** The size of the first entry whose key the name includes, if any. */
  function FirstIncluded(table: seq<(string, Size)>, name: string): (r: Option<Size>)
    ensures r.None? <==> forall i :: 0 <= i < |table| ==> !Includes(name, table[i].0)
    ensures r.Some? ==>
      exists i :: (0 <= i < |table| && Includes(name, table[i].0) && r.value == table[i].1
        && forall k :: 0 <= k < i ==> !Includes(name, table[k].0))
  {
    if table == [] then None
    else if Includes(name, table[0].0) then Some(table[0].1)
    else
      var r := FirstIncluded(table[1..], name);
      assert forall i :: 1 <= i < |table| ==> table[i] == table[1..][i - 1];
      r
  }

  /** The entry that is first to match is the one the lookup returns. */
  lemma FirstIncludedAt(table: seq<(string, Size)>, name: string, t: nat)
    requires t < |table| && Includes(name, table[t].0)
    requires forall k :: 0 <= k < t ==> !Includes(name, table[k].0)
    ensures FirstIncluded(table, name) == Some(table[t].1)
  {
    var r := FirstIncluded(table, name);
    var i :| 0 <= i < |table| && Includes(name, table[i].0) && r.value == table[i].1
      && forall k :: 0 <= k < i ==> !Includes(name, table[k].0);
    assert i == t;
  }

  /** The size the table gives a device name, if any key matches. */
  function SizeForName(name: string): Option<Size> {
    FirstIncluded(DeviceSizes, name)
  }

  /** Every size in the table, and the default, is a real screen. */
  lemma SizesPositive()
    ensures Positive(DefaultSize)
    ensures forall i :: 0 <= i < |DeviceSizes| ==> Positive(DeviceSizes[i].1)
  {
  }

  /** The first device of a runtime with the given udid: the inner loop stops there. */
  function FirstWithUdid(devices: seq<SimDevice>, udid: string): (d: Option<SimDevice>)
    ensures d.None? <==> forall i :: 0 <= i < |devices| ==> devices[i].udid != udid
    ensures d.Some? ==>
      exists i :: (0 <= i < |devices| && devices[i] == d.value && d.value.udid == udid
        && forall k :: 0 <= k < i ==> devices[k].udid != udid)
  {
    if devices == [] then None
    else if devices[0].udid == udid then Some(devices[0])
    else
      var d := FirstWithUdid(devices[1..], udid);
      assert forall i :: 1 <= i < |devices| ==> devices[i] == devices[1..][i - 1];
      d
  }

  /** What one runtime of the outer loop does to the size found so far. */
  function RuntimeStep(devices: seq<SimDevice>, udid: string, size: Size): Size {
    match FirstWithUdid(devices, udid)
    case None => size
    case Some(d) =>
      match SizeForName(d.name)
      case None => size
      case Some(s) => s
  }

  /** The size after the outer loop has visited every runtime, in order. */
  function SizeAfter(runtimes: seq<Runtime>, udid: string): Size {
    if runtimes == [] then DefaultSize
    else RuntimeStep(runtimes[|runtimes| - 1].devices, udid, SizeAfter(runtimes[..|runtimes| - 1], udid))
  }

  /**
   * The nested loop of GET /api/screen, one method per loop level: for every
   * runtime, the first device with the udid has its name matched against the
   * table; the inner break leaves only that runtime, so a later runtime listing
   * the device again decides.
   */
  method LookupScreenSize(runtimes: seq<Runtime>, udid: string) returns (size: Size)
    ensures size == SizeAfter(runtimes, udid)
  {
    size := DefaultSize;
    var r := 0;
    while r < |runtimes|
      invariant r <= |runtimes|
      invariant size == SizeAfter(runtimes[..r], udid)
    {
      size := ScanRuntime(runtimes[r].devices, udid, size);
      SizeAfterSnoc(runtimes, r, udid);
      r := r + 1;
    }
    assert runtimes[..r] == runtimes;
  }

  /** The inner loop over one runtime's devices: the first with the udid has its name matched, then the loop breaks. */
  method ScanRuntime(devices: seq<SimDevice>, udid: string, size: Size) returns (size': Size)
    ensures size' == RuntimeStep(devices, udid, size)
  {
    size' := size;
    var d := 0;
    while d < |devices|
      invariant d <= |devices|
      invariant forall k :: 0 <= k < d ==> devices[k].udid != udid
      invariant size' == size
    {
      if devices[d].udid == udid {
        size' := MatchTable(devices[d].name, size');
        FirstWithUdidAt(devices, udid, d);
        return;
      }
      d := d + 1;
    }
  }

  lemma SizeAfterSnoc(runtimes: seq<Runtime>, r: nat, udid: string)
    requires r < |runtimes|
    ensures SizeAfter(runtimes[..r + 1], udid)
      == RuntimeStep(runtimes[r].devices, udid, SizeAfter(runtimes[..r], udid))
  {
    assert runtimes[..r + 1][..r] == runtimes[..r];
  }

  /** The table loop for one device name: the first key the name includes sets the size. */
  method MatchTable(name: string, size: Size) returns (size': Size)
    ensures size' == match SizeForName(name) case None => size case Some(s) => s
  {
    size' := size;
    var t := 0;
    while t < |DeviceSizes|
      invariant t <= |DeviceSizes|
      invariant forall k :: 0 <= k < t ==> !Includes(name, DeviceSizes[k].0)
      invariant size' == size
    {
      if Includes(name, DeviceSizes[t].0) {
        size' := DeviceSizes[t].1;
        FirstIncludedAt(DeviceSizes, name, t);
        return;
      }
      t := t + 1;
    }
  }

  lemma FirstWithUdidAt(devices: seq<SimDevice>, udid: string, d: nat)
    requires d < |devices| && devices[d].udid == udid
    requires forall k :: 0 <= k < d ==> devices[k].udid != udid
    ensures FirstWithUdid(devices, udid) == Some(devices[d])
  {
    var r := FirstWithUdid(devices, udid);
    var i :| 0 <= i < |devices| && devices[i] == r.value && r.value.udid == udid
      && forall k :: 0 <= k < i ==> devices[k].udid != udid;
    assert i == d;
  }

  /** The stored size is always a real screen, so later taps never divide by zero. */
  lemma {:induction false} SizeAfterPositive(runtimes: seq<Runtime>, udid: string)
    ensures Positive(SizeAfter(runtimes, udid))
  {
    SizesPositive();
    if runtimes != [] {
      SizeAfterPositive(runtimes[..|runtimes| - 1], udid);
      var devices := runtimes[|runtimes| - 1].devices;
      match FirstWithUdid(devices, udid)
      case None =>
      case Some(d) =>
        match SizeForName(d.name)
        case None =>
        case Some(s) =>
          var i :| 0 <= i < |DeviceSizes| && Includes(d.name, DeviceSizes[i].0) && s == DeviceSizes[i].1
            && forall k :: 0 <= k < i ==> !Includes(d.name, DeviceSizes[k].0);
    }
  }

  predicate Lists(rt: Runtime, udid: string) {
    exists i :: 0 <= i < |rt.devices| && rt.devices[i].udid == udid
  }

  /** A device no runtime lists gets the default size. */
  lemma {:induction false} UnlistedGetsDefault(runtimes: seq<Runtime>, udid: string)
    requires forall r :: 0 <= r < |runtimes| ==> !Lists(runtimes[r], udid)
    ensures SizeAfter(runtimes, udid) == DefaultSize
  {
    if runtimes != [] {
      var init := runtimes[..|runtimes| - 1];
      assert forall r :: 0 <= r < |init| ==> init[r] == runtimes[r];
      UnlistedGetsDefault(init, udid);
    }
  }

  /** A device listed in exactly one runtime gets its name's table size, or the default when no key matches. */
  lemma {:induction false} ListedOnceGetsItsSize(runtimes: seq<Runtime>, udid: string, r: nat, d: nat)
    requires r < |runtimes| && d < |runtimes[r].devices| && runtimes[r].devices[d].udid == udid
    requires forall k :: 0 <= k < d ==> runtimes[r].devices[k].udid != udid
    requires forall q :: 0 <= q < |runtimes| && q != r ==> !Lists(runtimes[q], udid)
    ensures SizeAfter(runtimes, udid)
      == match SizeForName(runtimes[r].devices[d].name) case None => DefaultSize case Some(s) => s
  {
    var n := |runtimes|;
    var init := runtimes[..n - 1];
    var last := runtimes[n - 1].devices;
    assert SizeAfter(runtimes, udid) == RuntimeStep(last, udid, SizeAfter(init, udid));
    if r == n - 1 {
      assert SizeAfter(init, udid) == DefaultSize by {
        assert forall q :: 0 <= q < |init| ==> init[q] == runtimes[q];
        UnlistedGetsDefault(init, udid);
      }
      FirstWithUdidAt(last, udid, d);
    } else {
      assert SizeAfter(init, udid) == (match SizeForName(runtimes[r].devices[d].name)
        case None => DefaultSize case Some(s) => s) by {
        assert forall q :: 0 <= q < |init| ==> init[q] == runtimes[q];
        ListedOnceGetsItsSize(init, udid, r, d);
      }
      assert FirstWithUdid(last, udid).None? by {
        assert !Lists(runtimes[n - 1], udid);
      }
    }
  }

  /** The longer key is tried first: an "iPhone 15 Pro Max" gets the Pro Max size, not the Pro size. */
  lemma ProMaxBeforePro()
    ensures SizeForName(DeviceSizes[0].0) == Some(Size(430, 932))
  {
    IncludesSelf(DeviceSizes[0].0);
  }
}

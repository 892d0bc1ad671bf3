/** The `zealot_sync_devices` action: pushes every registered Apple device to Zealot,
    one at a time, and counts the ones that could not be pushed. */
module ZealotSyncDevices {
  import opened Runtime

  const CONNECTION_FAILED := "Can not connecting to Zealot"
  const TIMED_OUT := "Timed out to Zealot"
  const PLATFORM_ONLY := "The platform can only be ios or mac"
  /** The receiver of the `platform` verify block: `%('ios', 'mac')` is this one String. */
  const PLATFORM_LITERAL := "'ios', 'mac'"

  /** A device as fetched from the developer portal. */
  datatype Device = Device(udid: string, name: string, model: string)

  /** How `sync_deivce` ended for one device. */
  datatype SyncResult = Synced | ConnFailed | TimedOut | OtherError(exception: string)

  /** An entry of `failed_devices`. */
  datatype FailedDevice = FailedDevice(udid: string, error: string)

  /** What `run` reports at the end: the failed devices and the two counts. */
  datatype Summary = Summary(failedDevices: seq<FailedDevice>, successed: int, failed: int)

  /** The two rescued errors are recorded; success records nothing. */
  predicate Rescued(r: SyncResult) {
    r.ConnFailed? || r.TimedOut?
  }

  /** What the rescue clauses append for one device. */
  function Entry(d: Device, r: SyncResult): seq<FailedDevice> {
    match r
    case ConnFailed => [FailedDevice(d.udid, CONNECTION_FAILED)]
    case TimedOut => [FailedDevice(d.udid, TIMED_OUT)]
    case _ => []
  }

  /** `failed_devices` after the loop has gone through `ds`. */
  function FailedList(ds: seq<Device>, sync: Device -> SyncResult): seq<FailedDevice>
    decreases |ds|
  {
    if ds == [] then [] else FailedList(ds[..|ds| - 1], sync) + Entry(ds[|ds| - 1], sync(ds[|ds| - 1]))
  }

  /** The position of the first device whose sync raised something not rescued, or the
      length when there is none. */
  function FirstAbort(ds: seq<Device>, sync: Device -> SyncResult): (k: nat)
    ensures k <= |ds|
    ensures forall i :: 0 <= i < k ==> !sync(ds[i]).OtherError?
    ensures k < |ds| ==> sync(ds[k]).OtherError?
  {
    if ds == [] then 0
    else if sync(ds[0]).OtherError? then 0
    else 1 + FirstAbort(ds[1..], sync)
  }

  /** What `run` ends with: the first exception not rescued aborts it; otherwise the summary. */
  function SyncOutcome(ds: seq<Device>, sync: Device -> SyncResult): Outcome<Summary> {
    var k := FirstAbort(ds, sync);
    if k < |ds| then Raised(Crash(sync(ds[k]).exception))
    else
      var failedDevices := FailedList(ds, sync);
      Returned(Summary(failedDevices, |ds| - |failedDevices|, |failedDevices|))
  }

  /** The `devices.each` loop with its two rescue clauses, then the counts. `sync` stands for
      `sync_deivce`; `attempted` lists the devices it was called on, in order. */
  method SyncAll(devices: seq<Device>, sync: Device -> SyncResult)
    returns (attempted: seq<Device>, r: Outcome<Summary>)
    ensures var k := FirstAbort(devices, sync);
      attempted == devices[..if k < |devices| then k + 1 else k]
    ensures r == SyncOutcome(devices, sync)
  {
    var failedDevices: seq<FailedDevice> := [];
    attempted := [];
    var i := 0;
    while i < |devices|
      invariant 0 <= i <= |devices|
      invariant forall j :: 0 <= j < i ==> !sync(devices[j]).OtherError?
      invariant attempted == devices[..i]
      invariant failedDevices == FailedList(devices[..i], sync)
    {
      var device := devices[i];
      assert devices[..i + 1] == devices[..i] + [device];
      attempted := attempted + [device];
      var result := sync(device);
      FailedListStep(devices, sync, i);
      match result {
        case Synced =>
        case ConnFailed =>
          failedDevices := failedDevices + [FailedDevice(device.udid, CONNECTION_FAILED)];
        case TimedOut =>
          failedDevices := failedDevices + [FailedDevice(device.udid, TIMED_OUT)];
        case OtherError(e) =>
          AbortOutcome(devices, sync, i);
          return attempted, Raised(Crash(e));
      }
      i := i + 1;
    }
    assert devices[..i] == devices;
    CompleteOutcome(devices, sync);
    var failed := |failedDevices|;
    var successed := |devices| - failed;
    r := Returned(Summary(failedDevices, successed, failed));
  }

  /** The run stops at the first device whose sync raised something not rescued. */
  lemma AbortOutcome(ds: seq<Device>, sync: Device -> SyncResult, i: nat)
    requires i < |ds| && sync(ds[i]).OtherError?
    requires forall j :: 0 <= j < i ==> !sync(ds[j]).OtherError?
    ensures FirstAbort(ds, sync) == i
    ensures SyncOutcome(ds, sync) == Raised(Crash(sync(ds[i]).exception))
  {
  }

  /** Without such a device every device is attempted and the summary is reported. */
  lemma CompleteOutcome(ds: seq<Device>, sync: Device -> SyncResult)
    requires forall j :: 0 <= j < |ds| ==> !sync(ds[j]).OtherError?
    ensures FirstAbort(ds, sync) == |ds|
    ensures SyncOutcome(ds, sync) ==
      Returned(Summary(FailedList(ds, sync), |ds| - |FailedList(ds, sync)|, |FailedList(ds, sync)|))
  {
  }

  lemma FailedListStep(ds: seq<Device>, sync: Device -> SyncResult, i: nat)
    requires i < |ds|
    ensures FailedList(ds[..i + 1], sync) == FailedList(ds[..i], sync) + Entry(ds[i], sync(ds[i]))
  {
    assert ds[..i + 1][..i] == ds[..i];
  }

  /** The failures of a run split along any split of the device list: entries appear in
      device order. */
  lemma {:induction false} FailedListAppend(a: seq<Device>, b: seq<Device>, sync: Device -> SyncResult)
    ensures FailedList(a + b, sync) == FailedList(a, sync) + FailedList(b, sync)
    decreases |b|
  {
    if b == [] {
      assert a + b == a;
    } else {
      var b' := b[..|b| - 1];
      var last := b[|b| - 1];
      assert (a + b)[..|a + b| - 1] == a + b';
      assert (a + b)[|a + b| - 1] == last;
      FailedListAppend(a, b', sync);
    }
  }

  /** The set of positions whose sync raised one of the two rescued errors. */
  ghost function FailedPositions(ds: seq<Device>, sync: Device -> SyncResult): set<nat> {
    set i: nat | i < |ds| && Rescued(sync(ds[i]))
  }

  /** Extending the device list by one adds that position exactly when it failed. */
  lemma FailedPositionsStep(ds: seq<Device>, sync: Device -> SyncResult)
    requires ds != []
    ensures var n := |ds| - 1;
      FailedPositions(ds, sync) ==
        FailedPositions(ds[..n], sync) + (if Rescued(sync(ds[n])) then {n} else {})
  {
    var n := |ds| - 1;
    forall i: nat
      ensures i in FailedPositions(ds, sync) <==>
        i in FailedPositions(ds[..n], sync) + (if Rescued(sync(ds[n])) then {n} else {})
    {
      if i < n {
        assert ds[..n][i] == ds[i];
      }
    }
  }

  /** One entry per rescued failure, never more than there are devices. */
  lemma {:induction false} FailedListCount(ds: seq<Device>, sync: Device -> SyncResult)
    ensures |FailedList(ds, sync)| == |FailedPositions(ds, sync)|
    ensures |FailedList(ds, sync)| <= |ds|
    decreases |ds|
  {
    if ds != [] {
      var n := |ds| - 1;
      FailedListCount(ds[..n], sync);
      FailedPositionsStep(ds, sync);
      assert n !in FailedPositions(ds[..n], sync);
    }
  }

  /** Every entry names a device whose sync raised a rescued error, with that error's
      message. */
  lemma {:induction false} FailedListEntries(ds: seq<Device>, sync: Device -> SyncResult, j: nat)
    requires j < |FailedList(ds, sync)|
    ensures exists i :: 0 <= i < |ds| && Rescued(sync(ds[i])) && [FailedList(ds, sync)[j]] == Entry(ds[i], sync(ds[i]))
    decreases |ds|
  {
    var n := |ds| - 1;
    var init := ds[..n];
    if j < |FailedList(init, sync)| {
      FailedListEntries(init, sync, j);
      var i :| 0 <= i < |init| && Rescued(sync(init[i])) && [FailedList(init, sync)[j]] == Entry(init[i], sync(init[i]));
      assert init[i] == ds[i];
    } else {
      assert Rescued(sync(ds[n]));
    }
  }

  /** The two counts always add up to the number of devices, and the failures are bounded
      by it. */
  lemma SummaryCounts(ds: seq<Device>, sync: Device -> SyncResult)
    requires SyncOutcome(ds, sync).Returned?
    ensures var s := SyncOutcome(ds, sync).value;
      && s.failed == |s.failedDevices|
      && s.successed + s.failed == |ds|
      && 0 <= s.failed <= |ds|
  {
    FailedListCount(ds, sync);
  }

  /** Three devices where only the second cannot connect: all three are attempted, and the
      one failure is the second device's. */
  lemma ThreeDevicesOneRefused(d1: Device, d2: Device, d3: Device, sync: Device -> SyncResult)
    requires sync(d1) == Synced && sync(d2) == ConnFailed && sync(d3) == Synced
    ensures SyncOutcome([d1, d2, d3], sync) == Returned(Summary([FailedDevice(d2.udid, CONNECTION_FAILED)], 2, 1))
    ensures FirstAbort([d1, d2, d3], sync) == 3
  {
    assert [d1, d2, d3][..2] == [d1, d2];
    assert [d1, d2][..1] == [d1];
    assert [d1][..0] == [];
    assert FailedList([d1], sync) == [];
    assert FailedList([d1, d2], sync) == [FailedDevice(d2.udid, CONNECTION_FAILED)];
    assert FailedList([d1, d2, d3], sync) == [FailedDevice(d2.udid, CONNECTION_FAILED)];
  }

  /** The devices are fetched by platform filter: the App Store Connect API filter is 'IOS'
      exactly for the String 'ios', and 'MAC_OS' for anything else. */
  function ApiFilter(platform: Value): string {
    if platform == Str("ios") then "IOS" else "MAC_OS"
  }

  /** The legacy portal listing asks for macOS devices exactly for the String 'mac'. */
  function LegacyMacFlag(platform: Value): bool {
    platform == Str("mac")
  }

  /** `Set[params[:platform]].select { |p| is_supported?(p.to_sym) }`: `is_supported?` holds
      for every platform, so a String or Symbol comes back alone; others have no `to_sym`. */
  function SupportedPlatforms(platform: Value): (r: Outcome<set<Value>>)
    ensures platform.Str? || platform.Sym? <==> r == Returned({platform})
  {
    if platform.Str? || platform.Sym? then Returned({platform}) else Raised(Crash("NoMethodError"))
  }

  /** The devices `run` fetches: the one platform in `Set[params[:platform]]` is turned
      into a symbol, then listed through the App Store Connect API when an API token could
      be made (`apiToken`), otherwise through the legacy portal. `viaApi` and `viaPortal`
      stand for the two `Device.all` calls. The API filter is 'IOS' exactly for the String
      'ios' and 'MAC_OS' otherwise; the portal's mac flag holds exactly for the String 'mac'. */
  function Devices(platform: Value, apiToken: bool, viaApi: string -> seq<Device>,
                   viaPortal: bool -> seq<Device>): (r: Outcome<seq<Device>>)
    ensures r.Returned? <==> platform.Str? || platform.Sym?
    ensures r.Returned? && apiToken ==> r.value == viaApi(if platform == Str("ios") then "IOS" else "MAC_OS")
    ensures r.Returned? && !apiToken ==> r.value == viaPortal(platform == Str("mac"))
  {
    var supported :- SupportedPlatforms(platform);
    assert supported == {platform};
    if apiToken then Returned(viaApi(ApiFilter(platform))) else Returned(viaPortal(LegacyMacFlag(platform)))
  }

  /** `run` from the device listing on: a platform without `to_sym` raises before any device
      is fetched; otherwise every fetched device is synced as `SyncAll` describes. */
  method Run(platform: Value, apiToken: bool, viaApi: string -> seq<Device>,
             viaPortal: bool -> seq<Device>, sync: Device -> SyncResult)
    returns (attempted: seq<Device>, r: Outcome<Summary>)
    ensures Devices(platform, apiToken, viaApi, viaPortal).Raised? ==>
      attempted == [] && r == Raised(Devices(platform, apiToken, viaApi, viaPortal).failure)
    ensures Devices(platform, apiToken, viaApi, viaPortal).Returned? ==>
      var ds := Devices(platform, apiToken, viaApi, viaPortal).value;
      var k := FirstAbort(ds, sync);
      attempted == ds[..if k < |ds| then k + 1 else k] && r == SyncOutcome(ds, sync)
  {
    var devices := Devices(platform, apiToken, viaApi, viaPortal);
    if devices.Raised? {
      return [], Raised(devices.failure);
    }
    attempted, r := SyncAll(devices.value, sync);
  }

  /** The `platform` option's verify block, as written: a substring test on one String. */
  function VerifyPlatform(value: Value): Outcome<()> {
    if !value.Str? then Raised(Crash("TypeError"))
    else if IsSubstring(value.s, PLATFORM_LITERAL) then Returned(())
    else Raised(UserError(Text(PLATFORM_ONLY)))
  }

  /** The check its message describes: the value is one of 'ios' and 'mac'. */
  function VerifyPlatformIntended(value: Value): Outcome<()> {
    if value == Str("ios") || value == Str("mac") then Returned(()) else Raised(UserError(Text(PLATFORM_ONLY)))
  }

  /** A piece of the literal at a known position passes the check as written. */
  lemma AcceptedAt(s: string, i: nat)
    requires OccursAt(s, PLATFORM_LITERAL, i)
    ensures VerifyPlatform(Str(s)).Returned?
  {
    IsSubstringIffOccurs(s, PLATFORM_LITERAL);
  }

  /** As written, the verify block accepts any piece of its literal: 'os', '' and "'" pass. */
  lemma VerifyPlatformAcceptsFragments()
    ensures VerifyPlatform(Str("os")).Returned?
    ensures VerifyPlatform(Str("")).Returned?
    ensures VerifyPlatform(Str("'")).Returned?
    ensures VerifyPlatform(Str("ios")).Returned? && VerifyPlatform(Str("mac")).Returned?
    ensures VerifyPlatform(Str("tvos")).Raised?
  {
    assert PLATFORM_LITERAL[2..4] == "os";
    AcceptedAt("os", 2);
    assert PLATFORM_LITERAL[0..0] == "";
    AcceptedAt("", 0);
    assert PLATFORM_LITERAL[0..1] == "'";
    AcceptedAt("'", 0);
    assert PLATFORM_LITERAL[1..4] == "ios";
    AcceptedAt("ios", 1);
    assert PLATFORM_LITERAL[8..11] == "mac";
    AcceptedAt("mac", 8);
    FirstCharAbsent("tvos", PLATFORM_LITERAL);
  }

  /** A needle whose first character is missing from the haystack is not in it. */
  lemma {:induction false} FirstCharAbsent(needle: string, haystack: string)
    requires |needle| > 0 && needle[0] !in haystack
    ensures !IsSubstring(needle, haystack)
    decreases |haystack|
  {
    if |haystack| > 0 {
      assert haystack[0] in haystack;
      assert forall c :: c in haystack[1..] ==> c in haystack;
      FirstCharAbsent(needle, haystack[1..]);
    }
  }

  /** The intended check accepts exactly the two platforms, and accepts nothing the check as
      written refuses. */
  lemma VerifyPlatformIntendedSpec(value: Value)
    ensures VerifyPlatformIntended(value).Returned? <==> value in {Str("ios"), Str("mac")}
    ensures VerifyPlatformIntended(value).Returned? ==> VerifyPlatform(value).Returned?
    ensures VerifyPlatformIntended(Str("os")).Raised? && VerifyPlatformIntended(Str("")).Raised?
  {
    if value == Str("ios") || value == Str("mac") {
      VerifyPlatformAcceptsFragments();
    }
  }
}

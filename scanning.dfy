/** The scan lifecycle of the activity: `start` with its two checks, `startScan`,
    `onDestroy`, and the scan callback's single and batch entry points. The Bluetooth
    adapter and the permission system are inputs (an enabled flag and one grant per
    required permission); the scanner is a `registered` flag plus a record of the calls
    made to it. */
module Scanning {
  import opened Wrappers
  import opened BatteryDecoder
  import opened AdvertisementFilter

  /** The permissions `checkPermissions` asks for, in its order. */
  datatype Permission = BluetoothConnect | BluetoothScan | AccessCoarseLocation | AccessFineLocation

  const RequiredPermissions: seq<Permission> :=
    [BluetoothConnect, BluetoothScan, AccessCoarseLocation, AccessFineLocation]

  /** One "NAME: OK" or "NAME: FAIL" line of `checkPermissions`. */
  datatype PermissionStatus = PermissionStatus(permission: Permission, granted: bool)

  /** A call the activity makes on the `BluetoothLeScanner` with its one callback object. */
  datatype ScannerCall = StopScan | StartScan(filters: seq<ScanFilter>)

  /** The callback type `onBatchScanResults` passes on for every result of a batch. */
  const BatchCallbackType: int := -1

  /** A result that reached `decodeManufacturerData`, with the callback type it came with
      and what the decoder made of it. */
  datatype Delivery = Delivery(callbackType: int, result: ScanResult, outcome: Result<BatteryReport, DecodeError>)

  /** Active registrations of the callback after the scanner has received `calls`:
      `stopScan` drops the registration, each `startScan` adds one. */
  function Registrations(calls: seq<ScannerCall>): nat {
    if calls == [] then 0
    else if calls[|calls| - 1].StopScan? then 0
    else Registrations(calls[..|calls| - 1]) + 1
  }

  /** Every `startScan` comes straight after a `stopScan`. */
  ghost predicate StartsAfterStop(calls: seq<ScannerCall>) {
    forall i :: 0 <= i < |calls| && calls[i].StartScan? ==> 0 < i && calls[i - 1].StopScan?
  }

  lemma StartsAfterStopPrefix(calls: seq<ScannerCall>, n: nat)
    requires StartsAfterStop(calls) && n <= |calls|
    ensures StartsAfterStop(calls[..n])
  {
  }

  /** A call sequence in which every start follows a stop never holds two registrations,
      and holds one exactly when its last call is a start. */
  lemma AtMostOneRegistration(calls: seq<ScannerCall>)
    requires StartsAfterStop(calls)
    ensures Registrations(calls) <= 1
    ensures Registrations(calls) == 1 <==> |calls| > 0 && calls[|calls| - 1].StartScan?
  {
  }

  /** Whether the activity's checks let it start scanning. */
  function AllGranted(grants: seq<bool>): bool {
    forall i :: 0 <= i < |grants| ==> grants[i]
  }

  class MainActivity {
    /** `bluetoothAdapter().isEnabled` */
    var enabled: bool
    /** `checkSelfPermission(RequiredPermissions[i]) == PERMISSION_GRANTED` */
    var grants: seq<bool>
    /** Whether the scanner holds a registration of `scanCallback`. */
    var registered: bool

    /** The calls made to the scanner so far. */
    ghost var scannerCalls: seq<ScannerCall>
    /** The results handed to the decoder so far, in order. */
    ghost var deliveries: seq<Delivery>

    ghost predicate Valid()
      reads this
    {
      && |grants| == |RequiredPermissions|
      && StartsAfterStop(scannerCalls)
      && registered == (Registrations(scannerCalls) > 0)
    }

    /** Bluetooth enabled and every required permission granted. */
    predicate Ready()
      reads this
    {
      enabled && AllGranted(grants)
    }

    constructor (enabled: bool, grants: seq<bool>)
      requires |grants| == |RequiredPermissions|
      ensures Valid()
      ensures this.enabled == enabled && this.grants == grants
      ensures !registered && scannerCalls == [] && deliveries == []
    {
      this.enabled := enabled;
      this.grants := grants;
      registered := false;
      scannerCalls := [];
      deliveries := [];
    }

    /** `bluetoothScanner().stopScan(scanCallback)`, issued by `start` and `onDestroy`. */
    method StopScan()
      requires Valid()
      modifies this`registered, this`scannerCalls
      ensures Valid()
      ensures !registered
      ensures scannerCalls == old(scannerCalls) + [ScannerCall.StopScan]
    {
      registered := false;
      scannerCalls := scannerCalls + [ScannerCall.StopScan];
    }

    /** `checkBluetoothEnabled` */
    method CheckBluetoothEnabled() returns (ok: bool)
      ensures ok <==> enabled
    {
      ok := enabled;
    }

    /** `checkPermissions`: every required permission is looked at, in order, whatever
        the earlier ones gave; the verdict is whether all of them are granted. */
    method CheckPermissions() returns (allPermissionsOk: bool, statuses: seq<PermissionStatus>)
      requires Valid()
      ensures |statuses| == |RequiredPermissions|
      ensures forall i :: 0 <= i < |statuses| ==>
                statuses[i] == PermissionStatus(RequiredPermissions[i], grants[i])
      ensures allPermissionsOk <==> AllGranted(grants)
    {
      allPermissionsOk := true;
      statuses := [];
      for i := 0 to |RequiredPermissions|
        invariant |statuses| == i
        invariant forall j :: 0 <= j < i ==> statuses[j] == PermissionStatus(RequiredPermissions[j], grants[j])
        invariant allPermissionsOk <==> forall j :: 0 <= j < i ==> grants[j]
      {
        var granted := grants[i];
        if !granted {
          allPermissionsOk := false;
        }
        statuses := statuses + [PermissionStatus(RequiredPermissions[i], granted)];
      }
    }

    /** `startScan`: registers the callback with the beacon filter. Its one caller,
        `start`, has just stopped the scanner. */
    method StartScan()
      requires Valid()
      requires |scannerCalls| > 0 && scannerCalls[|scannerCalls| - 1].StopScan?
      modifies this`registered, this`scannerCalls
      ensures Valid()
      ensures registered
      ensures |scannerCalls| == |old(scannerCalls)| + 1 && scannerCalls[..|old(scannerCalls)|] == old(scannerCalls)
      ensures scannerCalls[|scannerCalls| - 1].StartScan?
      ensures IsBeaconFilterList(scannerCalls[|scannerCalls| - 1].filters)
    {
      var filters := ScanFilters();
      ghost var before := scannerCalls;
      scannerCalls := scannerCalls + [ScannerCall.StartScan(filters)];
      assert scannerCalls[..|before|] == before;
      StartsAfterStopPrefix(scannerCalls, |before|);
      registered := true;
    }

    /** `start`: always stops the scanner first; starts it again exactly when Bluetooth
        is enabled and every permission is granted. Afterwards the callback holds one
        registration if it was started and none otherwise. */
    method Start()
      requires Valid()
      modifies this`registered, this`scannerCalls
      ensures Valid()
      ensures registered <==> Ready()
      ensures Registrations(scannerCalls) == (if Ready() then 1 else 0)
      ensures |scannerCalls| == |old(scannerCalls)| + (if Ready() then 2 else 1)
      ensures scannerCalls[..|old(scannerCalls)|] == old(scannerCalls)
      ensures scannerCalls[|old(scannerCalls)|] == ScannerCall.StopScan
      ensures Ready() ==> scannerCalls[|scannerCalls| - 1].StartScan?
                          && IsBeaconFilterList(scannerCalls[|scannerCalls| - 1].filters)
    {
      StopScan();
      var bluetoothOk := CheckBluetoothEnabled();
      if !bluetoothOk {
        return;
      }
      var permissionsOk, _ := CheckPermissions();
      if !permissionsOk {
        return;
      }
      ghost var stopped := scannerCalls;
      StartScan();
      assert scannerCalls[..|stopped|] == stopped;
      AtMostOneRegistration(scannerCalls);
    }

    /** `onDestroy`: the registration is always dropped. */
    method OnDestroy()
      requires Valid()
      modifies this`registered, this`scannerCalls
      ensures Valid()
      ensures !registered && Registrations(scannerCalls) == 0
      ensures scannerCalls == old(scannerCalls) + [ScannerCall.StopScan]
    {
      StopScan();
    }

    /** `onScanResult`: a null result is dropped; any other result goes to the decoder. */
    method OnScanResult(callbackType: int, result: Option<ScanResult>)
      modifies this`deliveries
      ensures deliveries == old(deliveries) +
                (if result.None? then [] else [Delivery(callbackType, result.value, Decode(result.value))])
    {
      if result.None? {
        return;
      }
      var outcome := DecodeManufacturerData(result.value);
      deliveries := deliveries + [Delivery(callbackType, result.value, outcome)];
    }

    /** `onBatchScanResults`: a null batch is dropped; otherwise each result, in list
        order, goes through `onScanResult` with callback type -1. */
    method OnBatchScanResults(results: Option<seq<ScanResult>>)
      modifies this`deliveries
      ensures results.None? ==> deliveries == old(deliveries)
      ensures results.Some? ==>
                && |deliveries| == |old(deliveries)| + |results.value|
                && deliveries[..|old(deliveries)|] == old(deliveries)
                && forall i :: 0 <= i < |results.value| ==>
                     deliveries[|old(deliveries)| + i] ==
                       Delivery(BatchCallbackType, results.value[i], Decode(results.value[i]))
    {
      if results.None? {
        return;
      }
      var batch := results.value;
      for i := 0 to |batch|
        invariant |deliveries| == |old(deliveries)| + i
        invariant deliveries[..|old(deliveries)|] == old(deliveries)
        invariant forall j :: 0 <= j < i ==>
                    deliveries[|old(deliveries)| + j] == Delivery(BatchCallbackType, batch[j], Decode(batch[j]))
      {
        OnScanResult(BatchCallbackType, Some(batch[i]));
      }
    }
  }

  /** Two consecutive starts with everything in place: two stops, two starts, and a
      single registration at the end. */
  method StartTwice()
  {
    var activity := new MainActivity(true, [true, true, true, true]);
    activity.Start();
    activity.Start();
    assert activity.scannerCalls[0] == ScannerCall.StopScan && activity.scannerCalls[1].StartScan?;
    assert activity.scannerCalls[2] == ScannerCall.StopScan && activity.scannerCalls[3].StartScan?;
    assert |activity.scannerCalls| == 4;
    assert activity.registered && Registrations(activity.scannerCalls) == 1;
  }
}

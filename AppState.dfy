/** The scan controller of App.tsx: five pieces of component state that the
    start handler, the progress and completion callbacks of `startScan` and
    the selection handler overwrite, the per-risk tally shown in the overview,
    and the choice of status panel. */
module AppState {
  import opened Types
  import opened Assessment
  import opened ScanSimulation
  import opened DevicePool

  /** The three mutually exclusive status panels (App.tsx:58, 66, 91). */
  datatype Panel = NoDevicesFound | Overview | ReadyToScan

  /** The panels whose conditions hold for the given state. */
  function Panels(scanCompleted: bool, isScanning: bool, found: nat): set<Panel>
  {
    (if scanCompleted && found == 0 then {NoDevicesFound} else {})
    + (if scanCompleted && found > 0 then {Overview} else {})
    + (if !scanCompleted && !isScanning then {ReadyToScan} else {})
  }

  /** At most one status panel is shown, and none exactly while a scan runs
      that has not completed. */
  lemma AtMostOnePanel(scanCompleted: bool, isScanning: bool, found: nat)
    ensures |Panels(scanCompleted, isScanning, found)| <= 1
    ensures Panels(scanCompleted, isScanning, found) == {} <==> !scanCompleted && isScanning
  {
    var p := Panels(scanCompleted, isScanning, found);
    if scanCompleted && found == 0 {
      assert p == {NoDevicesFound};
    } else if scanCompleted {
      assert p == {Overview};
    } else if !isScanning {
      assert p == {ReadyToScan};
    } else {
      assert p == {};
    }
  }

  /** The number of devices whose risk is `s`. */
  function Count(devices: seq<Device>, s: Severity): nat
  {
    if devices == [] then 0
    else Count(devices[..|devices| - 1], s) + (if devices[|devices| - 1].risk == s then 1 else 0)
  }

  /** `acc[s] || 0`: an absent key reads as zero. */
  function Tally(acc: map<Severity, nat>, s: Severity): nat
  {
    if s in acc then acc[s] else 0
  }

  /** The `reduce` of App.tsx:42-45 over a `Record<Severity, number>`
      accumulator that starts empty and gains a key on the first device of
      that risk. */
  method RiskCounts(devices: seq<Device>) returns (acc: map<Severity, nat>)
    ensures forall s :: Tally(acc, s) == Count(devices, s)
    ensures forall s :: s in acc <==> Count(devices, s) > 0
  {
    acc := map[];
    for i := 0 to |devices|
      invariant forall s :: Tally(acc, s) == Count(devices[..i], s)
      invariant forall s :: s in acc <==> Count(devices[..i], s) > 0
    {
      var risk := devices[i].risk;
      acc := acc[risk := Tally(acc, risk) + 1];
      assert devices[..i + 1][..i] == devices[..i];
    }
    assert devices[..|devices|] == devices;
  }

  /** The three tallies add up to the number of devices. */
  lemma {:induction false} CountsSum(devices: seq<Device>)
    ensures Count(devices, High) + Count(devices, Medium) + Count(devices, Low) == |devices|
  {
    if devices != [] {
      CountsSum(devices[..|devices| - 1]);
    }
  }

  class App {
    var isScanning: bool
    var scanProgress: int
    var devices: seq<Device>
    var selectedDevice: Option<Device>
    var scanCompleted: bool

    /** The status panels the component renders. */
    function VisiblePanels(): set<Panel>
      reads this
    {
      Panels(scanCompleted, isScanning, |devices|)
    }

    /** The initial `useState` values (App.tsx:13-17): only the
        ready-to-scan panel shows. */
    constructor ()
      ensures !isScanning && scanProgress == 0 && devices == []
      ensures selectedDevice == None && !scanCompleted
      ensures VisiblePanels() == {ReadyToScan}
    {
      isScanning := false;
      scanProgress := 0;
      devices := [];
      selectedDevice := None;
      scanCompleted := false;
    }

    /** The synchronous part of `handleStartScan` (App.tsx:20-24); no status
        panel shows while the scan runs. */
    method StartScan()
      modifies this
      ensures isScanning && !scanCompleted && devices == []
      ensures selectedDevice == None && scanProgress == 0
      ensures VisiblePanels() == {}
    {
      isScanning := true;
      scanCompleted := false;
      devices := [];
      selectedDevice := None;
      scanProgress := 0;
      AtMostOnePanel(scanCompleted, isScanning, |devices|);
    }

    /** The progress callback (App.tsx:26-30): records the progress and
        appends the new devices after the existing ones. */
    method OnProgress(progress: int, newDevices: Option<seq<Device>>)
      modifies this`scanProgress, this`devices
      ensures scanProgress == progress
      ensures devices == old(devices) + Listed(newDevices)
      ensures old(devices) <= devices
    {
      scanProgress := progress;
      if newDevices.Some? {
        devices := devices + newDevices.value;
      }
    }

    /** The completion callback (App.tsx:31-35): the resolved list replaces
        the devices and the scan is marked complete. */
    method Complete(finalDevices: seq<Device>)
      modifies this`devices, this`isScanning, this`scanCompleted
      ensures devices == finalDevices && !isScanning && scanCompleted
      ensures VisiblePanels() == (if finalDevices == [] then {NoDevicesFound} else {Overview})
    {
      devices := finalDevices;
      isScanning := false;
      scanCompleted := true;
    }

    /** `handleSelectDevice` (App.tsx:38-40). */
    method SelectDevice(device: Device)
      modifies this`selectedDevice
      ensures selectedDevice == Some(device)
    {
      selectedDevice := Some(device);
    }
  }

  /** One tick of the scan, delivered to the progress callback and, when
      the interval is cleared, to the completion callback. */
  method SessionTick(app: App, sc: Scanner, discover: bool, draws: Draws, flushDraw: nat -> Draws)
    requires sc.Valid() && !sc.finished
    requires app.devices == sc.found && app.isScanning && !app.scanCompleted
    modifies app, sc
    ensures sc.Valid() && sc.selected == old(sc.selected)
    ensures sc.progress == old(sc.progress) + Increment
    ensures app.devices == sc.found && app.scanProgress == sc.progress
    ensures app.selectedDevice == old(app.selectedDevice)
    ensures app.isScanning == !sc.finished && app.scanCompleted == sc.finished
  {
    var reported, newDevices, resolved := ObserveTick(sc, discover, draws, flushDraw);
    app.OnProgress(reported, newDevices);
    if resolved.Some? {
      app.Complete(resolved.value);
    }
  }

  /** A whole session: the start handler, then every tick of a fresh scan
      feeding the progress callback, and the completion callback when the
      interval is cleared. Until then the shown devices are exactly those
      found so far; at the end the app shows the resolved list (2 to 5
      devices, sorted by address), progress 100 and the overview panel. */
  method RunSession(app: App, shuffled: seq<PoolEntry>, count: nat,
                    discover: nat -> bool, draws: nat -> Draws, flushDraw: nat -> Draws)
    requires multiset(shuffled) == multiset(Pool)
    requires 2 <= count <= 5
    modifies app
    ensures app.scanCompleted && !app.isScanning && app.scanProgress == 100
    ensures |app.devices| == count && SortedByIp(app.devices)
    ensures multiset(Entries(app.devices)) == multiset(shuffled[..count])
    ensures app.selectedDevice == None
    ensures app.VisiblePanels() == {Overview}
  {
    app.StartScan();
    var sc := new Scanner(shuffled, count);
    var ticks := 0;
    while !sc.finished
      invariant sc.Valid() && sc.selected == shuffled[..count]
      invariant app.devices == sc.found && app.scanProgress == sc.progress && app.selectedDevice == None
      invariant app.isScanning == !sc.finished && app.scanCompleted == sc.finished
      decreases 100 - sc.progress
    {
      SessionTick(app, sc, discover(ticks), draws(ticks), flushDraw);
      ticks := ticks + 1;
    }
    FinishedFound(sc.State(), sc.selected);
    assert |shuffled[..count]| == count;
  }
}

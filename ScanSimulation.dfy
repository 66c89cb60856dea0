/** `startScan` of services/scannerService.ts as a tick-driven state machine.
    The interval timer becomes one `Tick` call per 250 ms period, the shuffle
    of the device pool becomes an arbitrary permutation supplied by the
    caller, and every `Math.random()` draw becomes an explicit input. */
module ScanSimulation {
  import opened Types
  import opened Strings
  import opened Assessment
  import opened DevicePool

  const TotalDuration := 5000
  const IntervalTime := 250
  /** Number of timer periods in a scan, `totalDuration / intervalTime`. */
  const Steps := 20
  /** Progress added per period, `100 / steps`. */
  const Increment := 5

  /** The two derived constants are the source's quotients, and they are
      exact, so progress is always a whole number and reaches 100 exactly. */
  lemma StepsDerived()
    ensures Steps == TotalDuration / IntervalTime && TotalDuration % IntervalTime == 0
    ensures Increment == 100 / Steps && 100 % Steps == 0
    ensures Increment * Steps == 100
  {
  }

  /** Devices whose pool entries are drawn from the pool were each built
      from a pool entry. */
  lemma FromPool(ds: seq<Device>, chosen: seq<PoolEntry>, pool: seq<PoolEntry>)
    requires multiset(Entries(ds)) == multiset(chosen) && multiset(chosen) <= multiset(pool)
    ensures forall k :: 0 <= k < |ds| ==> EntryOf(ds[k]) in pool
  {
    forall k | 0 <= k < |ds| ensures EntryOf(ds[k]) in pool {
      EntriesAt(ds, k);
      assert EntryOf(ds[k]) in multiset(Entries(ds));
    }
  }

  /** The pool entry a device was built from. */
  function EntryOf(dev: Device): PoolEntry
  {
    PoolEntry(dev.ip, dev.mac, dev.vendor, dev.deviceType)
  }

  /** The device object built for a discovered pool entry: the entry's fields,
      the MAC address as id, and the assessed risk, findings and ports. */
  function Discovered(e: PoolEntry, p: Profile): (dev: Device)
    ensures dev.id == dev.mac == e.mac
    ensures EntryOf(dev) == e
    ensures dev.risk == p.risk && dev.openPorts == p.openPorts && dev.vulnerabilities == p.vulnerabilities
  {
    Device(e.mac, e.ip, e.mac, e.vendor, e.deviceType, p.risk, p.openPorts, p.vulnerabilities)
  }

  /** The pool entries of a list of devices, position by position. */
  function Entries(ds: seq<Device>): (r: seq<PoolEntry>)
    ensures |r| == |ds|
  {
    if ds == [] then [] else [EntryOf(ds[0])] + Entries(ds[1..])
  }

  lemma {:induction false} EntriesAt(ds: seq<Device>, i: nat)
    requires i < |ds|
    ensures Entries(ds)[i] == EntryOf(ds[i])
  {
    if i > 0 {
      EntriesAt(ds[1..], i - 1);
    }
  }

  lemma {:induction false} EntriesConcat(a: seq<Device>, b: seq<Device>)
    ensures Entries(a + b) == Entries(a) + Entries(b)
  {
    assert |Entries(a + b)| == |Entries(a) + Entries(b)|;
    forall k | 0 <= k < |a + b|
      ensures Entries(a + b)[k] == (Entries(a) + Entries(b))[k]
    {
      EntriesAt(a + b, k);
      if k < |a| {
        EntriesAt(a, k);
      } else {
        EntriesAt(b, k - |a|);
      }
    }
  }

  /** Every device's id is its MAC address. */
  predicate IdsAreMacs(ds: seq<Device>)
  {
    forall i :: 0 <= i < |ds| ==> ds[i].id == ds[i].mac
  }

  /** The device's risk, findings and ports are what `assignVulnerabilities`
      returns for its type under some draws. */
  ghost predicate Assessed(dev: Device)
  {
    exists d: Draws :: Assess(dev.deviceType, d) == Profile(dev.vulnerabilities, dev.risk, dev.openPorts)
  }

  /** Every device of the list was assessed. */
  ghost predicate AllAssessed(ds: seq<Device>)
  {
    forall i :: 0 <= i < |ds| ==> Assessed(ds[i])
  }

  /** What every assessed device has: ports 80 and 443 open, an ascending
      port list of known ports, at least one finding, and the counter risk. */
  lemma AssessedFacts(dev: Device)
    requires Assessed(dev)
    ensures 80 in dev.openPorts && 443 in dev.openPorts && StrictlyAscending(dev.openPorts)
    ensures forall q :: q in dev.openPorts ==> q in {21, 22, 23, 80, 443}
    ensures |dev.vulnerabilities| >= 1
    ensures dev.risk == High <==> DefaultCredentials in dev.vulnerabilities || UnsecuredTelnet in dev.vulnerabilities
  {
    var d :| Assess(dev.deviceType, d) == Profile(dev.vulnerabilities, dev.risk, dev.openPorts);
    PortListInvariant(dev.deviceType, d);
    FindingsNeverEmpty(dev.deviceType, d);
    RiskRule(dev.deviceType, d);
  }

  /** Ascending by address; `localeCompare` is taken as plain character order. */
  predicate SortedByIp(ds: seq<Device>)
  {
    forall i, j :: 0 <= i < j < |ds| ==> StrLe(ds[i].ip, ds[j].ip)
  }

  /** Places `d` before the first device whose address it does not follow. */
  function InsertByIp(d: Device, ds: seq<Device>): seq<Device>
  {
    if ds == [] then [d]
    else if StrLe(d.ip, ds[0].ip) then [d] + ds
    else [ds[0]] + InsertByIp(d, ds[1..])
  }

  /** `foundDevices.sort((a, b) => a.ip.localeCompare(b.ip))`, as an insertion sort. */
  function SortByIp(ds: seq<Device>): seq<Device>
  {
    if ds == [] then [] else InsertByIp(ds[0], SortByIp(ds[1..]))
  }

  /** An element no later than every element of a sorted list can lead it. */
  lemma LeadsSorted(d: Device, ds: seq<Device>)
    requires SortedByIp(ds)
    requires ds != [] ==> StrLe(d.ip, ds[0].ip)
    requires forall k :: 0 <= k < |ds| ==> StrLe(d.ip, ds[k].ip) || StrLe(ds[0].ip, ds[k].ip)
    ensures SortedByIp([d] + ds)
  {
    forall k | 0 <= k < |ds| ensures StrLe(d.ip, ds[k].ip) {
      if !StrLe(d.ip, ds[k].ip) {
        StrLeTransitive(d.ip, ds[0].ip, ds[k].ip);
      }
    }
    assert forall k :: 0 < k <= |ds| ==> ([d] + ds)[k] == ds[k - 1];
  }

  /** Inserting into a list sorted by address keeps it sorted and adds `d`. */
  lemma {:induction false} InsertByIpSpec(d: Device, ds: seq<Device>)
    requires SortedByIp(ds)
    ensures SortedByIp(InsertByIp(d, ds))
    ensures multiset(InsertByIp(d, ds)) == multiset(ds) + multiset{d}
  {
    if ds == [] {
    } else if StrLe(d.ip, ds[0].ip) {
      LeadsSorted(d, ds);
    } else {
      var rest := InsertByIp(d, ds[1..]);
      assert ds == [ds[0]] + ds[1..];
      InsertByIpSpec(d, ds[1..]);
      StrLeTotal(d.ip, ds[0].ip);
      forall k | 0 <= k < |rest| ensures StrLe(ds[0].ip, rest[k].ip) {
        assert rest[k] in multiset(rest);
        if rest[k] != d {
          assert rest[k] in multiset(ds[1..]);
          var m :| 0 <= m < |ds[1..]| && ds[1..][m] == rest[k];
          assert ds[m + 1] == rest[k];
        }
      }
      LeadsSorted(ds[0], rest);
      assert InsertByIp(d, ds) == [ds[0]] + rest;
    }
  }

  /** Sorting yields the same devices, ascending by address. */
  lemma {:induction false} SortByIpSpec(ds: seq<Device>)
    ensures SortedByIp(SortByIp(ds))
    ensures multiset(SortByIp(ds)) == multiset(ds)
  {
    if ds != [] {
      SortByIpSpec(ds[1..]);
      InsertByIpSpec(ds[0], SortByIp(ds[1..]));
      assert ds == [ds[0]] + ds[1..];
    }
  }

  /** Inserting a device adds its pool entry. */
  lemma {:induction false} InsertEntries(d: Device, ds: seq<Device>)
    ensures multiset(Entries(InsertByIp(d, ds))) == multiset(Entries(ds)) + multiset{EntryOf(d)}
  {
    if ds == [] {
    } else if StrLe(d.ip, ds[0].ip) {
      assert ([d] + ds)[1..] == ds;
    } else {
      var rest := InsertByIp(d, ds[1..]);
      InsertEntries(d, ds[1..]);
      assert ([ds[0]] + rest)[1..] == rest;
    }
  }

  /** Sorting keeps the pool entries. */
  lemma {:induction false} SortEntries(ds: seq<Device>)
    ensures multiset(Entries(SortByIp(ds))) == multiset(Entries(ds))
  {
    if ds != [] {
      SortEntries(ds[1..]);
      InsertEntries(ds[0], SortByIp(ds[1..]));
    }
  }


  /** The variables the interval callback closes over: the progress counter,
      the entries still to discover (popped from the end), the devices found
      so far, and whether the interval has been cleared. */
  datatype ScanState = ScanState(progress: int, toDiscover: seq<PoolEntry>, found: seq<Device>, finished: bool)

  /** The state `startScan` sets up before the first tick: the first `count`
      entries of the shuffled pool are to be discovered. */
  function Start(shuffled: seq<PoolEntry>, count: nat): ScanState
    requires count <= |shuffled|
  {
    ScanState(0, shuffled[..count], [], false)
  }

  /** The device built for the entry discovered next, the last one still to
      discover, when its assessment draws are `d`. */
  function NextDevice(toDiscover: seq<PoolEntry>, d: Draws): (dev: Device)
    requires toDiscover != []
    ensures EntryOf(dev) == toDiscover[|toDiscover| - 1] && dev.id == dev.mac
    ensures Assessed(dev)
  {
    var last := toDiscover[|toDiscover| - 1];
    assert Assess(last.deviceType, d) == Profile(Discovered(last, Assess(last.deviceType, d)).vulnerabilities,
      Discovered(last, Assess(last.deviceType, d)).risk, Discovered(last, Assess(last.deviceType, d)).openPorts);
    Discovered(last, Assess(last.deviceType, d))
  }

  /** `devicesToDiscover.pop()`, then the assessed device is pushed onto the
      found list. */
  function PopAndAssess(s: ScanState, d: Draws): ScanState
    requires s.toDiscover != []
  {
    s.(toDiscover := s.toDiscover[..|s.toDiscover| - 1], found := s.found + [NextDevice(s.toDiscover, d)])
  }

  /** The loop that discovers every remaining entry once the interval is
      cleared; the i-th entry it pops is assessed under `flushDraw(i)`. */
  function Flush(s: ScanState, flushDraw: nat -> Draws, i: nat): ScanState
    decreases |s.toDiscover|
  {
    if s.toDiscover == [] then s else Flush(PopAndAssess(s, flushDraw(i)), flushDraw, i + 1)
  }

  /** The devices a tick passes to `onProgress`: the one discovered on this
      tick, or nothing (`undefined`). */
  function TickFinds(toDiscover: seq<PoolEntry>, discover: bool, draws: Draws): Option<seq<Device>>
  {
    if toDiscover != [] && discover then Some([NextDevice(toDiscover, draws)]) else None
  }

  function Listed(o: Option<seq<Device>>): seq<Device>
  {
    if o.Some? then o.value else []
  }

  /** The first part of the callback: progress moves on by one increment and,
      while entries remain and the tick's draw allows it, one is discovered. */
  function Advance(s: ScanState, discover: bool, draws: Draws): ScanState
  {
    var advanced := s.(progress := s.progress + Increment);
    if s.toDiscover != [] && discover then PopAndAssess(advanced, draws) else advanced
  }

  /** The remaining entries are discovered and the found list is sorted by address. */
  function FlushSorted(s: ScanState, flushDraw: nat -> Draws): ScanState
  {
    var flushed := Flush(s, flushDraw, 0);
    flushed.(found := SortByIp(flushed.found))
  }

  /** The state after one run of the interval callback: once progress
      reaches 100 the interval is cleared before the flush. */
  function TickState(s: ScanState, discover: bool, draws: Draws, flushDraw: nat -> Draws): ScanState
  {
    var s2 := Advance(s, discover, draws);
    if s2.progress >= 100 then FlushSorted(s2.(finished := true), flushDraw) else s2
  }

  /** Every chosen entry is either still to discover or has been found (as a
      device whose id is its MAC address), and only once. */
  ghost predicate Accounted(s: ScanState, selected: seq<PoolEntry>)
  {
    && multiset(Entries(s.found)) + multiset(s.toDiscover) == multiset(selected)
    && IdsAreMacs(s.found) && AllAssessed(s.found)
  }

  /** The scan invariant: progress is a whole number of increments up to 100,
      the interval is cleared exactly at 100, every chosen entry is accounted
      for, and a cleared scan has nothing left and is sorted by address. */
  ghost predicate Inv(s: ScanState, selected: seq<PoolEntry>)
  {
    && 0 <= s.progress <= 100 && s.progress % Increment == 0
    && (s.finished <==> s.progress == 100)
    && Accounted(s, selected)
    && (s.finished ==> s.toDiscover == [] && SortedByIp(s.found))
  }

  /** The set-up state satisfies the invariant. */
  lemma StartInv(shuffled: seq<PoolEntry>, count: nat)
    requires count <= |shuffled|
    ensures Inv(Start(shuffled, count), shuffled[..count])
  {
    assert Entries([]) == [];
  }

  /** Discovering one entry moves it from the entries to discover to the
      found devices. */
  lemma PopKeepsAccount(s: ScanState, selected: seq<PoolEntry>, d: Draws)
    requires s.toDiscover != [] && Accounted(s, selected)
    ensures Accounted(PopAndAssess(s, d), selected)
  {
    var dev := NextDevice(s.toDiscover, d);
    var td := s.toDiscover;
    assert td == td[..|td| - 1] + [EntryOf(dev)];
    EntriesConcat(s.found, [dev]);
    assert Entries([dev]) == [EntryOf(dev)];
    var f := PopAndAssess(s, d).found;
    assert f == s.found + [dev];
    forall i | 0 <= i < |f| ensures f[i].id == f[i].mac && Assessed(f[i]) {
      if i < |s.found| {
        assert f[i] == s.found[i];
      }
    }
  }

  /** The final loop empties the entries to discover, appends one device per
      entry to the found list and touches nothing else. */
  lemma {:induction false} FlushSpec(s: ScanState, selected: seq<PoolEntry>, flushDraw: nat -> Draws, i: nat)
    requires Accounted(s, selected)
    ensures var r := Flush(s, flushDraw, i);
      && Accounted(r, selected) && r.toDiscover == []
      && r.progress == s.progress && r.finished == s.finished
      && s.found <= r.found && |r.found| == |s.found| + |s.toDiscover|
    decreases |s.toDiscover|
  {
    if s.toDiscover != [] {
      PopKeepsAccount(s, selected, flushDraw(i));
      FlushSpec(PopAndAssess(s, flushDraw(i)), selected, flushDraw, i + 1);
    }
  }

  /** Advancing moves progress on by one increment, reports a device exactly
      when one is discovered, and appends that device to the found list. */
  lemma AdvanceSpec(s: ScanState, selected: seq<PoolEntry>, discover: bool, draws: Draws)
    requires Accounted(s, selected)
    ensures var r := Advance(s, discover, draws);
      var finds := TickFinds(s.toDiscover, discover, draws);
      && Accounted(r, selected)
      && r.progress == s.progress + Increment && r.finished == s.finished
      && (finds.Some? <==> discover && s.toDiscover != [])
      && r.found == s.found + Listed(finds)
      && |r.found| + |r.toDiscover| == |s.found| + |s.toDiscover|
  {
    if s.toDiscover != [] && discover {
      PopKeepsAccount(s.(progress := s.progress + Increment), selected, draws);
    }
  }

  /** Flushing and sorting leaves a sorted found list holding every device
      found before and one device per remaining entry, and nothing to discover. */
  lemma FlushSortedSpec(s: ScanState, selected: seq<PoolEntry>, flushDraw: nat -> Draws)
    requires Accounted(s, selected)
    ensures var r := FlushSorted(s, flushDraw);
      && Accounted(r, selected) && r.toDiscover == [] && SortedByIp(r.found)
      && r.progress == s.progress && r.finished == s.finished
      && multiset(s.found) <= multiset(r.found) && |r.found| == |s.found| + |s.toDiscover|
  {
    var flushed := Flush(s, flushDraw, 0);
    FlushSpec(s, selected, flushDraw, 0);
    var sorted := SortByIp(flushed.found);
    SortKeepsDevices(flushed.found);
    assert s.found == flushed.found[..|s.found|];
    PrefixSubMultiset(flushed.found, |s.found|);
    assert |sorted| == |multiset(sorted)| == |flushed.found|;
  }

  /** A tick keeps the scan invariant. */
  lemma TickKeepsInv(s: ScanState, selected: seq<PoolEntry>, discover: bool, draws: Draws, flushDraw: nat -> Draws)
    requires Inv(s, selected) && !s.finished
    ensures Inv(TickState(s, discover, draws, flushDraw), selected)
  {
    AdvanceSpec(s, selected, discover, draws);
    var s2 := Advance(s, discover, draws);
    assert s2.progress == s.progress + Increment <= 100;
    if s2.progress >= 100 {
      var f := s2.(finished := true);
      assert Accounted(f, selected);
      FlushSortedSpec(f, selected, flushDraw);
      assert TickState(s, discover, draws, flushDraw) == FlushSorted(f, flushDraw);
    } else {
      assert TickState(s, discover, draws, flushDraw) == s2;
    }
  }

  /** What a tick does, as the caller of `startScan` sees it: progress moves
      on by one increment, at most one device is reported and only while
      entries remain, and the interval is cleared exactly when progress
      reaches 100. Before that the reported device is appended to the found
      list; on the final tick the found list holds everything found before,
      the reported device, and one device per entry still to discover. */
  lemma TickSteps(s: ScanState, selected: seq<PoolEntry>, discover: bool, draws: Draws, flushDraw: nat -> Draws)
    requires Inv(s, selected) && !s.finished
    ensures var r := TickState(s, discover, draws, flushDraw);
      var finds := TickFinds(s.toDiscover, discover, draws);
      && r.progress == s.progress + Increment
      && (r.finished <==> r.progress >= 100)
      && (finds.Some? <==> discover && s.toDiscover != [])
      && (!r.finished ==> r.found == s.found + Listed(finds))
      && (r.finished ==> multiset(s.found + Listed(finds)) <= multiset(r.found))
      && (r.finished ==> |r.found| == |s.found| + |s.toDiscover|)
  {
    AdvanceSpec(s, selected, discover, draws);
    var s2 := Advance(s, discover, draws);
    if s2.progress >= 100 {
      FlushSortedSpec(s2.(finished := true), selected, flushDraw);
    }
  }

  /** One `setInterval` scan in progress, holding the variables of
      `ScanState` as fields. */
  class Scanner {
    var progress: int
    var toDiscover: seq<PoolEntry>
    var found: seq<Device>
    var finished: bool
    /** The entries chosen for this scan. */
    ghost var selected: seq<PoolEntry>

    function State(): ScanState
      reads this
    {
      ScanState(progress, toDiscover, found, finished)
    }

    ghost predicate Valid()
      reads this
    {
      Inv(State(), selected)
    }

    /** The set-up part of `startScan`: the first `count` entries of the
        shuffled pool are the ones to discover. */
    constructor (shuffled: seq<PoolEntry>, count: nat)
      requires multiset(shuffled) == multiset(Pool)
      requires 2 <= count <= 5
      ensures Valid() && selected == shuffled[..count]
      ensures State() == Start(shuffled, count)
    {
      assert |shuffled| == |multiset(shuffled)| == |Pool|;
      progress := 0;
      finished := false;
      found := [];
      toDiscover := shuffled[..count];
      selected := shuffled[..count];
      StartInv(shuffled, count);
    }

    /** One run of the interval callback. `discover` is the `Math.random() > 0.5`
        draw of this tick and `draws` the assessment draws for the device it
        discovers; `flushDraw(i)` are those of the i-th device discovered after
        the interval is cleared. Returns the value passed to `onProgress` with
        the devices found on this tick, and the list the promise resolves
        with on the tick that clears the interval. */
    method Tick(discover: bool, draws: Draws, flushDraw: nat -> Draws)
      returns (reported: int, newDevices: Option<seq<Device>>, resolved: Option<seq<Device>>)
      requires Valid() && !finished
      modifies this
      ensures Valid() && selected == old(selected)
      ensures State() == TickState(old(State()), discover, draws, flushDraw)
      ensures reported == (if progress < 100 then progress else 100)
      ensures newDevices == TickFinds(old(toDiscover), discover, draws)
      ensures resolved == (if finished then Some(found) else None)
    {
      ghost var before := State();
      newDevices := AdvanceAndDiscover(discover, draws);
      reported := if progress < 100 then progress else 100;

      resolved := None;
      if progress >= 100 {
        ghost var advanced := State();
        finished := true;
        FlushAndSort(flushDraw);
        assert State() == FlushSorted(advanced.(finished := true), flushDraw);
        resolved := Some(found);
      }
      TickKeepsInv(before, selected, discover, draws, flushDraw);
    }

    /** The first part of the callback: progress moves on by one increment
        and, while entries remain and `discover` holds, one entry is
        discovered and returned as the devices found on this tick. */
    method AdvanceAndDiscover(discover: bool, draws: Draws) returns (newDevices: Option<seq<Device>>)
      modifies this`progress, this`toDiscover, this`found
      ensures State() == Advance(old(State()), discover, draws)
      ensures newDevices == TickFinds(old(toDiscover), discover, draws)
    {
      ghost var before := State();
      progress := progress + Increment;
      ghost var advanced := State();
      var foundThisTick: seq<Device> := [];
      if toDiscover != [] && discover {
        var dev := DiscoverLast(draws);
        foundThisTick := foundThisTick + [dev];
        assert State() == PopAndAssess(advanced, draws);
        assert foundThisTick == [NextDevice(before.toDiscover, draws)];
      }
      newDevices := if |foundThisTick| > 0 then Some(foundThisTick) else None;
    }

    /** Pops the last entry still to discover, assesses it and appends the
        resulting device to the found list. */
    method DiscoverLast(draws: Draws) returns (dev: Device)
      requires toDiscover != []
      modifies this`toDiscover, this`found
      ensures dev == NextDevice(old(toDiscover), draws)
      ensures State() == PopAndAssess(old(State()), draws)
    {
      var entry := toDiscover[|toDiscover| - 1];
      toDiscover := toDiscover[..|toDiscover| - 1];
      var profile := AssignVulnerabilities(entry, draws);
      dev := Discovered(entry, profile);
      found := found + [dev];
    }

    /** The end of the final tick: every entry still to discover is popped,
        assessed and found, and the found list is sorted by address. */
    method FlushAndSort(flushDraw: nat -> Draws)
      modifies this`toDiscover, this`found
      ensures State() == FlushSorted(old(State()), flushDraw)
    {
      var i := 0;
      while toDiscover != []
        invariant Flush(State(), flushDraw, i) == Flush(old(State()), flushDraw, 0)
        decreases |toDiscover|
      {
        var _ := DiscoverLast(flushDraw(i));
        i := i + 1;
      }
      found := SortByIp(found);
    }
  }

  /** Sorting orders the devices by address and keeps the devices, their
      pool entries and their ids. */
  lemma SortKeepsDevices(ds: seq<Device>)
    requires IdsAreMacs(ds) && AllAssessed(ds)
    ensures SortedByIp(SortByIp(ds))
    ensures multiset(SortByIp(ds)) == multiset(ds)
    ensures multiset(Entries(SortByIp(ds))) == multiset(Entries(ds))
    ensures IdsAreMacs(SortByIp(ds)) && AllAssessed(SortByIp(ds))
  {
    var sorted := SortByIp(ds);
    SortByIpSpec(ds);
    SortEntries(ds);
    forall k | 0 <= k < |sorted| ensures sorted[k].id == sorted[k].mac && Assessed(sorted[k]) {
      assert sorted[k] in multiset(ds);
    }
  }

  /** A device list can repeat an entry only if some entry occurs twice. */
  lemma {:induction false} RepeatCounts(a: seq<PoolEntry>, i: nat, j: nat)
    requires i < j < |a| && a[i] == a[j]
    ensures multiset(a)[a[i]] >= 2
  {
    assert a == a[..j] + [a[j]] + a[j + 1..];
    assert a[i] in a[..j];
  }

  /** A list with distinct MAC addresses holds each entry at most once. */
  lemma {:induction false} DistinctOnce(b: seq<PoolEntry>, x: PoolEntry)
    requires DistinctMacs(b)
    ensures multiset(b)[x] <= 1
  {
    if b != [] {
      assert b == [b[0]] + b[1..];
      DistinctOnce(b[1..], x);
      if b[0] == x {
        assert x !in b[1..];
      }
    }
  }

  /** Taking part of a list with distinct MAC addresses keeps them distinct. */
  lemma {:induction false} DistinctMacsSubMultiset(a: seq<PoolEntry>, b: seq<PoolEntry>)
    requires multiset(a) <= multiset(b)
    requires DistinctMacs(b)
    ensures DistinctMacs(a)
  {
    forall i, j | 0 <= i < j < |a|
      ensures a[i].mac != a[j].mac
    {
      assert a[i] in multiset(a) && a[j] in multiset(a);
      assert a[i] in b && a[j] in b;
      var p :| 0 <= p < |b| && b[p] == a[i];
      var q :| 0 <= q < |b| && b[q] == a[j];
      if a[i] == a[j] {
        RepeatCounts(a, i, j);
        DistinctOnce(b, a[i]);
      } else {
        assert p != q;
      }
    }
  }

  /** A prefix of a list holds a part of its elements. */
  lemma PrefixSubMultiset<T>(s: seq<T>, n: nat)
    requires n <= |s|
    ensures multiset(s[..n]) <= multiset(s)
  {
    assert s == s[..n] + s[n..];
  }

  /** A resolved list whose pool entries are `chosen`, drawn from a pool with
      distinct MAC addresses, has one device per chosen entry and distinct ids. */
  lemma ResolvedDistinct(resolved: seq<Device>, chosen: seq<PoolEntry>, pool: seq<PoolEntry>)
    requires multiset(Entries(resolved)) == multiset(chosen)
    requires multiset(chosen) <= multiset(pool) && DistinctMacs(pool)
    requires IdsAreMacs(resolved)
    ensures |resolved| == |chosen|
    ensures forall k, m :: 0 <= k < m < |resolved| ==> resolved[k].id != resolved[m].id
  {
    assert |Entries(resolved)| == |multiset(Entries(resolved))| == |multiset(chosen)|;
    DistinctMacsSubMultiset(Entries(resolved), pool);
    forall k, m | 0 <= k < m < |resolved| ensures resolved[k].id != resolved[m].id {
      EntriesAt(resolved, k);
      EntriesAt(resolved, m);
    }
  }

  /** A cleared scan has found one device per chosen entry, sorted by address. */
  lemma FinishedFound(s: ScanState, selected: seq<PoolEntry>)
    requires Inv(s, selected) && s.finished
    ensures |s.found| == |selected| && SortedByIp(s.found)
    ensures multiset(Entries(s.found)) == multiset(selected)
  {
    assert |s.found| == |Entries(s.found)| == |multiset(Entries(s.found))| == |multiset(selected)|;
  }

  /** One callback as the caller of `startScan` observes it: the value passed
      to `onProgress` is the new progress, the devices passed with it are the
      ones appended to the found list, and the final tick resolves the
      promise with a list holding those devices and all found before. */
  method ObserveTick(sc: Scanner, discover: bool, draws: Draws, flushDraw: nat -> Draws)
    returns (reported: int, newDevices: Option<seq<Device>>, resolved: Option<seq<Device>>)
    requires sc.Valid() && !sc.finished
    modifies sc
    ensures sc.Valid() && sc.selected == old(sc.selected)
    ensures sc.progress == old(sc.progress) + Increment && reported == sc.progress
    ensures newDevices == TickFinds(old(sc.toDiscover), discover, draws)
    ensures resolved == (if sc.finished then Some(sc.found) else None)
    ensures !sc.finished ==> sc.found == old(sc.found) + Listed(newDevices)
    ensures sc.finished ==> multiset(old(sc.found) + Listed(newDevices)) <= multiset(sc.found)
    ensures sc.finished ==> |sc.found| == |old(sc.found)| + |old(sc.toDiscover)|
    ensures |Listed(newDevices)| <= |old(sc.toDiscover)|
  {
    ghost var before := sc.State();
    reported, newDevices, resolved := sc.Tick(discover, draws, flushDraw);
    TickSteps(before, sc.selected, discover, draws, flushDraw);
  }

  /** Ticks a fresh scanner until the interval is cleared, collecting what
      the caller observes. `discover(k)` and `draws(k)` are the random draws
      of tick k. Only devices discovered on a tick reach `onProgress`; the
      `unreported` devices discovered by the final flush reach the caller
      only through the resolved list, so when no tick's draw fires, no
      device is reported at all. */
  method TickUntilDone(sc: Scanner, discover: nat -> bool, draws: nat -> Draws, flushDraw: nat -> Draws)
    returns (reports: seq<int>, discoveries: seq<Device>, unreported: nat, resolved: seq<Device>)
    requires sc.Valid() && sc.progress == 0 && sc.found == []
    modifies sc
    ensures sc.Valid() && sc.finished && sc.selected == old(sc.selected)
    ensures |reports| == Steps
    ensures forall k :: 0 <= k < |reports| ==> reports[k] == Increment * (k + 1)
    ensures resolved == sc.found && multiset(discoveries) <= multiset(resolved)
    ensures |resolved| == |discoveries| + unreported
    ensures (forall k :: 0 <= k < Steps ==> !discover(k)) ==> discoveries == [] && unreported == |resolved|
  {
    reports, discoveries, unreported, resolved := [], [], 0, [];
    var done := false;
    while !done
      invariant sc.Valid() && sc.selected == old(sc.selected)
      invariant done <==> sc.finished
      invariant sc.progress == Increment * |reports|
      invariant forall k :: 0 <= k < |reports| ==> reports[k] == Increment * (k + 1)
      invariant !done ==> discoveries == sc.found
      invariant done ==> resolved == sc.found && multiset(discoveries) <= multiset(resolved)
      invariant done ==> |resolved| == |discoveries| + unreported
      invariant (forall k :: 0 <= k < Steps ==> !discover(k)) ==> discoveries == []
      decreases 100 - sc.progress
    {
      var pending := |sc.toDiscover|;
      var tick := |reports|;
      var r, nd, res := ObserveTick(sc, discover(tick), draws(tick), flushDraw);
      reports := reports + [r];
      discoveries := discoveries + Listed(nd);
      if res.Some? {
        resolved := res.value;
        unreported := pending - |Listed(nd)|;
        done := true;
      }
    }
  }

  /** The progress values of a scan climb by five from 5 to exactly 100. */
  lemma ReportsClimb(reports: seq<int>)
    requires |reports| == Steps
    requires forall k :: 0 <= k < |reports| ==> reports[k] == Increment * (k + 1)
    ensures forall k, m :: 0 <= k <= m < |reports| ==> reports[k] <= reports[m] <= 100
    ensures reports[0] == Increment && reports[|reports| - 1] == 100
  {
  }

  /** A cleared scan over the first `count` entries of a shuffled pool holds
      `count` devices sorted by address, one per chosen entry, with distinct
      ids that are their MAC addresses, each carrying an assessment. */
  lemma ScanResult(s: ScanState, shuffled: seq<PoolEntry>, count: nat)
    requires multiset(shuffled) == multiset(Pool) && 2 <= count <= 5
    requires Inv(s, shuffled[..count]) && s.finished
    ensures |s.found| == count && SortedByIp(s.found) && IdsAreMacs(s.found)
    ensures multiset(Entries(s.found)) == multiset(shuffled[..count])
    ensures forall k, m :: 0 <= k < m < |s.found| ==> s.found[k].id != s.found[m].id
    ensures forall k :: 0 <= k < |s.found| ==> EntryOf(s.found[k]) in Pool
    ensures AllAssessed(s.found)
    ensures forall k :: 0 <= k < |s.found| ==>
      80 in s.found[k].openPorts && 443 in s.found[k].openPorts && |s.found[k].vulnerabilities| >= 1
  {
    forall k | 0 <= k < |s.found|
      ensures 80 in s.found[k].openPorts && 443 in s.found[k].openPorts && |s.found[k].vulnerabilities| >= 1
    {
      AssessedFacts(s.found[k]);
    }
    assert |shuffled| == |multiset(shuffled)| == |Pool|;
    FinishedFound(s, shuffled[..count]);
    PrefixSubMultiset(shuffled, count);
    PoolMacsDistinct();
    ResolvedDistinct(s.found, shuffled[..count], Pool);
    FromPool(s.found, shuffled[..count], Pool);
  }

  /** The whole `startScan` promise: builds a scanner over the first `count`
      entries of the shuffled pool and ticks it until the interval is
      cleared. Returns the progress values passed to `onProgress`, every
      device passed to `onProgress`, and the list the promise resolves with. */
  method RunScan(shuffled: seq<PoolEntry>, count: nat,
                 discover: nat -> bool, draws: nat -> Draws, flushDraw: nat -> Draws)
    returns (reports: seq<int>, discoveries: seq<Device>, unreported: nat, resolved: seq<Device>)
    requires multiset(shuffled) == multiset(Pool)
    requires 2 <= count <= 5
    // twenty callbacks, advancing by 5 each (see ReportsClimb)
    ensures |reports| == Steps
    ensures forall k :: 0 <= k < |reports| ==> reports[k] == Increment * (k + 1)
    // every chosen entry is resolved exactly once, sorted by address
    ensures |resolved| == count
    ensures multiset(Entries(resolved)) == multiset(shuffled[..count])
    ensures SortedByIp(resolved)
    // ids are MAC addresses and are distinct
    ensures IdsAreMacs(resolved)
    ensures forall k, m :: 0 <= k < m < |resolved| ==> resolved[k].id != resolved[m].id
    // every device carries an assessment, so ports 80 and 443 are open and
    // at least one finding is listed (see AssessedFacts)
    ensures AllAssessed(resolved)
    // every device was built from a pool entry (so PoolClean and
    // CsvReport.PoolDevicesCsv apply to the list)
    ensures forall k :: 0 <= k < |resolved| ==> EntryOf(resolved[k]) in Pool
    ensures forall k :: 0 <= k < |resolved| ==>
      80 in resolved[k].openPorts && 443 in resolved[k].openPorts && |resolved[k].vulnerabilities| >= 1
    // every device reported during the scan is in the final list; the
    // others were discovered by the final flush and never reported
    ensures multiset(discoveries) <= multiset(resolved)
    ensures |resolved| == |discoveries| + unreported
    ensures (forall k :: 0 <= k < Steps ==> !discover(k)) ==> discoveries == [] && unreported == count
  {
    var sc := new Scanner(shuffled, count);
    reports, discoveries, unreported, resolved := TickUntilDone(sc, discover, draws, flushDraw);
    ScanResult(sc.State(), shuffled, count);
  }
}

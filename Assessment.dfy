/** The vulnerability catalogue and `assignVulnerabilities` of
    services/scannerService.ts: every random draw is an explicit boolean in a
    `Draws` record, so a device's findings, risk and open ports are a function
    of its type and the five draws. */
module Assessment {
  import opened Types

  /** A pool entry: a device before it has been assessed (no id, risk,
      findings or ports yet). */
  datatype PoolEntry = PoolEntry(ip: string, mac: string, vendor: string, deviceType: DeviceType)

  /** The outcome of each `Math.random() > threshold` test, in source order.
      `telnet` is consulted only for cameras and `ftp` only for routers, as the
      `&&` short-circuits before drawing for other types. */
  datatype Draws = Draws(defaultPass: bool, telnet: bool, ftp: bool, httpAdmin: bool, oldFirmware: bool)

  /** The part of a device that `assignVulnerabilities` computes. */
  datatype Profile = Profile(vulnerabilities: seq<Vulnerability>, risk: Severity, openPorts: seq<int>)

  predicate StrictlyAscending(s: seq<int>)
  {
    forall i, j :: 0 <= i < j < |s| ==> s[i] < s[j]
  }

  /** Adds `x` to a list before its first element not below `x`, unless it
      is already there. */
  function Insert(x: int, s: seq<int>): seq<int>
  {
    if s == [] then [x]
    else if x < s[0] then [x] + s
    else if x == s[0] then s
    else [s[0]] + Insert(x, s[1..])
  }

  /** `[...new Set(s)].sort((a, b) => a - b)`: the distinct values of `s`, ascending. */
  function SortedDistinct(s: seq<int>): seq<int>
  {
    if s == [] then [] else Insert(s[0], SortedDistinct(s[1..]))
  }

  /** Inserting adds exactly `x` to the members of a list. */
  lemma {:induction false} InsertMembers(x: int, s: seq<int>)
    ensures forall y :: y in Insert(x, s) <==> y == x || y in s
  {
    if s != [] && x > s[0] {
      InsertMembers(x, s[1..]);
      assert Insert(x, s) == [s[0]] + Insert(x, s[1..]);
      assert s == [s[0]] + s[1..];
    }
  }

  /** Inserting into an ascending duplicate-free list keeps it so and adds
      exactly `x`. */
  lemma {:induction false} InsertKeepsAscending(x: int, s: seq<int>)
    requires StrictlyAscending(s)
    ensures StrictlyAscending(Insert(x, s))
    ensures forall y :: y in Insert(x, s) <==> y == x || y in s
  {
    InsertMembers(x, s);
    if s == [] {
      assert Insert(x, s) == [x];
    } else if x < s[0] {
      assert Insert(x, s) == [x] + s;
    } else if x == s[0] {
      assert Insert(x, s) == s;
    } else {
      var rest := Insert(x, s[1..]);
      InsertKeepsAscending(x, s[1..]);
      forall k | 0 <= k < |rest| ensures s[0] < rest[k] {
        assert rest[k] in rest;
        if rest[k] != x {
          var m :| 0 <= m < |s[1..]| && s[1..][m] == rest[k];
          assert s[m + 1] == rest[k];
        }
      }
      assert Insert(x, s) == [s[0]] + rest;
    }
  }

  /** The result of deduplicate-then-sort is ascending without repeats and
      holds exactly the values of the input. */
  lemma {:induction false} SortedDistinctSpec(s: seq<int>)
    ensures StrictlyAscending(SortedDistinct(s))
    ensures forall y :: y in SortedDistinct(s) <==> y in s
  {
    if s != [] {
      SortedDistinctSpec(s[1..]);
      InsertKeepsAscending(s[0], SortedDistinct(s[1..]));
      assert s == [s[0]] + s[1..];
    }
  }

  /** An ascending duplicate-free list is determined by its elements, so
      `SortedDistinct` is the only possible result of deduplicate-then-sort. */
  lemma {:induction false} AscendingUnique(a: seq<int>, b: seq<int>)
    requires StrictlyAscending(a) && StrictlyAscending(b)
    requires forall y :: y in a <==> y in b
    ensures a == b
  {
    assert |a| > 0 ==> a[0] in a && a[0] in b;
    assert |b| > 0 ==> b[0] in b && b[0] in a;
    if a != [] && b != [] {
      var j :| 0 <= j < |b| && b[j] == a[0];
      assert b[0] <= b[j];
      var k :| 0 <= k < |a| && a[k] == b[0];
      assert a[0] <= a[k];
      forall y
        ensures y in a[1..] <==> y in b[1..]
      {
        if y in a[1..] {
          var i :| 1 <= i < |a| && a[i] == y;
          assert a[0] < a[i] && y in b;
        }
        if y in b[1..] {
          var i :| 1 <= i < |b| && b[i] == y;
          assert b[0] < b[i] && y in a;
        }
      }
      AscendingUnique(a[1..], b[1..]);
      assert a == [a[0]] + a[1..] && b == [b[0]] + b[1..];
    }
  }

  /** The findings pushed by the five catalogue rules, in push order. */
  function Fired(t: DeviceType, d: Draws): seq<Vulnerability>
  {
    (if d.defaultPass then [DefaultCredentials] else [])
    + (if t == Camera && d.telnet then [UnsecuredTelnet] else [])
    + (if t == Router && d.ftp then [UnsecuredFtp] else [])
    + (if d.httpAdmin then [UnencryptedAdminPanel] else [])
    + (if d.oldFirmware then [OutdatedFirmware] else [])
  }

  /** Which catalogue entries `Fired` holds, that it is empty exactly when
      no draw fired, and that it holds one entry per fired draw. */
  lemma FiredMembers(t: DeviceType, d: Draws)
    ensures DefaultCredentials in Fired(t, d) <==> d.defaultPass
    ensures UnsecuredTelnet in Fired(t, d) <==> t == Camera && d.telnet
    ensures UnsecuredFtp in Fired(t, d) <==> t == Router && d.ftp
    ensures UnencryptedAdminPanel in Fired(t, d) <==> d.httpAdmin
    ensures OutdatedFirmware in Fired(t, d) <==> d.oldFirmware
    ensures StandardPortsOpen !in Fired(t, d)
    ensures Fired(t, d) == [] <==>
      !d.defaultPass && !(t == Camera && d.telnet) && !(t == Router && d.ftp) && !d.httpAdmin && !d.oldFirmware
    ensures |Fired(t, d)| ==
      (if d.defaultPass then 1 else 0) + (if t == Camera && d.telnet then 1 else 0)
      + (if t == Router && d.ftp then 1 else 0) + (if d.httpAdmin then 1 else 0)
      + (if d.oldFirmware then 1 else 0)
  {
    var a := if d.defaultPass then [DefaultCredentials] else [];
    var b := if t == Camera && d.telnet then [UnsecuredTelnet] else [];
    var c := if t == Router && d.ftp then [UnsecuredFtp] else [];
    var e := if d.httpAdmin then [UnencryptedAdminPanel] else [];
    var g := if d.oldFirmware then [OutdatedFirmware] else [];
    assert Fired(t, d) == a + b + c + e + g;
    assert forall v :: v in Fired(t, d) <==> v in a || v in b || v in c || v in e || v in g;
  }

  /** The ports pushed after the initial 80 and 443, in push order. */
  function ExtraPorts(t: DeviceType, d: Draws): seq<int>
  {
    (if d.defaultPass then [22] else [])
    + (if t == Camera && d.telnet then [23] else [])
    + (if t == Router && d.ftp then [21] else [])
  }

  lemma ExtraPortsMembers(t: DeviceType, d: Draws)
    ensures 22 in ExtraPorts(t, d) <==> d.defaultPass
    ensures 23 in ExtraPorts(t, d) <==> t == Camera && d.telnet
    ensures 21 in ExtraPorts(t, d) <==> t == Router && d.ftp
    ensures forall q :: q in ExtraPorts(t, d) ==> q in {21, 22, 23}
  {
  }

  /** Risk from the two counters: only default credentials and Telnet count as
      high, only FTP and outdated firmware as medium. */
  function CounterRisk(t: DeviceType, d: Draws): Severity
  {
    var high := (if d.defaultPass then 1 else 0) + (if t == Camera && d.telnet then 1 else 0);
    var medium := (if t == Router && d.ftp then 1 else 0) + (if d.oldFirmware then 1 else 0);
    if high > 0 then High else if medium > 0 then Medium else Low
  }

  /** What `assignVulnerabilities` returns for a device of type `t` under draws `d`. */
  function Assess(t: DeviceType, d: Draws): Profile
  {
    var fired := Fired(t, d);
    Profile(if fired == [] then [StandardPortsOpen] else fired,
            CounterRisk(t, d),
            SortedDistinct([80, 443] + ExtraPorts(t, d)))
  }

  /** The port list always holds 80 and 443, is ascending without repeats, and
      holds no port other than 21, 22, 23, 80 and 443. */
  lemma PortListInvariant(t: DeviceType, d: Draws)
    ensures var p := Assess(t, d);
      && 80 in p.openPorts && 443 in p.openPorts && StrictlyAscending(p.openPorts)
      && forall q :: q in p.openPorts ==> q in {21, 22, 23, 80, 443}
  {
    SortedDistinctSpec([80, 443] + ExtraPorts(t, d));
    ExtraPortsMembers(t, d);
  }

  /** Each extra port is open exactly when its finding was assigned, Telnet
      is only ever found on cameras and FTP only on routers. */
  lemma PortsTrackFindings(t: DeviceType, d: Draws)
    ensures var p := Assess(t, d);
      && (22 in p.openPorts <==> DefaultCredentials in p.vulnerabilities)
      && (23 in p.openPorts <==> UnsecuredTelnet in p.vulnerabilities)
      && (21 in p.openPorts <==> UnsecuredFtp in p.vulnerabilities)
      && (UnsecuredTelnet in p.vulnerabilities ==> t == Camera)
      && (UnsecuredFtp in p.vulnerabilities ==> t == Router)
  {
    FiredMembers(t, d);
    ExtraPortsMembers(t, d);
    var p := Assess(t, d);
    var ports := [80, 443] + ExtraPorts(t, d);
    SortedDistinctSpec(ports);
    assert forall q :: q !in {80, 443} ==> (q in ports <==> q in ExtraPorts(t, d));
    assert Fired(t, d) != [] ==> p.vulnerabilities == Fired(t, d);
  }

  /** The list of findings is never empty: the informational note appears
      exactly when no rule fired, and then alone and with risk Low. */
  lemma FindingsNeverEmpty(t: DeviceType, d: Draws)
    ensures var p := Assess(t, d);
      && |p.vulnerabilities| >= 1
      && (StandardPortsOpen in p.vulnerabilities <==> Fired(t, d) == [])
      && (StandardPortsOpen in p.vulnerabilities <==> p.vulnerabilities == [StandardPortsOpen])
      && (p.vulnerabilities == [StandardPortsOpen] ==> p.risk == Low)
  {
    FiredMembers(t, d);
  }

  /** The risk rule as the code applies it: High exactly when default
      credentials or Telnet were found; otherwise Medium exactly when FTP or
      outdated firmware was found; otherwise Low, whatever else was found. */
  lemma RiskRule(t: DeviceType, d: Draws)
    ensures var p := Assess(t, d);
      && (p.risk == High <==> DefaultCredentials in p.vulnerabilities || UnsecuredTelnet in p.vulnerabilities)
      && (p.risk == Medium <==>
            DefaultCredentials !in p.vulnerabilities && UnsecuredTelnet !in p.vulnerabilities
            && (UnsecuredFtp in p.vulnerabilities || OutdatedFirmware in p.vulnerabilities))
  {
    FiredMembers(t, d);
  }

  /** The highest severity in a list of findings (Low for an empty list). */
  function MaxSeverity(vs: seq<Vulnerability>): (r: Severity)
    ensures forall i :: 0 <= i < |vs| ==> Rank(vs[i].severity()) <= Rank(r)
    ensures vs != [] ==> exists i :: 0 <= i < |vs| && vs[i].severity() == r
  {
    if vs == [] then Low
    else
      var rest := MaxSeverity(vs[1..]);
      if Rank(vs[0].severity()) >= Rank(rest) then vs[0].severity() else rest
  }

  /** The highest severity among catalogue records: High exactly when default
      credentials or Telnet are among them, Low exactly when none of the five
      catalogue entries is. */
  lemma {:induction false} MaxSeverityCases(vs: seq<Vulnerability>)
    ensures MaxSeverity(vs) == High <==> DefaultCredentials in vs || UnsecuredTelnet in vs
    ensures MaxSeverity(vs) == Low <==>
      && DefaultCredentials !in vs && UnsecuredTelnet !in vs && UnsecuredFtp !in vs
      && UnencryptedAdminPanel !in vs && OutdatedFirmware !in vs
  {
    if vs != [] {
      MaxSeverityCases(vs[1..]);
      assert vs == [vs[0]] + vs[1..];
    }
  }

  /** The risk never exceeds the highest severity found, and it falls short of
      it exactly when the only Medium-or-higher finding is the unencrypted
      admin panel, which raises no counter. */
  lemma RiskVersusMaxSeverity(t: DeviceType, d: Draws)
    ensures var p := Assess(t, d);
      && Rank(p.risk) <= Rank(MaxSeverity(p.vulnerabilities))
      && (p.risk == MaxSeverity(p.vulnerabilities) <==>
            !(UnencryptedAdminPanel in p.vulnerabilities && p.risk == Low))
      && (UnencryptedAdminPanel in p.vulnerabilities && p.risk == Low ==> MaxSeverity(p.vulnerabilities) == Medium)
  {
    var p := Assess(t, d);
    RiskRule(t, d);
    MaxSeverityCases(p.vulnerabilities);
  }

  /** A device whose only finding is the unencrypted admin panel (a Medium
      finding) is rated Low, and has only ports 80 and 443 open. */
  lemma AdminPanelAloneIsLow(t: DeviceType)
    ensures var p := Assess(t, Draws(false, false, false, true, false));
      p.vulnerabilities == [UnencryptedAdminPanel] && p.risk == Low
      && MaxSeverity(p.vulnerabilities) == Medium
      && p.openPorts == [80, 443]
  {
    var p := Assess(t, Draws(false, false, false, true, false));
    assert [80, 443] + ExtraPorts(t, Draws(false, false, false, true, false)) == [80, 443];
    SortedDistinctSpec([80, 443]);
    assert StrictlyAscending([80, 443]);
    AscendingUnique(p.openPorts, [80, 443]);
  }

  /** The camera at 192.168.1.110 with default credentials and Telnet drawn
      (and nothing else) is High with ports 22, 23, 80 and 443. */
  lemma CameraScenario()
    ensures var p := Assess(Camera, Draws(true, true, false, false, false));
      p.risk == High && p.openPorts == [22, 23, 80, 443]
      && p.vulnerabilities == [DefaultCredentials, UnsecuredTelnet]
  {
    var p := Assess(Camera, Draws(true, true, false, false, false));
    assert [80, 443] + ExtraPorts(Camera, Draws(true, true, false, false, false)) == [80, 443, 22, 23];
    SortedDistinctSpec([80, 443, 22, 23]);
    AscendingUnique(p.openPorts, [22, 23, 80, 443]);
  }

  /** `assignVulnerabilities`: pushes each finding and its port as its draw
      fires, counts high and medium findings, derives the risk from the
      counters, adds the informational note when nothing fired, and returns
      the ports deduplicated and sorted. */
  method AssignVulnerabilities(device: PoolEntry, d: Draws) returns (p: Profile)
    ensures p == Assess(device.deviceType, d)
  {
    var vulnerabilities: seq<Vulnerability> := [];
    var openPorts: seq<int> := [80, 443];
    var high, medium := 0, 0;

    var t := device.deviceType;
    if d.defaultPass {
      vulnerabilities := vulnerabilities + [DefaultCredentials];
      openPorts := openPorts + [22];
      high := high + 1;
    }
    ghost var pushed := if d.defaultPass then [DefaultCredentials] else [];
    assert vulnerabilities == pushed;
    if t == Camera && d.telnet {
      vulnerabilities := vulnerabilities + [UnsecuredTelnet];
      openPorts := openPorts + [23];
      high := high + 1;
    }
    pushed := pushed + if t == Camera && d.telnet then [UnsecuredTelnet] else [];
    assert vulnerabilities == pushed;
    if t == Router && d.ftp {
      vulnerabilities := vulnerabilities + [UnsecuredFtp];
      openPorts := openPorts + [21];
      medium := medium + 1;
    }
    pushed := pushed + if t == Router && d.ftp then [UnsecuredFtp] else [];
    assert vulnerabilities == pushed;
    assert openPorts == [80, 443] + ExtraPorts(t, d);
    if d.httpAdmin {
      vulnerabilities := vulnerabilities + [UnencryptedAdminPanel];
    }
    pushed := pushed + if d.httpAdmin then [UnencryptedAdminPanel] else [];
    assert vulnerabilities == pushed;
    if d.oldFirmware {
      vulnerabilities := vulnerabilities + [OutdatedFirmware];
      medium := medium + 1;
    }
    pushed := pushed + if d.oldFirmware then [OutdatedFirmware] else [];
    assert vulnerabilities == pushed == Fired(t, d);

    var risk := if high > 0 then High else if medium > 0 then Medium else Low;

    if |vulnerabilities| == 0 {
      vulnerabilities := vulnerabilities + [StandardPortsOpen];
    }

    p := Profile(vulnerabilities, risk, SortedDistinct(openPorts));
  }
}

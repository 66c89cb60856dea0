/** The text `generateCSV` builds before handing it to the browser
    (services/scannerService.ts:123-132): a `data:` URI prefix, a header line,
    then one comma-separated, newline-terminated row per device in input order.
    Fields are wrapped in double quotes where the source does so, but embedded
    quotes are not doubled, so this is not the quoting of RFC 4180. */
module CsvReport {
  import opened Types
  import opened Strings
  import ScanSimulation
  import DevicePool

  const Prefix: string := "data:text/csv;charset=utf-8,"

  /** The seven header titles, in column order. */
  const Titles: seq<string> := ["IP Address", "MAC Address", "Vendor", "Device Type", "Risk Level", "Open Ports", "Vulnerabilities"]

  /** The header line, without its newline: the titles separated by commas. */
  const HeaderLine: string := Join(Titles, ",")

  /** A template literal of the form `"${s}"`. */
  function Quote(s: string): string
  {
    "\"" + s + "\""
  }

  /** `openPorts.join('; ')`, each port printed in decimal. */
  function PortsText(ports: seq<int>): string
  {
    Join(seq(|ports|, i requires 0 <= i < |ports| => IntToString(ports[i])), "; ")
  }

  /** One finding as `${v.name} (${v.severity})`. */
  function FindingLabel(v: Vulnerability): string
  {
    v.name() + " (" + SeverityName(v.severity()) + ")"
  }

  /** The finding labels joined by `'; '`. */
  function FindingsText(vs: seq<Vulnerability>): string
  {
    Join(seq(|vs|, i requires 0 <= i < |vs| => FindingLabel(vs[i])), "; ")
  }

  /** The seven fields of a device's row, in column order. */
  function Fields(d: Device): (r: seq<string>)
    ensures |r| == |Titles|
  {
    [d.ip, d.mac, Quote(d.vendor), DeviceTypeName(d.deviceType), SeverityName(d.risk),
     Quote(PortsText(d.openPorts)), Quote(FindingsText(d.vulnerabilities))]
  }

  function Row(d: Device): string
  {
    Join(Fields(d), ",")
  }

  /** The rows of the devices, in input order. */
  function RowTexts(devices: seq<Device>): (r: seq<string>)
    ensures |r| == |devices|
  {
    seq(|devices|, i requires 0 <= i < |devices| => Row(devices[i]))
  }

  /** The given lines, each followed by a newline. */
  function Lines(rows: seq<string>): string
  {
    if rows == [] then "" else rows[0] + "\n" + Lines(rows[1..])
  }

  /** The whole `csvContent` string for `devices`: the URI prefix, then the
      header line and the rows. */
  function CsvContent(devices: seq<Device>): string
  {
    Prefix + HeaderLine + "\n" + Lines(RowTexts(devices))
  }

  /** Appending a line appends it and a newline. */
  lemma {:induction false} LinesSnoc(rows: seq<string>, r: string)
    ensures Lines(rows + [r]) == Lines(rows) + r + "\n"
  {
    if rows == [] {
      assert [r][1..] == [];
    } else {
      assert (rows + [r])[1..] == rows[1..] + [r];
      LinesSnoc(rows[1..], r);
    }
  }

  /** After a fixed head, the lines of one more row add that row and a newline. */
  lemma LinesPrefixStep(head: string, rows: seq<string>, i: nat)
    requires i < |rows|
    ensures head + Lines(rows[..i]) + rows[i] + "\n" == head + Lines(rows[..i + 1])
  {
    LinesSnoc(rows[..i], rows[i]);
    assert rows[..i + 1] == rows[..i] + [rows[i]];
  }

  /** The `forEach` loop of `generateCSV`: the content starts with the URI
      prefix and the header line, and each device appends its row. */
  method GenerateCsv(devices: seq<Device>) returns (csv: string)
    ensures csv == CsvContent(devices)
  {
    csv := Prefix;
    csv := csv + HeaderLine + "\n";
    ghost var head := csv;
    for i := 0 to |devices|
      invariant csv == head + Lines(RowTexts(devices)[..i])
    {
      var row := Row(devices[i]);
      assert row == RowTexts(devices)[i];
      LinesPrefixStep(head, RowTexts(devices), i);
      csv := csv + row + "\n";
    }
    assert RowTexts(devices)[..|devices|] == RowTexts(devices);
  }

  /** No finding's name contains a newline. */
  lemma NameNoNewline(v: Vulnerability)
    ensures '\n' !in v.name()
  {
    match v
    case DefaultCredentials => assert '\n' !in "Default Credentials";
    case UnsecuredTelnet => assert '\n' !in "Unsecured Telnet";
    case UnsecuredFtp => assert '\n' !in "Unsecured FTP";
    case UnencryptedAdminPanel => assert '\n' !in "Unencrypted Admin Panel";
    case OutdatedFirmware => assert '\n' !in "Outdated Firmware (Simulated)";
    case StandardPortsOpen => assert '\n' !in "Standard Ports Open";
  }

  /** No finding's name contains a comma. */
  lemma NameNoComma(v: Vulnerability)
    ensures ',' !in v.name()
  {
    match v
    case DefaultCredentials => assert ',' !in "Default Credentials";
    case UnsecuredTelnet => assert ',' !in "Unsecured Telnet";
    case UnsecuredFtp => assert ',' !in "Unsecured FTP";
    case UnencryptedAdminPanel => assert ',' !in "Unencrypted Admin Panel";
    case OutdatedFirmware => assert ',' !in "Outdated Firmware (Simulated)";
    case StandardPortsOpen => assert ',' !in "Standard Ports Open";
  }

  /** Severity names contain neither a newline nor a comma. */
  lemma SeverityNameClean(s: Severity)
    ensures '\n' !in SeverityName(s) && ',' !in SeverityName(s)
  {
    match s
    case Low => assert SeverityName(s) == "Low";
    case Medium => assert SeverityName(s) == "Medium";
    case High => assert SeverityName(s) == "High";
  }

  /** Device type names contain neither a newline nor a comma. */
  lemma TypeNameClean(t: DeviceType)
    ensures '\n' !in DeviceTypeName(t) && ',' !in DeviceTypeName(t)
  {
    match t
    case Router => assert DeviceTypeName(t) == "Router";
    case Camera => assert DeviceTypeName(t) == "Camera";
    case Lightbulb => assert DeviceTypeName(t) == "Lightbulb";
    case SmartPlug => assert DeviceTypeName(t) == "Smart-Plug";
    case Thermostat => assert DeviceTypeName(t) == "Thermostat";
    case Unknown => assert DeviceTypeName(t) == "Unknown";
  }

  /** Neither a newline nor a comma appears in a finding's label. */
  lemma FindingLabelClean(v: Vulnerability)
    ensures '\n' !in FindingLabel(v) && ',' !in FindingLabel(v)
  {
    NameNoNewline(v);
    NameNoComma(v);
    SeverityNameClean(v.severity());
  }

  /** A character other than a digit, '-', ';' or a space is absent from the ports text. */
  lemma PortsTextExcludes(ports: seq<int>, c: char)
    requires c != '-' && !('0' <= c <= '9') && c != ';' && c != ' '
    ensures c !in PortsText(ports)
  {
    var parts := seq(|ports|, i requires 0 <= i < |ports| => IntToString(ports[i]));
    forall i | 0 <= i < |parts| ensures c !in parts[i] {
      var s := IntToString(ports[i]);
      assert forall k :: 0 <= k < |s| ==> s[k] != c;
    }
    JoinExcludes(parts, "; ", c);
  }

  /** Neither a newline nor a comma appears in the findings text. */
  lemma FindingsTextClean(vs: seq<Vulnerability>, c: char)
    requires c == '\n' || c == ','
    ensures c !in FindingsText(vs)
  {
    var parts := seq(|vs|, i requires 0 <= i < |vs| => FindingLabel(vs[i]));
    forall i | 0 <= i < |parts| ensures c !in parts[i] {
      FindingLabelClean(vs[i]);
    }
    JoinExcludes(parts, "; ", c);
  }

  /** A device whose address, hardware address and vendor are free of `c`
      (a newline or a comma) has every field of its row free of `c`. */
  lemma FieldsClean(d: Device, c: char)
    requires c == '\n' || c == ','
    requires c !in d.ip && c !in d.mac && c !in d.vendor
    ensures forall i :: 0 <= i < |Fields(d)| ==> c !in Fields(d)[i]
  {
    var f := Fields(d);
    PortsTextExcludes(d.openPorts, c);
    FindingsTextClean(d.vulnerabilities, c);
    TypeNameClean(d.deviceType);
    SeverityNameClean(d.risk);
    QuoteExcludes(d.vendor, c);
    QuoteExcludes(PortsText(d.openPorts), c);
    QuoteExcludes(FindingsText(d.vulnerabilities), c);
    assert c !in f[0] && c !in f[1] && c !in f[2] && c !in f[3];
    assert c !in f[4] && c !in f[5] && c !in f[6];
  }

  /** Quoting adds only quote characters. */
  lemma QuoteExcludes(s: string, c: char)
    requires c != '"' && c !in s
    ensures c !in Quote(s)
  {
  }

  /** No title contains a newline. */
  lemma TitlesNoNewline()
    ensures forall i :: 0 <= i < |Titles| ==> '\n' !in Titles[i]
  {
    assert '\n' !in "IP Address" && '\n' !in "MAC Address" && '\n' !in "Vendor";
    assert '\n' !in "Device Type" && '\n' !in "Risk Level";
    assert '\n' !in "Open Ports" && '\n' !in "Vulnerabilities";
  }

  /** No title contains a comma. */
  lemma TitlesNoComma()
    ensures forall i :: 0 <= i < |Titles| ==> ',' !in Titles[i]
  {
    assert ',' !in "IP Address" && ',' !in "MAC Address" && ',' !in "Vendor";
    assert ',' !in "Device Type" && ',' !in "Risk Level";
    assert ',' !in "Open Ports" && ',' !in "Vulnerabilities";
  }

  /** The header line names seven columns and has no newline. */
  lemma HeaderColumns()
    ensures Split(HeaderLine, ',') == Titles
    ensures '\n' !in HeaderLine
  {
    TitlesNoNewline();
    TitlesNoComma();
    SplitJoin(Titles, ',');
    JoinExcludes(Titles, ",", '\n');
  }

  /** Where no field contains a comma, splitting a row at commas gives back
      its seven fields in column order, as many as the header names. */
  lemma RowFields(d: Device)
    requires ',' !in d.ip && ',' !in d.mac && ',' !in d.vendor
    ensures Split(Row(d), ',') == Fields(d)
    ensures |Split(Row(d), ',')| == |Split(HeaderLine, ',')|
  {
    FieldsClean(d, ',');
    SplitJoin(Fields(d), ',');
    HeaderColumns();
  }

  /** Splitting newline-terminated lines at newlines gives them back, then
      the empty piece after the final newline. */
  lemma {:induction false} LinesSplit(rows: seq<string>)
    requires forall i :: 0 <= i < |rows| ==> '\n' !in rows[i]
    ensures Split(Lines(rows), '\n') == rows + [""]
  {
    if rows != [] {
      SplitPiece(rows[0], '\n', Lines(rows[1..]));
      LinesSplit(rows[1..]);
      assert [rows[0]] + rows[1..] == rows;
    }
  }

  /** A row has no newline when its address, hardware address and vendor have none. */
  lemma RowNoNewline(d: Device)
    requires '\n' !in d.ip && '\n' !in d.mac && '\n' !in d.vendor
    ensures '\n' !in Row(d)
  {
    FieldsClean(d, '\n');
    JoinExcludes(Fields(d), ",", '\n');
  }

  /** A newline-free header line followed by newline-terminated newline-free
      lines splits into the header, the lines and a final empty piece. */
  lemma HeadedLines(header: string, rows: seq<string>)
    requires '\n' !in header
    requires forall i :: 0 <= i < |rows| ==> '\n' !in rows[i]
    ensures Split(header + "\n" + Lines(rows), '\n') == [header] + rows + [""]
  {
    LinesSplit(rows);
    SplitPiece(header, '\n', Lines(rows));
  }

  /** A string starts with its prefix, followed by the rest. */
  lemma DropPrefix(p: string, header: string, lines: string)
    ensures (p + header + "\n" + lines)[..|p|] == p
    ensures (p + header + "\n" + lines)[|p|..] == header + "\n" + lines
  {
    var body := header + "\n" + lines;
    assert p + header + "\n" + lines == p + body;
    assert (p + body)[..|p|] == p;
  }

  /** After the URI prefix the content is exactly the header line followed by
      one line per device in input order, every line newline-terminated, when
      no address, hardware address or vendor contains a newline. */
  lemma CsvLines(devices: seq<Device>)
    requires forall i :: 0 <= i < |devices| ==> '\n' !in devices[i].ip && '\n' !in devices[i].mac && '\n' !in devices[i].vendor
    ensures CsvContent(devices)[..|Prefix|] == Prefix
    ensures Split(CsvContent(devices)[|Prefix|..], '\n') == [HeaderLine] + RowTexts(devices) + [""]
    ensures |Split(CsvContent(devices)[|Prefix|..], '\n')| == |devices| + 2
  {
    var rows := RowTexts(devices);
    forall i | 0 <= i < |rows| ensures '\n' !in rows[i] {
      RowNoNewline(devices[i]);
    }
    HeaderColumns();
    HeadedLines(HeaderLine, rows);
    DropPrefix(Prefix, HeaderLine, Lines(rows));
  }

  /** For devices built from pool entries, such as the list a scan resolves
      with, the content splits into the header and one row per device, and
      each row splits back into its seven fields. */
  lemma PoolDevicesCsv(devices: seq<Device>)
    requires forall k :: 0 <= k < |devices| ==> ScanSimulation.EntryOf(devices[k]) in DevicePool.Pool
    ensures Split(CsvContent(devices)[|Prefix|..], '\n') == [HeaderLine] + RowTexts(devices) + [""]
    ensures forall k :: 0 <= k < |devices| ==> Split(Row(devices[k]), ',') == Fields(devices[k])
  {
    DevicePool.PoolClean();
    forall k | 0 <= k < |devices|
      ensures '\n' !in devices[k].ip && '\n' !in devices[k].mac && '\n' !in devices[k].vendor
      ensures Split(Row(devices[k]), ',') == Fields(devices[k])
    {
      var e := ScanSimulation.EntryOf(devices[k]);
      assert e.ip == devices[k].ip && e.mac == devices[k].mac && e.vendor == devices[k].vendor;
      DevicePool.NoSeparatorExcludes(e.ip);
      DevicePool.NoSeparatorExcludes(e.mac);
      DevicePool.NoSeparatorExcludes(e.vendor);
      RowFields(devices[k]);
    }
    CsvLines(devices);
  }
}

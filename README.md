# IoT device security scanner — a verified model of the scan core

This project models, in Dafny, the logic of the IoT device security scanner.
That logic lives in `services/scannerService.ts` and the controller in `App.tsx`.
It has five parts, one module each, plus three support modules:

- **Assessment** (`assignVulnerabilities`). Each `Math.random()` draw becomes one boolean of a `Draws` record. The result is a findings list, a risk level and an open-port list.
  - The method `AssignVulnerabilities` pushes onto local lists in the same order as the source. It is proved equal to the pure function `Assess`.
  - The lemmas about `Assess` state:
    - the port-list invariant;
    - that ports track findings;
    - the risk rule;
    - that the findings list is never empty;
    - one concrete scenario.
- **ScanSimulation** (`startScan`). A class `Scanner` holds the state the interval callback mutates: `progress`, the entries still to discover, the found list, and whether the interval was cleared.
  - Its `Tick` method is one run of the callback. The pure state machine `TickState` specifies it.
  - The invariant `Inv` says every chosen entry is accounted for exactly once. `Tick` preserves it.
  - `RunScan` runs a whole scan and states what the `startScan` promise delivers.
- **CsvReport** (`generateCSV`). The loop that builds `csvContent` is proved equal to `CsvContent`. Lemmas prove that the text splits back into the header line and one row per device, and that each row splits back into its seven fields.
- **PdfLayout** (`generatePDF`). This models the vertical cursor `y` and the page breaks of the nested loops. Every drawn element is recorded with its page and `y`. Lemmas cover:
  - the page bounds;
  - the break thresholds (260 before a device heading, 270 before a finding);
  - the reset to the top margin on a new page;
  - the per-device advance of 7+5+5+8+5 + 20·k + 5+10.
- **AppState** (`App.tsx`). A class `App` has the five `useState` fields and the four handlers and callbacks.
  - `RiskCounts` is the `reduce` over a `Record<Severity, number>`.
  - `Panels` gives the three status-panel conditions.
  - `RunSession` connects the controller to a complete scan.
- **Types** mirrors `types.ts`. **DevicePool** holds the static pool of seven devices (services/scannerService.ts:15-23) and what is proved about its literal entries. **Strings** holds `join`, its inverse `split`, decimal printing of numbers, and the character order used to sort by address.

Randomness, timers and the browser are inputs or are left out (see below):
- the shuffle of the pool is any permutation of it;
- the number of devices to find is an input in [2, 5];
- the "discover on this tick?" draw and the assessment draws are functions of the tick number.

**Two places where the code does less than one might expect; the model follows the code.**

- *Risk.* A natural rule would be that a device's risk is the highest severity among its findings. The code does not work that way. It derives risk from two counters, `high` and `medium` (services/scannerService.ts:29-54), and the Medium-severity "Unencrypted Admin Panel" finding never increments `medium`. So a device whose only finding is that one gets risk Low, not Medium. `Assessment.MaxSeverity` is that natural rule, written as a reference. `Assessment.RiskVersusMaxSeverity` states exactly when the two agree, and `Assessment.AdminPanelAloneIsLow` shows the case where they differ.
- *Progress reports.* One might expect every chosen device to be reported once through `onProgress`. The code does not do that. Only the device popped by a tick's own draw (services/scannerService.ts:86-99) is passed to `onProgress` (line 101). The devices popped by the final `while` loop (lines 106-116) reach the caller only through the resolved list. `ScanSimulation.RunScan` states that the resolved list has as many devices as were reported plus the `unreported` ones from that loop. If no tick's draw fires, nothing is reported and all `count` devices are unreported.

## Model

| member | source | states |
|---|---|---|
| Assessment.InsertKeepsAscending | services/scannerService.ts:66 | inserting into a strictly ascending list keeps it strictly ascending and adds exactly the inserted value |
| Assessment.SortedDistinctSpec | services/scannerService.ts:66 | `[...new Set(ports)].sort((a, b) => a - b)`: the result is strictly ascending and has exactly the members of the input |
| Assessment.AscendingUnique | services/scannerService.ts:66 | two strictly ascending lists with the same members are equal, so the sorted-deduplicated port list is determined by its members |
| Assessment.FiredMembers | services/scannerService.ts:31-52 | each catalogue finding is assigned iff its draw fires, Telnet only for cameras and FTP only for routers; the informational note is never among them; the list is empty iff nothing fires; the length is the number of fired draws |
| Assessment.ExtraPortsMembers | services/scannerService.ts:31-45 | port 22 is pushed iff default credentials fired, 23 iff Telnet fired on a camera, 21 iff FTP fired on a router, and no other port is pushed |
| Assessment.PortListInvariant | services/scannerService.ts:28-66 | the returned open-port list always contains 80 and 443, is strictly ascending, and holds only 21, 22, 23, 80 and 443 |
| Assessment.PortsTrackFindings | services/scannerService.ts:31-45 | port 22 is open iff "Default Credentials" was assigned, 23 iff "Unsecured Telnet", 21 iff "Unsecured FTP"; Telnet only on cameras and FTP only on routers |
| Assessment.FindingsNeverEmpty | services/scannerService.ts:54-64 | the findings list is never empty; "Standard Ports Open" appears iff no other finding fired, and it is then the only entry and the risk is Low |
| Assessment.RiskRule | services/scannerService.ts:29-54 | risk is High iff default credentials or Telnet was assigned; otherwise Medium iff FTP or outdated firmware was assigned; otherwise Low, even when the admin-panel finding is present |
| Assessment.MaxSeverity | services/scannerService.ts:7-13 | the reference rule "risk = highest finding severity", which the source does not compute and the counter rule is measured against: no finding ranks above the result, and some finding has it (Low for an empty list) |
| Assessment.MaxSeverityCases | services/scannerService.ts:7-13 | over the catalogue, the highest severity is High iff a High entry is present, and Low iff no catalogue entry is present |
| Assessment.RiskVersusMaxSeverity | services/scannerService.ts:46-54 | the counter-derived risk equals the highest severity among the findings except exactly when the admin-panel finding is the only Medium one and nothing High fired; in that case the risk is Low and the highest severity is Medium; conversely a Low risk with the admin-panel finding present always means the highest severity is Medium |
| Assessment.AdminPanelAloneIsLow | services/scannerService.ts:46-54 | with only the admin-panel draw firing, the only finding is the Medium "Unencrypted Admin Panel", the risk is Low, and the ports are [80, 443] |
| Assessment.CameraScenario | services/scannerService.ts:26-67 | the camera with default credentials and Telnet forced (and nothing else) gets risk High, ports [22, 23, 80, 443] and exactly those two findings |
| Assessment.AssignVulnerabilities | services/scannerService.ts:26-67 | the push-and-count procedure computes exactly `Assess` of the device's type and draws |
| ScanSimulation.StepsDerived | services/scannerService.ts:74-84 | `steps` is 5000/250 = 20 exactly and the increment 100/steps is 5 exactly, so 20 increments make exactly 100 |
| DevicePool.PoolMacsDistinct | services/scannerService.ts:15-23 | the hardware addresses in the device pool are pairwise distinct |
| ScanSimulation.Discovered | services/scannerService.ts:89-97 | the device built for a pool entry has the entry's fields, its hardware address as id, and the assessed risk, findings and ports |
| ScanSimulation.NextDevice | services/scannerService.ts:87-97 | the device discovered next is built from the last entry still to discover (`pop`) and has id equal to its hardware address |
| ScanSimulation.InsertByIpSpec | services/scannerService.ts:117 | inserting a device into a list sorted by address keeps it sorted and adds exactly that device (as a multiset) |
| ScanSimulation.SortByIpSpec | services/scannerService.ts:117 | sorting by address yields a list sorted by address that is a permutation of the input |
| ScanSimulation.SortEntries | services/scannerService.ts:117 | sorting keeps the multiset of pool entries the devices were built from |
| ScanSimulation.SortKeepsDevices | services/scannerService.ts:117 | the sorted list is sorted by address, a permutation of the input, has the same pool entries, and keeps ids equal to hardware addresses |
| ScanSimulation.StartInv | services/scannerService.ts:73-81 | the initial state (progress 0, the first `count` shuffled entries to discover, nothing found) satisfies the scan invariant |
| ScanSimulation.PopKeepsAccount | services/scannerService.ts:87-97 | popping and assessing one entry moves it from the entries to discover to the found devices, so every chosen entry is still accounted for once |
| ScanSimulation.FlushSpec | services/scannerService.ts:106-116 | the final `while` loop empties the entries to discover, only appends to the found list, adds one device per remaining entry, and keeps every entry accounted for |
| ScanSimulation.AdvanceSpec | services/scannerService.ts:84-99 | progress moves on by 5; a device is reported exactly when the draw fires and entries remain; that device is appended to the found list |
| ScanSimulation.FlushSortedSpec | services/scannerService.ts:106-117 | after the flush and the sort, nothing is left to discover, the found list is sorted by address, holds every device found before, and has one more device per remaining entry |
| ScanSimulation.TickKeepsInv | services/scannerService.ts:83-119 | a tick preserves the scan invariant: progress is a multiple of 5 up to 100, the interval is cleared exactly at 100, every chosen entry is either still to discover or found exactly once, and a cleared scan has nothing left and is sorted |
| ScanSimulation.TickSteps | services/scannerService.ts:83-119 | progress moves on by 5; the interval is cleared iff progress reaches 100; at most one device is reported, only while entries remain; before clearing, the reported device is appended to the found list; on clearing, the resolved list contains everything found before plus the reported device, and has one device per entry left |
| ScanSimulation.Scanner.constructor | services/scannerService.ts:73-81 | the first `count` entries of a permutation of the pool become the entries to discover, and the scan invariant holds |
| ScanSimulation.Scanner.Tick | services/scannerService.ts:83-119 | one run of the interval callback: the new state is `TickState` of the old; the value passed to `onProgress` is `min(100, progress)`; the devices passed with it are those found on this tick or `undefined`; the promise resolves exactly when the interval is cleared; the invariant is kept |
| ScanSimulation.Scanner.AdvanceAndDiscover | services/scannerService.ts:84-99 | the first half of the callback moves to `Advance` of the old state and returns the devices found on this tick |
| ScanSimulation.Scanner.DiscoverLast | services/scannerService.ts:87-97 | pops the last entry still to discover, assesses it and appends the device to the found list |
| ScanSimulation.Scanner.FlushAndSort | services/scannerService.ts:106-117 | the `while` loop followed by the sort moves to `FlushSorted` of the old state |
| DevicePool.PoolClean | services/scannerService.ts:15-23 | no address, hardware address or vendor in the pool contains a comma or a newline |
| ScanSimulation.AssessedFacts | services/scannerService.ts:89-97 | a device whose risk, findings and ports are what `assignVulnerabilities` returns for its type under some draws has ports 80 and 443 open, an ascending port list of known ports, at least one finding, and risk High iff default credentials or Telnet was assigned |
| ScanSimulation.FromPool | services/scannerService.ts:79-117 | devices whose pool entries are, as a multiset, drawn from the pool were each built from a pool entry |
| ScanSimulation.ResolvedDistinct | services/scannerService.ts:89-117 | devices built from distinct pool entries with distinct hardware addresses, with id = hardware address, have pairwise distinct ids and one device per chosen entry |
| ScanSimulation.FinishedFound | services/scannerService.ts:106-117 | a cleared scan has found exactly one device per chosen entry and is sorted by address |
| ScanSimulation.ObserveTick | services/scannerService.ts:101-117 | the reported progress is the new progress; before clearing, the reported devices are what was appended to the found list; the promise resolves with the found list, which contains everything reported |
| ScanSimulation.TickUntilDone | services/scannerService.ts:83-119 | ticking until the interval is cleared takes exactly 20 ticks reporting 5, 10, …, 100; every device passed to `onProgress` is in the resolved list; the resolved list has the reported devices plus the unreported ones the final loop discovered, which are all of them when no tick's draw fires |
| ScanSimulation.ReportsClimb | services/scannerService.ts:101 | the reported progress values never decrease, never exceed 100, start at 5 and end at exactly 100 |
| ScanSimulation.ScanResult | services/scannerService.ts:79-117 | a cleared scan over the first `count` entries of a shuffled pool resolves with `count` devices sorted by address, one per chosen entry, whose ids are their hardware addresses and pairwise distinct; each device comes from a pool entry and its risk, findings and ports are an `assignVulnerabilities` result for its type, so it has ports 80 and 443 open and at least one finding |
| ScanSimulation.RunScan | services/scannerService.ts:69-121 | the whole promise: 20 progress reports climbing by 5; the resolved list has one device per chosen entry (so `count`, between 2 and 5, of them); it is sorted by address; ids are hardware addresses and pairwise distinct; each device comes from a pool entry and was assessed by `assignVulnerabilities` for its type, so it has ports 80 and 443 open and at least one finding; every device reported during the scan is in it, and the rest (all `count` of them when no tick's draw fires) were discovered by the final loop and never reported |
| Strings.SplitJoin | services/scannerService.ts:129 | splitting at a character undoes `join` with that character whenever no part contains it |
| Strings.JoinExcludes | services/scannerService.ts:127-129 | a character in neither the parts nor the separator is not in the joined text |
| Strings.IntToString | services/scannerService.ts:127 | a port number prints as a non-empty text with a leading '-' exactly for negative numbers and only decimal digits after it |
| Strings.NatToStringValue | services/scannerService.ts:127 | the digits `String(n)` prints for a natural number denote n |
| Strings.NatToString | services/scannerService.ts:127 | a natural number prints as a non-empty run of decimal digits that starts with '0' only for zero, so there is no leading zero |
| Strings.IntToStringValue | services/scannerService.ts:127 | reading back the text `String(n)` prints for any port number gives n, so the ports column holds the port numbers themselves |
| Strings.StrLeTotal | services/scannerService.ts:117 | any two addresses are comparable in the sort order |
| Strings.StrLeTransitive | services/scannerService.ts:117 | the sort order is transitive |
| Strings.StrLeAntisymmetric | services/scannerService.ts:117 | addresses that compare both ways are equal |
| CsvReport.LinesSnoc | services/scannerService.ts:130 | appending a row appends it and a newline to the text |
| CsvReport.GenerateCsv | services/scannerService.ts:123-132 | the `forEach` loop builds exactly `CsvContent`: the prefix, the header line and newline, then each device's row and a newline, in input order |
| CsvReport.FindingLabelClean | services/scannerService.ts:128 | a finding label `name (severity)` contains no newline and no comma |
| CsvReport.FieldsClean | services/scannerService.ts:127-129 | if a device's address, hardware address and vendor are free of a newline (or a comma), so is every field of its row |
| CsvReport.HeaderColumns | services/scannerService.ts:125 | the header line splits at commas into the seven column titles, and has no newline |
| CsvReport.RowFields | services/scannerService.ts:129 | when the address, hardware address and vendor contain no comma, a row splits at commas back into its seven fields in column order (ip, mac, quoted vendor, type, risk, quoted ports joined by "; ", quoted "name (severity)" labels joined by "; "), as many as the header names |
| CsvReport.PortsTextExcludes | services/scannerService.ts:127 | the ports text holds only digits, '-', ';' and spaces, so no newline, comma or quote appears in it |
| CsvReport.FindingsTextClean | services/scannerService.ts:128 | the findings text contains no newline and no comma |
| CsvReport.RowNoNewline | services/scannerService.ts:129 | a row whose address, hardware address and vendor have no newline has no newline, so each device occupies exactly one line |
| CsvReport.LinesSplit | services/scannerService.ts:130 | newline-terminated, newline-free rows split at newlines back into the rows, followed by one empty piece |
| CsvReport.PoolDevicesCsv | services/scannerService.ts:123-132 | for devices built from pool entries, such as a scan's resolved list, the content splits into the header line and one row per device, and each row splits back into its seven fields |
| CsvReport.CsvLines | services/scannerService.ts:124-131 | after the `data:` prefix, the content splits at newlines into the header line, then one row per device in input order, then the empty piece after the final newline: `devices.length + 1` terminated lines |
| PdfLayout.GeneratePdf | services/scannerService.ts:144-205 | the nested loops draw exactly the placements of `Report` and end on its page count |
| PdfLayout.FindingBlocksSound | services/scannerService.ts:188-199 | each finding keeps every element on the page and well paginated, and leaves the cursor at most at 290 |
| PdfLayout.DeviceHeadSound | services/scannerService.ts:156-186 | the heading part of a device keeps every element on the page and well paginated |
| PdfLayout.DeviceBlockSound | services/scannerService.ts:155-205 | a whole device keeps every element on the page and well paginated, and only appends |
| PdfLayout.DeviceBlocksSound | services/scannerService.ts:155-205 | the loop over all devices keeps every element on the page and well paginated, and only appends to what was drawn before |
| PdfLayout.ReportSound | services/scannerService.ts:144-205 | the report starts with the title at y 15 on page 1; every element lies between 15 and 295; no device heading is below 260 and no finding below 270; a new page begins only one at a time and its first element is at y 15; the page count is the last element's page |
| PdfLayout.DeviceAdvance | services/scannerService.ts:155-205 | between breaks, a device with k findings moves the cursor down by 7+5+5+8+5 + 20·k + 5+10 and stays on its page |
| PdfLayout.FindingsAdvance | services/scannerService.ts:188-199 | findings that all start at or above 270 move the cursor down by 20 each without a page break |
| PdfLayout.HeadingOnFreshPage | services/scannerService.ts:156-159 | a device reached with the cursor below 260 has its heading at y 15 on the next page |
| AppState.AtMostOnePanel | App.tsx:58-91 | at most one of the three status panels is shown, and none exactly while a scan is running and not completed |
| AppState.RiskCounts | App.tsx:42-45 | each entry of the tally (`|| 0` when absent) is the number of devices with that risk, and a key is present iff that count is positive |
| AppState.CountsSum | App.tsx:42-45 | the High, Medium and Low tallies add up to the number of devices |
| AppState.App.constructor | App.tsx:13-17 | the initial state is not scanning, progress 0, no devices, no selection, not completed; only the ready-to-scan panel shows |
| AppState.App.StartScan | App.tsx:19-24 | starting sets scanning, clears completion, devices and selection, and resets progress to 0; no status panel shows |
| AppState.App.OnProgress | App.tsx:26-30 | the progress callback records the progress and appends the new devices after the existing ones, which are never removed or reordered |
| AppState.App.Complete | App.tsx:31-35 | completion replaces the devices with the resolved list, clears scanning and sets completed; the no-devices panel shows iff the list is empty, otherwise the overview |
| AppState.App.SelectDevice | App.tsx:38-40 | selecting a device makes it the selected device and changes nothing else |
| AppState.SessionTick | App.tsx:26-35 | one tick delivered to the controller keeps the shown devices equal to the scanner's found list and the shown progress equal to its progress; scanning ends exactly when the interval is cleared |
| AppState.RunSession | App.tsx:19-35 | a whole session ends completed and not scanning, with progress 100, `count` devices (2 to 5) sorted by address, one per chosen pool entry, no selection, and the overview panel shown |

## Left out

- Randomness (`Math.random`). Every draw is an explicit input:
  - the shuffle is any permutation of the pool;
  - the count is any value in [2, 5];
  - the per-tick discovery draw and the assessment draws are functions of the tick number, or of the position in the final flush.

  The probabilities (0.5, 0.7, 0.4, 0.6, 0.8, 0.5) are not modelled, because they only weight the inputs.
- Timers and promises (`setInterval`, `clearInterval`, `Promise`). They become one `Tick` call per period and a `resolved` result. The 250 ms period and 5000 ms duration appear only as the constants that fix 20 ticks.
- Two scans overlapping. A second start while one is running would leave the first interval running. This is concurrency, and the scan button is disabled while scanning (components/ScanControl.tsx:30).
- ScanSimulation.SortByIp: `localeCompare` is locale-dependent. It is modelled as plain character-code order (`Strings.StrLe`). The sort is modelled as insertion sort. The source's sort algorithm is not modelled; only its result (sorted and a permutation) is stated.
- Types.Vulnerability: the vulnerability record is modelled as the closed set of the six records the scanner can produce: the five catalogue entries and the informational note. Each field is a function of the record. The source pushes shared references to these catalogue objects, and that sharing is not modelled.
- CsvReport.CsvLines: the line-structure lemma assumes that no address, hardware address or vendor contains a newline. CsvReport.RowFields likewise assumes none contains a comma. `DevicePool.PoolClean` proves this for every pool entry, and `CsvReport.PoolDevicesCsv` applies both lemmas to any list of devices built from pool entries, such as the list a scan resolves with. The source quotes the vendor but does not double embedded quotes, so it does not follow section 2 of RFC 4180, and the model makes no such claim.
- The download in `generateCSV` is browser I/O and is not modelled: `encodeURI`, the anchor element, `click`, the file name.
- PdfLayout.GeneratePdf: the jsPDF calls are not modelled: fonts, colours (including the risk colour of a heading), the x positions, the text itself, `maxWidth` wrapping and `doc.save`. The model records only what is drawn, on which page and at which `y`. Wrapped text takes more room on the page than the fixed 10 the cursor advances, and that is not modelled.
- The scan date (`new Date().toLocaleDateString()`) depends on the clock and the locale. Only its placement is modelled.
- The JSX rendering, the presentational components (components/*.tsx) and the chart are not modelled; only the three status-panel conditions are.
  - React's asynchronous state batching is not modelled: each handler's assignments take effect at once.
  - `RunSession` assumes nothing else happens during a scan. The device list, and with it selection, is only rendered inside the overview panel (App.tsx:66-89), and that panel is not shown while scanning.

## Notes on correspondence

- The specification functions carry no contract of their own. The lemmas named in the table characterize them:
  - `Assessment.Assess` and `Assessment.CounterRisk` (services/scannerService.ts:26-67, 54): `PortListInvariant`, `PortsTrackFindings`, `FindingsNeverEmpty`, `RiskRule` and `RiskVersusMaxSeverity`;
  - `ScanSimulation.TickState` (lines 83-119): `TickKeepsInv` and `TickSteps`;
  - `CsvReport.CsvContent` (lines 123-132): `CsvLines`, `HeaderColumns` and `RowFields`;
  - `PdfLayout.Report` (lines 144-205): `ReportSound`, `DeviceAdvance` and `HeadingOnFreshPage`;
  - `AppState.Count` (App.tsx:42-45): `RiskCounts` and `CountsSum`;
  - `AppState.Panels` (App.tsx:58-91): `AtMostOnePanel`.
- `CsvReport.HeaderLine` is written as the seven titles joined by commas. That is the header literal of services/scannerService.ts:125.

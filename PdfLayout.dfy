/** The vertical layout of the report `generatePDF` draws
    (services/scannerService.ts:144-205). The drawing calls belong to the PDF
    library; what the function itself decides is where each piece of text
    goes: a cursor `y` (millimetres from the top of the page) that moves down
    by fixed amounts and is reset to 15 on a fresh page when it has passed
    260 before a device heading or 270 before a finding. The model records
    every drawn element as a placement (what, on which page, at which `y`). */
module PdfLayout {
  import opened Types

  /** The top margin a fresh page starts at. */
  const Top := 15
  /** A device heading is not started below this line. */
  const HeadingLimit := 260
  /** A finding is not started below this line. */
  const FindingLimit := 270

  /** What is drawn: the title, the scan date, and per device its heading,
      three detail lines, the findings label, a description and a
      recommendation per finding, and the closing rule. */
  datatype Part = Title | ScanDate | Heading | Mac | Vendor | Ports | FindingsLabel | Finding | Recommendation | Rule

  datatype Placement = Placement(part: Part, page: nat, y: int)

  /** The cursor and the current page, with everything drawn so far. */
  datatype Layout = Layout(y: int, page: nat, marks: seq<Placement>)

  /** Draws `part` at the cursor, then moves the cursor down by `dy`. */
  function Place(l: Layout, part: Part, dy: int): Layout
  {
    Layout(l.y + dy, l.page, l.marks + [Placement(part, l.page, l.y)])
  }

  /** `if (y > limit) { doc.addPage(); y = 15; }` */
  function BreakIf(l: Layout, limit: int): Layout
  {
    if l.y > limit then Layout(Top, l.page + 1, l.marks) else l
  }

  /** The title and the scan date at the top of the first page. */
  function Opening(): Layout
  {
    Place(Place(Layout(Top, 1, []), Title, 10), ScanDate, 15)
  }

  /** One finding: a page break if needed, the description, then the recommendation. */
  function FindingBlock(l: Layout): Layout
  {
    Place(Place(BreakIf(l, FindingLimit), Finding, 10), Recommendation, 10)
  }

  /** The first `k` findings of a device, in order. */
  function FindingBlocks(l: Layout, k: nat): Layout
  {
    if k == 0 then l else FindingBlock(FindingBlocks(l, k - 1))
  }

  /** The heading part of a device: a page break if needed, the heading, the
      MAC, vendor and ports lines and the findings label. */
  function DeviceHead(l: Layout): Layout
  {
    Place(Place(Place(Place(Place(BreakIf(l, HeadingLimit), Heading, 7), Mac, 5), Vendor, 5), Ports, 8), FindingsLabel, 5)
  }

  /** The closing rule, drawn 5 below the cursor, and the gap after it. */
  function Closing(l: Layout): Layout
  {
    Place(l.(y := l.y + 5), Rule, 10)
  }

  /** One device with `k` findings. */
  function DeviceBlock(l: Layout, k: nat): Layout
  {
    Closing(FindingBlocks(DeviceHead(l), k))
  }

  /** The devices whose finding counts are `counts`, in order. */
  function DeviceBlocks(l: Layout, counts: seq<nat>): Layout
  {
    if counts == [] then l else DeviceBlock(DeviceBlocks(l, counts[..|counts| - 1]), counts[|counts| - 1])
  }

  /** Only the number of findings of each device affects the layout. */
  function FindingCounts(devices: seq<Device>): (r: seq<nat>)
    ensures |r| == |devices|
    ensures forall i :: 0 <= i < |devices| ==> r[i] == |devices[i].vulnerabilities|
  {
    seq(|devices|, i requires 0 <= i < |devices| => |devices[i].vulnerabilities|)
  }

  /** The whole report. */
  function Report(devices: seq<Device>): Layout
  {
    DeviceBlocks(Opening(), FindingCounts(devices))
  }

  /** `generatePDF`: the opening lines, then the nested `forEach` loops over
      the devices and their findings. Returns what was drawn and the number
      of pages. */
  method GeneratePdf(devices: seq<Device>) returns (marks: seq<Placement>, pages: nat)
    ensures marks == Report(devices).marks && pages == Report(devices).page
  {
    var y := Top;
    pages := 1;
    marks := [Placement(Title, pages, y)];
    y := y + 10;
    marks := marks + [Placement(ScanDate, pages, y)];
    y := y + 15;
    ghost var counts := FindingCounts(devices);

    for i := 0 to |devices|
      invariant Layout(y, pages, marks) == DeviceBlocks(Opening(), counts[..i])
    {
      ghost var before := Layout(y, pages, marks);
      if y > HeadingLimit {
        pages := pages + 1;
        y := Top;
      }
      marks := marks + [Placement(Heading, pages, y)];
      y := y + 7;
      marks := marks + [Placement(Mac, pages, y)];
      y := y + 5;
      marks := marks + [Placement(Vendor, pages, y)];
      y := y + 5;
      marks := marks + [Placement(Ports, pages, y)];
      y := y + 8;
      marks := marks + [Placement(FindingsLabel, pages, y)];
      y := y + 5;
      ghost var head := Layout(y, pages, marks);
      assert head == DeviceHead(before);

      var vulns := devices[i].vulnerabilities;
      for j := 0 to |vulns|
        invariant Layout(y, pages, marks) == FindingBlocks(head, j)
      {
        if y > FindingLimit {
          pages := pages + 1;
          y := Top;
        }
        marks := marks + [Placement(Finding, pages, y)];
        y := y + 10;
        marks := marks + [Placement(Recommendation, pages, y)];
        y := y + 10;
      }

      assert counts[i] == |vulns|;
      ghost var findings := Layout(y, pages, marks);
      y := y + 5;
      marks := marks + [Placement(Rule, pages, y)];
      y := y + 10;
      assert Layout(y, pages, marks) == Closing(findings);
      assert counts[..i + 1][..i] == counts[..i];
      assert DeviceBlocks(Opening(), counts[..i + 1]) == DeviceBlock(before, counts[i]);
    }
    assert counts[..|devices|] == counts;
  }

  /** Where an element may be drawn: on the page between the top margin and
      295, a heading no lower than 260 and a finding no lower than 270. */
  predicate WellPlaced(m: Placement)
  {
    && Top <= m.y <= 295
    && (m.part == Heading ==> m.y <= HeadingLimit)
    && (m.part == Finding ==> m.y <= FindingLimit)
  }

  /** Consecutive elements are on the same page, or the second starts the
      next page at the top margin. */
  predicate NextPlacement(a: Placement, b: Placement)
  {
    b.page == a.page || (b.page == a.page + 1 && b.y == Top)
  }

  /** Everything drawn so far starts with the title at the top of page 1, is
      well placed and paginated, and the cursor is on the last element's page
      within the range a device leaves it in. */
  predicate Sound(l: Layout)
  {
    && |l.marks| > 0
    && l.marks[0] == Placement(Title, 1, Top)
    && (forall i :: 0 <= i < |l.marks| ==> WellPlaced(l.marks[i]))
    && (forall i :: 0 < i < |l.marks| ==> NextPlacement(l.marks[i - 1], l.marks[i]))
    && l.page == l.marks[|l.marks| - 1].page
    && Top <= l.y <= 305
  }

  /** Placing an element keeps the layout sound when the element is well
      placed and on the cursor's page. */
  lemma PlaceSound(l: Layout, part: Part, dy: int)
    requires Sound(l)
    requires WellPlaced(Placement(part, l.page, l.y))
    requires Top <= l.y + dy <= 305
    ensures Sound(Place(l, part, dy))
  {
  }

  /** A page break followed by placing an element keeps the layout sound. */
  lemma BreakPlaceSound(l: Layout, limit: int, part: Part, dy: int)
    requires Sound(l) && Top <= limit
    requires var b := BreakIf(l, limit); WellPlaced(Placement(part, b.page, b.y)) && Top <= b.y + dy <= 305
    ensures Sound(Place(BreakIf(l, limit), part, dy))
  {
    var b := BreakIf(l, limit);
    var r := Place(b, part, dy);
    assert r.marks[|l.marks|] == Placement(part, b.page, b.y);
    assert NextPlacement(l.marks[|l.marks| - 1], r.marks[|l.marks|]);
  }

  /** A finding keeps the layout sound and leaves the cursor at most at 290. */
  lemma {:induction false} FindingBlocksSound(l: Layout, k: nat)
    requires Sound(l) && l.y <= 290
    ensures var r := FindingBlocks(l, k);
      Sound(r) && r.y <= 290 && l.marks <= r.marks
  {
    if k > 0 {
      FindingBlocksSound(l, k - 1);
      var m := FindingBlocks(l, k - 1);
      var b := BreakIf(m, FindingLimit);
      BreakPlaceSound(m, FindingLimit, Finding, 10);
      PlaceSound(Place(b, Finding, 10), Recommendation, 10);
    }
  }

  /** The heading part of a device keeps the layout sound and leaves the
      cursor at most at 290. */
  lemma DeviceHeadSound(l: Layout)
    requires Sound(l)
    ensures var h := DeviceHead(l);
      Sound(h) && h.y <= 290 && l.marks <= h.marks
  {
    var b := BreakIf(l, HeadingLimit);
    BreakPlaceSound(l, HeadingLimit, Heading, 7);
    var h1 := Place(b, Heading, 7);
    PlaceSound(h1, Mac, 5);
    var h2 := Place(h1, Mac, 5);
    PlaceSound(h2, Vendor, 5);
    var h3 := Place(h2, Vendor, 5);
    PlaceSound(h3, Ports, 8);
    var h4 := Place(h3, Ports, 8);
    PlaceSound(h4, FindingsLabel, 5);
  }

  /** A device keeps the layout sound. */
  lemma DeviceBlockSound(l: Layout, k: nat)
    requires Sound(l)
    ensures Sound(DeviceBlock(l, k)) && l.marks <= DeviceBlock(l, k).marks
  {
    var h := DeviceHead(l);
    DeviceHeadSound(l);
    FindingBlocksSound(h, k);
    var f := FindingBlocks(h, k);
    var g := f.(y := f.y + 5);
    assert Sound(g);
    PlaceSound(g, Rule, 10);
    assert DeviceBlock(l, k) == Place(g, Rule, 10);
  }

  lemma {:induction false} DeviceBlocksSound(l: Layout, counts: seq<nat>)
    requires Sound(l)
    ensures Sound(DeviceBlocks(l, counts)) && l.marks <= DeviceBlocks(l, counts).marks
  {
    if counts != [] {
      DeviceBlocksSound(l, counts[..|counts| - 1]);
      DeviceBlockSound(DeviceBlocks(l, counts[..|counts| - 1]), counts[|counts| - 1]);
    }
  }

  /** Every element of the report is drawn on the page between the top margin
      and 295; no device heading is placed below 260 and no finding below
      270; the report starts with the title at the top of page 1; a new page
      is started only one at a time and its first element is at the top
      margin; and the page count is the page of the last element. */
  lemma ReportSound(devices: seq<Device>)
    ensures var r := Report(devices);
      && |r.marks| >= 2
      && r.marks[0] == Placement(Title, 1, Top)
      && (forall i :: 0 <= i < |r.marks| ==> WellPlaced(r.marks[i]))
      && (forall i :: 0 < i < |r.marks| ==> NextPlacement(r.marks[i - 1], r.marks[i]))
      && r.page == r.marks[|r.marks| - 1].page
  {
    var o := Opening();
    var t := Layout(Top + 10, 1, [Placement(Title, 1, Top)]);
    assert Place(Layout(Top, 1, []), Title, 10) == t;
    PlaceSound(t, ScanDate, 15);
    DeviceBlocksSound(o, FindingCounts(devices));
  }

  /** Between page breaks a device with `k` findings moves the cursor down by
      7+5+5+8+5 for its heading lines, 20 per finding and 5+10 for the rule,
      and stays on the same page. */
  lemma DeviceAdvance(l: Layout, k: nat)
    requires l.y <= HeadingLimit
    requires k > 0 ==> l.y + 30 + 20 * (k - 1) <= FindingLimit
    ensures DeviceBlock(l, k).y == l.y + 7 + 5 + 5 + 8 + 5 + 20 * k + 5 + 10
    ensures DeviceBlock(l, k).page == l.page
  {
    assert BreakIf(l, HeadingLimit) == l;
    var h := DeviceHead(l);
    assert h.y == l.y + 30 && h.page == l.page;
    FindingsAdvance(h, k);
  }

  /** Findings that all start at or above 270 advance the cursor by 20 each
      without a page break. */
  lemma {:induction false} FindingsAdvance(l: Layout, k: nat)
    requires k > 0 ==> l.y + 20 * (k - 1) <= FindingLimit
    ensures FindingBlocks(l, k).y == l.y + 20 * k && FindingBlocks(l, k).page == l.page
  {
    if k > 0 {
      FindingsAdvance(l, k - 1);
    }
  }

  /** A device that starts below 260 is moved to the top of a new page. */
  lemma HeadingOnFreshPage(l: Layout, k: nat)
    requires l.y > HeadingLimit
    ensures |l.marks| < |DeviceBlock(l, k).marks|
    ensures DeviceBlock(l, k).marks[|l.marks|] == Placement(Heading, l.page + 1, Top)
  {
    var h := DeviceHead(l);
    assert h.marks[|l.marks|] == Placement(Heading, l.page + 1, Top);
    FindingBlocksPrefix(h, k);
    var f := FindingBlocks(h, k);
    assert DeviceBlock(l, k).marks == f.marks + [Placement(Rule, f.page, f.y + 5)];
  }

  /** Findings only append to what has been drawn. */
  lemma {:induction false} FindingBlocksPrefix(l: Layout, k: nat)
    ensures l.marks <= FindingBlocks(l, k).marks
  {
    if k > 0 {
      FindingBlocksPrefix(l, k - 1);
    }
  }
}

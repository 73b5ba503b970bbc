/**
 * `PrintoutRecipe`: combining printouts and paper with one string (and optionally one
 * leather) into a multi-page printout (or a printed book).
 *
 * The crafting grid is a sequence of cells in row-major order. A printout holds whole
 * pages of `LINES_PER_PAGE` text and colour lines each, so its page count and its line
 * count always agree.
 */
module PrintoutRecipe {
  import opened Wrappers

  /**
   * `ItemPrintout.LINES_PER_PAGE` and `ItemPrintout.MAX_PAGES`. Where a page count is
   * multiplied by the lines per page, the value 21 is written out, so that the arithmetic
   * about line counts stays linear.
   */
  const LINES_PER_PAGE: nat := 21
  const MAX_PAGES: nat := 16
  /** The length of the `printouts` array that `assemble` collects into. */
  const MAX_SHEETS: nat := 9

  /** One page of a printout: its text lines and its colour lines. */
  type Page = p: (seq<string>, seq<string>) | |p.0| == LINES_PER_PAGE && |p.1| == LINES_PER_PAGE
    witness (seq(21, _ => ""), seq(21, _ => ""))

  datatype PrintoutType = Single | Multiple | Book

  /** What a crafting cell holds, as far as the recipe distinguishes it. */
  datatype Cell =
    | Blank
    | Printout(kind: PrintoutType, title: Option<string>, pages: seq<Page>)
    | Paper
    | StringItem
    | Leather
    | Other

  /** The stack `assemble` builds. */
  datatype Printed = Printed(book: bool, title: Option<string>, text: seq<string>, colours: seq<string>)

  /** `assemble`'s outcome; `Overflow` is a tenth sheet overrunning the `printouts` array. */
  datatype Assembled = NoMatch | Crafted(result: Printed) | Overflow

  /** `canCraftInDimensions`: the grid is at least 3 by 3, so it has room for nine cells. */
  function CanCraftInDimensions(x: int, y: int): (r: bool)
    ensures r <==> x >= 3 && y >= 3
    ensures r ==> x * y >= MAX_SHEETS
  {
    x >= 3 && y >= 3
  }

  /** A cell collected into the page list: paper or a printout that is not a book. */
  predicate IsSheet(c: Cell) {
    c.Paper? || (c.Printout? && c.kind != Book)
  }

  predicate IsPrintoutSheet(c: Cell) {
    c.Printout? && c.kind != Book
  }

  /** The cells the recipe accepts at all. */
  predicate Allowed(c: Cell) {
    c.Blank? || IsSheet(c) || c.StringItem? || c.Leather?
  }

  predicate AllAllowed(cells: seq<Cell>) {
    forall i :: 0 <= i < |cells| ==> Allowed(cells[i])
  }

  function BlankLines(): (r: seq<string>)
    ensures |r| == LINES_PER_PAGE
  {
    seq(LINES_PER_PAGE, _ => "")
  }

  function PagesText(pages: seq<Page>): (r: seq<string>)
    ensures |r| == 21 * |pages|
  {
    if pages == [] then [] else pages[0].0 + PagesText(pages[1..])
  }

  function PagesColours(pages: seq<Page>): (r: seq<string>)
    ensures |r| == 21 * |pages|
  {
    if pages == [] then [] else pages[0].1 + PagesColours(pages[1..])
  }

  /** The pages a sheet counts for: one for paper, the page count of a printout. */
  function SheetPages(c: Cell): nat {
    if c.Paper? then 1 else if c.Printout? then |c.pages| else 0
  }

  /** The lines a sheet contributes: a blank page for paper, its own lines for a printout. */
  function SheetText(c: Cell): (r: seq<string>)
    ensures |r| == 21 * SheetPages(c)
  {
    if c.Paper? then BlankLines() else if c.Printout? then PagesText(c.pages) else []
  }

  function SheetColours(c: Cell): (r: seq<string>)
    ensures |r| == 21 * SheetPages(c)
  {
    if c.Paper? then BlankLines() else if c.Printout? then PagesColours(c.pages) else []
  }

  /** The total page count of a run of sheets. */
  function Pages(sheets: seq<Cell>): nat {
    if sheets == [] then 0 else Pages(sheets[..|sheets| - 1]) + SheetPages(sheets[|sheets| - 1])
  }

  /** The text of a run of sheets, one after the other. */
  function Text(sheets: seq<Cell>): (r: seq<string>)
    ensures |r| == 21 * Pages(sheets)
  {
    if sheets == [] then [] else Text(sheets[..|sheets| - 1]) + SheetText(sheets[|sheets| - 1])
  }

  function Colours(sheets: seq<Cell>): (r: seq<string>)
    ensures |r| == 21 * Pages(sheets)
  {
    if sheets == [] then [] else Colours(sheets[..|sheets| - 1]) + SheetColours(sheets[|sheets| - 1])
  }

  /** The sheets among the cells, in row-major order. */
  function Sheets(cells: seq<Cell>): (r: seq<Cell>)
    ensures forall i :: 0 <= i < |r| ==> IsSheet(r[i])
  {
    if cells == [] then []
    else Sheets(cells[..|cells| - 1]) + (if IsSheet(cells[|cells| - 1]) then [cells[|cells| - 1]] else [])
  }

  predicate HasPrintout(cells: seq<Cell>) {
    exists i :: 0 <= i < |cells| && IsPrintoutSheet(cells[i])
  }

  /** The counters and flags of `assemble`'s grid scan, or how the scan ended early. */
  datatype Scan =
    | Scanning(numPages: nat, sheets: seq<Cell>, stringFound: bool, leatherFound: bool, printoutFound: bool)
    | Rejected
    | Overflowed

  const START: Scan := Scanning(0, [], false, false, false)

  /** One cell of the scan: collect a sheet, note the first string and leather, reject anything else. */
  function ScanCell(s: Scan, c: Cell): Scan {
    if !s.Scanning? || c.Blank? then s
    else if IsSheet(c) then
      if |s.sheets| >= MAX_SHEETS then Overflowed
      else s.(numPages := s.numPages + SheetPages(c), sheets := s.sheets + [c], printoutFound := s.printoutFound || c.Printout?)
    else if c.StringItem? && !s.stringFound then s.(stringFound := true)
    else if c.Leather? && !s.leatherFound then s.(leatherFound := true)
    else Rejected
  }

  /** The scan over a row-major prefix of the grid. */
  function ScanAll(cells: seq<Cell>): Scan {
    if cells == [] then START else ScanCell(ScanAll(cells[..|cells| - 1]), cells[|cells| - 1])
  }

  /** The grid passes the scan: only accepted items, at most one string and one leather, at most nine sheets. */
  predicate Acceptable(cells: seq<Cell>) {
    && AllAllowed(cells)
    && multiset(cells)[StringItem] <= 1
    && multiset(cells)[Leather] <= 1
    && |Sheets(cells)| <= MAX_SHEETS
  }

  /** The title of the first collected sheet when it is a printout. */
  function Title(sheets: seq<Cell>): Option<string> {
    if sheets != [] && sheets[0].Printout? then sheets[0].title else None
  }

  /** The build step after the scan. */
  function Build(s: Scan): Assembled {
    match s
    case Rejected => NoMatch
    case Overflowed => Overflow
    case Scanning(numPages, sheets, stringFound, leatherFound, printoutFound) =>
      if numPages <= MAX_PAGES && stringFound && printoutFound && |sheets| >= (if leatherFound then 1 else 2)
      then Crafted(Printed(leatherFound, Title(sheets), Text(sheets), Colours(sheets)))
      else NoMatch
  }

  /** What `assemble` computes for a grid. */
  function AssembleOf(cells: seq<Cell>): Assembled {
    Build(ScanAll(cells))
  }

  lemma {:induction false} SheetsAppend(cells: seq<Cell>, c: Cell)
    ensures Sheets(cells + [c]) == Sheets(cells) + (if IsSheet(c) then [c] else [])
  {
    assert (cells + [c])[..|cells|] == cells;
  }

  lemma HasPrintoutAppend(init: seq<Cell>, c: Cell)
    ensures HasPrintout(init + [c]) <==> HasPrintout(init) || IsPrintoutSheet(c)
  {
    var cells := init + [c];
    if HasPrintout(init) {
      var i :| 0 <= i < |init| && IsPrintoutSheet(init[i]);
      assert cells[i] == init[i];
    }
    assert cells[|init|] == c;
    if HasPrintout(cells) && !IsPrintoutSheet(c) {
      var i :| 0 <= i < |cells| && IsPrintoutSheet(cells[i]);
      assert i < |init|;
      assert init[i] == cells[i];
    }
  }

  lemma AcceptableAppend(init: seq<Cell>, c: Cell)
    ensures Acceptable(init + [c]) <==>
      && Acceptable(init) && Allowed(c)
      && (c.StringItem? ==> StringItem !in multiset(init))
      && (c.Leather? ==> Leather !in multiset(init))
      && (IsSheet(c) ==> |Sheets(init)| < MAX_SHEETS)
  {
    SheetsAppend(init, c);
    AllAllowedAppend(init, c);
    var m := multiset(init + [c]);
    assert m == multiset(init) + multiset{c};
    assert m[StringItem] == multiset(init)[StringItem] + (if c.StringItem? then 1 else 0);
    assert m[Leather] == multiset(init)[Leather] + (if c.Leather? then 1 else 0);
  }

  lemma AllAllowedAppend(init: seq<Cell>, c: Cell)
    ensures AllAllowed(init + [c]) <==> AllAllowed(init) && Allowed(c)
  {
    var cells := init + [c];
    assert cells[|init|] == c;
    if AllAllowed(cells) {
      forall i | 0 <= i < |init|
        ensures Allowed(init[i])
      {
        assert init[i] == cells[i];
      }
    }
  }

  /** A running scan holds the sheets of the grid, in order. */
  lemma {:induction false} ScanSheets(cells: seq<Cell>)
    ensures ScanAll(cells).Scanning? ==> ScanAll(cells).sheets == Sheets(cells)
  {
    if cells != [] {
      var init, c := cells[..|cells| - 1], cells[|cells| - 1];
      assert cells == init + [c];
      ScanSheets(init);
      SheetsAppend(init, c);
    }
  }

  /** A running scan has noted whether a string, a leather and a printout occur. */
  lemma {:induction false} ScanFlags(cells: seq<Cell>)
    ensures ScanAll(cells).Scanning? ==>
      var s := ScanAll(cells);
      && (s.stringFound <==> StringItem in multiset(cells))
      && (s.leatherFound <==> Leather in multiset(cells))
      && (s.printoutFound <==> HasPrintout(cells))
  {
    if cells != [] {
      var init, c := cells[..|cells| - 1], cells[|cells| - 1];
      assert cells == init + [c];
      ScanFlags(init);
      HasPrintoutAppend(init, c);
      assert multiset(cells) == multiset(init) + multiset{c};
    }
  }

  /** The scan survives the grid exactly when the grid is acceptable. */
  lemma {:induction false} ScanAccepts(cells: seq<Cell>)
    ensures ScanAll(cells).Scanning? <==> Acceptable(cells)
  {
    if cells != [] {
      var init, c := cells[..|cells| - 1], cells[|cells| - 1];
      assert cells == init + [c];
      ScanAccepts(init);
      ScanSheets(init);
      ScanFlags(init);
      AcceptableAppend(init, c);
    }
  }

  /**
   * The scan summarised: it survives the whole grid exactly when the grid is acceptable,
   * and then its counters are the sheets in order, their pages and whether a string,
   * a leather and a printout occur.
   */
  lemma ScanSummary(cells: seq<Cell>)
    ensures ScanAll(cells).Scanning? <==> Acceptable(cells)
    ensures ScanAll(cells).Scanning? ==>
      var s := ScanAll(cells);
      && s.sheets == Sheets(cells)
      && s.numPages == Pages(Sheets(cells))
      && (s.stringFound <==> StringItem in multiset(cells))
      && (s.leatherFound <==> Leather in multiset(cells))
      && (s.printoutFound <==> HasPrintout(cells))
  {
    ScanAccepts(cells);
    ScanSheets(cells);
    ScanFlags(cells);
    ScanCountsPages(cells);
  }

  /** The scan of one more cell is one more step of the scan. */
  lemma ScanOneMore(cells: seq<Cell>, k: nat)
    requires k < |cells|
    ensures ScanAll(cells[..k + 1]) == ScanCell(ScanAll(cells[..k]), cells[k])
  {
    assert cells[..k + 1][..k] == cells[..k];
  }

  /** The page counter of a running scan is the page count of the sheets it collected. */
  lemma {:induction false} ScanCountsPages(cells: seq<Cell>)
    ensures ScanAll(cells).Scanning? ==> ScanAll(cells).numPages == Pages(ScanAll(cells).sheets)
  {
    if cells != [] {
      var init, c := cells[..|cells| - 1], cells[|cells| - 1];
      ScanCountsPages(init);
      var s := ScanAll(init);
      if s.Scanning? && IsSheet(c) && |s.sheets| < MAX_SHEETS {
        assert (s.sheets + [c])[..|s.sheets|] == s.sheets;
      }
    }
  }

  /** The scan overflows only on a tenth sheet. */
  lemma {:induction false} ScanOverflow(cells: seq<Cell>)
    ensures ScanAll(cells).Overflowed? ==> |Sheets(cells)| > MAX_SHEETS
  {
    if cells != [] {
      var init, c := cells[..|cells| - 1], cells[|cells| - 1];
      assert cells == init + [c];
      ScanOverflow(init);
      ScanSummary(init);
      SheetsAppend(init, c);
    }
  }

  /** Once the scan stops early, the rest of the grid does not matter. */
  lemma {:induction false} ScanStops(cells: seq<Cell>, k: nat)
    requires k <= |cells| && !ScanAll(cells[..k]).Scanning?
    ensures ScanAll(cells) == ScanAll(cells[..k])
    decreases |cells| - k
  {
    if k < |cells| {
      assert cells[..k + 1][..k] == cells[..k];
      ScanStops(cells, k + 1);
    } else {
      assert cells[..k] == cells;
    }
  }

  /**
   * `assemble` crafts exactly when the grid holds only sheets, at most one leather and
   * exactly one string, at least one printout, at most nine sheets of at most
   * `MAX_PAGES` pages in all, and two sheets or more unless leather is present. The
   * result is a book exactly when leather is present; its text and colours are the
   * sheets' lines in grid order, `LINES_PER_PAGE` per page; its title is the first
   * sheet's when that is a printout.
   */
  lemma CraftedExactly(cells: seq<Cell>)
    ensures AssembleOf(cells).Crafted? <==>
      && Acceptable(cells)
      && multiset(cells)[StringItem] == 1
      && HasPrintout(cells)
      && Pages(Sheets(cells)) <= MAX_PAGES
      && |Sheets(cells)| >= (if Leather in multiset(cells) then 1 else 2)
    ensures AssembleOf(cells).Crafted? ==>
      var r := AssembleOf(cells).result;
      && (r.book <==> Leather in multiset(cells))
      && r.text == Text(Sheets(cells)) && r.colours == Colours(Sheets(cells))
      && |r.text| == |r.colours| == 21 * Pages(Sheets(cells))
      && r.title == Title(Sheets(cells))
    ensures AssembleOf(cells).Overflow? ==> |Sheets(cells)| > MAX_SHEETS
  {
    ScanSummary(cells);
    ScanOverflow(cells);
  }

  /** Any item the recipe does not know, or a second string or leather, spoils the grid. */
  lemma ExtraneousItemRejects(cells: seq<Cell>, i: nat, j: nat)
    requires i < j < |cells|
    requires cells[i] == cells[j] && (cells[i].StringItem? || cells[i].Leather?)
    ensures !AssembleOf(cells).Crafted?
  {
    CraftedExactly(cells);
    assert cells == cells[..i] + [cells[i]] + cells[i + 1..j] + [cells[j]] + cells[j + 1..];
    assert multiset(cells)[cells[i]] >= 2;
  }

  /** `matches`: whether `assemble` yields a stack; `None` when it overflows and throws. */
  function Matches(cells: seq<Cell>): (r: Option<bool>)
    ensures r == Some(true) <==>
      && Acceptable(cells)
      && multiset(cells)[StringItem] == 1
      && HasPrintout(cells)
      && Pages(Sheets(cells)) <= MAX_PAGES
      && |Sheets(cells)| >= (if Leather in multiset(cells) then 1 else 2)
    ensures r.None? ==> |Sheets(cells)| > MAX_SHEETS
  {
    CraftedExactly(cells);
    var a := AssembleOf(cells);
    if a.Overflow? then None else Some(a.Crafted?)
  }

  /** The next row starts one width further on, still inside the grid. */
  lemma GridRow(y: nat, width: nat, height: nat)
    requires y < height
    ensures y * width + width == (y + 1) * width <= width * height
  {
    assert (y + 1) * width <= height * width;
  }

  /**
   * `assemble`: scan the grid row by row, collecting sheets into a nine-element array,
   * then lay the sheets' lines out page after page.
   */
  method Assemble(width: nat, height: nat, cells: seq<Cell>) returns (r: Assembled)
    requires |cells| == width * height
    ensures r == AssembleOf(cells)
  {
    var numPages: nat := 0;
    var numPrintouts: nat := 0;
    var printouts := new Cell[MAX_SHEETS](_ => Blank);
    var stringFound, leatherFound, printoutFound := false, false, false;
    var y := 0;
    while y < height
      invariant 0 <= y <= height
      invariant y * width <= |cells|
      invariant numPrintouts <= MAX_SHEETS
      invariant ScanAll(cells[..y * width]) == Scanning(numPages, printouts[..numPrintouts], stringFound, leatherFound, printoutFound)
    {
      GridRow(y, width, height);
      var stopped;
      stopped, numPages, numPrintouts, stringFound, leatherFound, printoutFound :=
        ScanRow(cells, y * width, width, printouts, numPages, numPrintouts, stringFound, leatherFound, printoutFound);
      if stopped.Some? {
        return stopped.value;
      }
      y := y + 1;
    }
    assert cells[..height * width] == cells;
    ScanCountsPages(cells);
    r := BuildResult(printouts, numPages, numPrintouts, stringFound, leatherFound, printoutFound);
  }

  /**
   * The second half of `assemble`, after a scan that got through the grid: the checks on
   * the counters, then the printout laid out from the collected sheets.
   */
  method BuildResult(printouts: array<Cell>, numPages: nat, numPrintouts: nat, stringFound: bool, leatherFound: bool, printoutFound: bool)
    returns (r: Assembled)
    requires numPrintouts <= printouts.Length
    requires numPages == Pages(printouts[..numPrintouts])
    ensures r == Build(Scanning(numPages, printouts[..numPrintouts], stringFound, leatherFound, printoutFound))
  {
    if numPages <= MAX_PAGES && stringFound && printoutFound && numPrintouts >= (if leatherFound then 1 else 2) {
      var text, colours := LayOut(printouts, numPrintouts, numPages);
      var title: Option<string> := None;
      if printouts[0].Printout? {
        title := printouts[0].title;
      }
      return Crafted(Printed(leatherFound, title, text, colours));
    }
    return NoMatch;
  }

  /**
   * The inner loop of the scan: the `width` cells of one row, from `rowStart`. Returns
   * the outcome when a cell ends the scan early (a rejected item, a tenth sheet).
   */
  method ScanRow(cells: seq<Cell>, rowStart: nat, width: nat, printouts: array<Cell>,
                 numPages0: nat, numPrintouts0: nat, stringFound0: bool, leatherFound0: bool, printoutFound0: bool)
    returns (stopped: Option<Assembled>, numPages: nat, numPrintouts: nat, stringFound: bool, leatherFound: bool, printoutFound: bool)
    requires rowStart + width <= |cells| && printouts.Length == MAX_SHEETS && numPrintouts0 <= MAX_SHEETS
    requires ScanAll(cells[..rowStart]) == Scanning(numPages0, printouts[..numPrintouts0], stringFound0, leatherFound0, printoutFound0)
    modifies printouts
    ensures stopped.Some? ==> stopped.value == AssembleOf(cells)
    ensures stopped.None? ==> numPrintouts <= MAX_SHEETS
    ensures stopped.None? ==>
      ScanAll(cells[..rowStart + width]) == Scanning(numPages, printouts[..numPrintouts], stringFound, leatherFound, printoutFound)
  {
    numPages, numPrintouts := numPages0, numPrintouts0;
    stringFound, leatherFound, printoutFound := stringFound0, leatherFound0, printoutFound0;
    var x := 0;
    while x < width
      invariant 0 <= x <= width
      invariant numPrintouts <= MAX_SHEETS
      invariant ScanAll(cells[..rowStart + x]) == Scanning(numPages, printouts[..numPrintouts], stringFound, leatherFound, printoutFound)
    {
      var k := rowStart + x;
      ScanOneMore(cells, k);
      var stop;
      stop, numPages, numPrintouts, stringFound, leatherFound, printoutFound :=
        ScanStep(cells[k], printouts, numPages, numPrintouts, stringFound, leatherFound, printoutFound);
      if stop.Some? {
        ScanStops(cells, k + 1);
        return stop, numPages, numPrintouts, stringFound, leatherFound, printoutFound;
      }
      x := x + 1;
    }
    stopped := None;
  }

  /**
   * The body of the scan for one cell: a sheet goes into `printouts` (or ends the scan
   * when nine are held), the first string and leather are noted, anything else ends the
   * scan. `stop` is the outcome when the scan ends here.
   */
  method ScanStep(stack: Cell, printouts: array<Cell>,
                  numPages0: nat, numPrintouts0: nat, stringFound0: bool, leatherFound0: bool, printoutFound0: bool)
    returns (stop: Option<Assembled>, numPages: nat, numPrintouts: nat, stringFound: bool, leatherFound: bool, printoutFound: bool)
    requires printouts.Length == MAX_SHEETS && numPrintouts0 <= MAX_SHEETS
    modifies printouts
    ensures var next := ScanCell(Scanning(numPages0, old(printouts[..numPrintouts0]), stringFound0, leatherFound0, printoutFound0), stack);
      && (stop.Some? <==> !next.Scanning?)
      && (stop.Some? ==> stop.value == Build(next))
      && (stop.None? ==> numPrintouts <= MAX_SHEETS && next == Scanning(numPages, printouts[..numPrintouts], stringFound, leatherFound, printoutFound))
  {
    numPages, numPrintouts := numPages0, numPrintouts0;
    stringFound, leatherFound, printoutFound := stringFound0, leatherFound0, printoutFound0;
    stop := None;
    if !stack.Blank? {
      if IsPrintoutSheet(stack) || stack.Paper? {
        if numPrintouts >= MAX_SHEETS {
          return Some(Overflow), numPages, numPrintouts, stringFound, leatherFound, printoutFound;
        }
        ghost var collected := printouts[..numPrintouts];
        printouts[numPrintouts] := stack;
        numPages := numPages + SheetPages(stack);
        numPrintouts := numPrintouts + 1;
        if stack.Printout? {
          printoutFound := true;
        }
        assert printouts[..numPrintouts] == collected + [stack];
      } else if stack.StringItem? && !stringFound {
        stringFound := true;
      } else if stack.Leather? && !leatherFound {
        leatherFound := true;
      } else {
        stop := Some(NoMatch);
      }
    }
  }

  /** One more sheet adds its own pages to the page count. */
  lemma PagesSplit(sheets: seq<Cell>, p: nat)
    requires p < |sheets|
    ensures Pages(sheets[..p + 1]) == Pages(sheets[..p]) + SheetPages(sheets[p])
  {
    assert sheets[..p + 1][..p] == sheets[..p];
  }

  /** One more sheet's lines follow the lines of the sheets before it, in the text and in the colours. */
  lemma TextSplit(sheets: seq<Cell>, p: nat)
    requires p < |sheets|
    ensures Text(sheets[..p + 1]) == Text(sheets[..p]) + SheetText(sheets[p])
    ensures Colours(sheets[..p + 1]) == Colours(sheets[..p]) + SheetColours(sheets[p])
  {
    assert sheets[..p + 1][..p] == sheets[..p];
  }

  lemma {:induction false} PagesPrefix(sheets: seq<Cell>, p: nat)
    requires p <= |sheets|
    ensures Pages(sheets[..p]) <= Pages(sheets)
    ensures |Text(sheets[..p])| <= |Text(sheets)|
    decreases |sheets| - p
  {
    if p < |sheets| {
      PagesSplit(sheets, p);
      PagesPrefix(sheets, p + 1);
    } else {
      assert sheets[..p] == sheets;
    }
  }

  /** The second half of `assemble`: the text and colour arrays, filled sheet by sheet through a line cursor. */
  method LayOut(printouts: array<Cell>, numPrintouts: nat, numPages: nat) returns (text: seq<string>, colours: seq<string>)
    requires numPrintouts <= printouts.Length
    requires numPages == Pages(printouts[..numPrintouts])
    ensures text == Text(printouts[..numPrintouts]) && colours == Colours(printouts[..numPrintouts])
  {
    ghost var sheets := printouts[..numPrintouts];
    var textLines := new string[numPages * 21];
    var colourLines := new string[numPages * 21];
    assert textLines.Length == |Text(sheets)|;
    var line: nat := 0;
    var printout := 0;
    while printout < numPrintouts
      invariant 0 <= printout <= numPrintouts
      invariant printouts[..numPrintouts] == sheets
      invariant line <= textLines.Length
      invariant textLines[..line] == Text(sheets[..printout])
      invariant colourLines[..line] == Colours(sheets[..printout])
    {
      PagesSplit(sheets, printout);
      PagesPrefix(sheets, printout + 1);
      line := CopySheet(textLines, colourLines, sheets, printout, line, printouts[printout]);
      printout := printout + 1;
    }
    assert sheets[..numPrintouts] == sheets;
    assert textLines[..] == textLines[..line] && colourLines[..] == colourLines[..line];
    text := textLines[..];
    colours := colourLines[..];
  }

  /** The body of the layout loop: one sheet's lines written at the cursor, which moves past them. */
  method CopySheet(textLines: array<string>, colourLines: array<string>, ghost sheets: seq<Cell>, p: nat, line: nat, stack: Cell)
    returns (next: nat)
    requires textLines != colourLines && textLines.Length == colourLines.Length
    requires p < |sheets| && stack == sheets[p] && line + 21 * SheetPages(stack) <= textLines.Length
    requires textLines[..line] == Text(sheets[..p]) && colourLines[..line] == Colours(sheets[..p])
    modifies textLines, colourLines
    ensures next == line + 21 * SheetPages(stack)
    ensures textLines[..next] == Text(sheets[..p + 1]) && colourLines[..next] == Colours(sheets[..p + 1])
  {
    TextSplit(sheets, p);
    var pageText := SheetText(stack);
    var pageColours := SheetColours(stack);
    ghost var textBefore, coloursBefore := Text(sheets[..p]), Colours(sheets[..p]);
    CopyLines(textLines, colourLines, line, pageText, pageColours);
    next := line + |pageText|;
    assert textLines[..next] == textBefore + pageText;
    assert colourLines[..next] == coloursBefore + pageColours;
  }

  /** The inner loop of the layout: one sheet's lines written at the cursor. */
  method CopyLines(textLines: array<string>, colourLines: array<string>, at: nat, pageText: seq<string>, pageColours: seq<string>)
    requires textLines != colourLines
    requires |pageText| == |pageColours| && at + |pageText| <= textLines.Length == colourLines.Length
    modifies textLines, colourLines
    ensures textLines[..at + |pageText|] == old(textLines[..at]) + pageText
    ensures colourLines[..at + |pageText|] == old(colourLines[..at]) + pageColours
  {
    var pageLine := 0;
    while pageLine < |pageText|
      invariant 0 <= pageLine <= |pageText|
      invariant textLines[..at + pageLine] == old(textLines[..at]) + pageText[..pageLine]
      invariant colourLines[..at + pageLine] == old(colourLines[..at]) + pageColours[..pageLine]
    {
      textLines[at + pageLine] := pageText[pageLine];
      colourLines[at + pageLine] := pageColours[pageLine];
      pageLine := pageLine + 1;
    }
  }
}

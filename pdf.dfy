/**
 * The PDF exporter's layout pass. It walks the top-level elements of the
 * document body, keeps a vertical cursor `y` in millimetres, and starts a new
 * page when a block would cross the bottom limit. A second pass then stamps
 * the header and footer templates onto every page.
 *
 * Line breaking belongs to jsPDF (`splitTextToSize`). The model takes it as
 * the layout's `lines` function: the number of lines a text takes in a given
 * font and width.
 */
module Pdf {
  import opened Text
  import opened Html
  import opened PageFormatCatalog
  import opened JsNumber
  import opened Templates

  /** Pixels to millimetres at 96 pixels per inch. NaN stays NaN. */
  function PixelsToMM(px: Num): (mm: Num)
    ensures mm.Fin? <==> px.Fin?
    ensures mm.Fin? ==> mm.value * 3.779528 == px.value
  {
    if px.Fin? then Fin(px.value / 3.779528) else NaN
  }

  /** jsPDF's names for the page formats. */
  const JsPdfFormats: map<string, string> := map[
    "letter" := "letter", "legal" := "legal", "tabloid" := "tabloid",
    "a3" := "a3", "a4" := "a4", "a5" := "a5"]

  /** The jsPDF format name for a page format id; an unknown id gives "letter". */
  function GetJsPDFFormat(id: string): (r: string)
    ensures id in PageFormatIds ==> r == id
    ensures id !in PageFormatIds ==> r == "letter"
  {
    if id in JsPdfFormats then JsPdfFormats[id] else "letter"
  }

  /** The jsPDF format always names the same page as the page format the exporter reads. */
  lemma JsPdfFormatMatchesPageFormat(id: string)
    ensures GetJsPDFFormat(id) == GetPageFormat(id).id
  {
    assert JsPdfFormats.Keys == PageFormats.Keys;
  }

  /** The current font: size in points and whether it is bold. */
  datatype Font = Font(size: nat, bold: bool)

  /** jsPDF's font before the first `setFont`: 16 point, normal. */
  const InitialFont: Font := Font(16, false)

  /**
   * The page geometry in millimetres. `pageHeight` is jsPDF's height of the
   * page; the margins are converted from pixels and may be NaN.
   */
  datatype Layout = Layout(
    pageHeight: real,
    marginTop: Num,
    marginBottom: Num,
    contentWidth: Num,
    lines: (string, Font, Num) -> nat)

  /** The layout for a page of `pageWidth` by `pageHeight` millimetres and margins in pixels. */
  function MakeLayout(pageWidth: real, pageHeight: real, m: Margins, lines: (string, Font, Num) -> nat): (l: Layout)
    ensures l.pageHeight == pageHeight
    ensures l.marginTop == PixelsToMM(m.top) && l.marginBottom == PixelsToMM(m.bottom)
    ensures l.contentWidth == Sub(Sub(Fin(pageWidth), PixelsToMM(m.left)), PixelsToMM(m.right))
  {
    Layout(pageHeight, PixelsToMM(m.top), PixelsToMM(m.bottom),
      Sub(Sub(Fin(pageWidth), PixelsToMM(m.left)), PixelsToMM(m.right)), lines)
  }

  /** Where writing starts on a page: 5 mm below the top margin. */
  function TopY(l: Layout): Num {
    Add(l.marginTop, Fin(5.0))
  }

  /** The lowest `y` a block may reach: 5 mm above the bottom margin. */
  function Limit(l: Layout): Num {
    Sub(Sub(Fin(l.pageHeight), l.marginBottom), Fin(5.0))
  }

  /**
   * The exporter's state: the cursor `y`, its own page counter `pageNum`,
   * the number of pages the document has, and the current font.
   */
  datatype Cursor = Cursor(y: Num, pageNum: nat, pages: nat, font: Font)

  function Start(l: Layout): Cursor {
    Cursor(TopY(l), 1, 1, InitialFont)
  }

  /** `y += d`. */
  function Advance(c: Cursor, d: real): Cursor {
    c.(y := Add(c.y, Fin(d)))
  }

  /** A fresh page when a block of height `h` would cross the limit. */
  function PageChecked(c: Cursor, h: real, l: Layout): (r: Cursor)
    ensures Greater(Add(c.y, Fin(h)), Limit(l)) ==>
      r == Cursor(TopY(l), c.pageNum + 1, c.pages + 1, c.font)
    ensures !Greater(Add(c.y, Fin(h)), Limit(l)) ==> r == c
  {
    if Greater(Add(c.y, Fin(h)), Limit(l)) then
      c.(y := TopY(l), pageNum := c.pageNum + 1, pages := c.pages + 1)
    else c
  }

  /** A heading or paragraph: check, set the font, one step per line, then the gap. */
  function TextBlock(c: Cursor, text: string, font: Font, check: real, lineHeight: real, gap: real, l: Layout): Cursor {
    var c1 := PageChecked(c, check, l).(font := font);
    var n := l.lines(text, font, l.contentWidth);
    Advance(Advance(c1, n as real * lineHeight), gap)
  }

  /** The marker in front of a list item: a bullet, or the item's number and a period. */
  function Bullet(tag: string, index: nat): string {
    if tag == "ul" then "•" else NatToString(index) + "."
  }

  /** The items from number `index` on; the font is whatever the previous block left. */
  function ListItemsFrom(c: Cursor, tag: string, items: seq<Node>, index: nat, l: Layout): Cursor
    decreases |items|
  {
    if items == [] then c
    else
      var text := Bullet(tag, index) + " " + TextContent(items[0]);
      var n := l.lines(text, c.font, Sub(l.contentWidth, Fin(5.0)));
      ListItemsFrom(Advance(c, n as real * 5.0), tag, items[1..], index + 1, l)
  }

  /** Whether a table row has a `th` below it. */
  predicate IsHeaderRow(row: Node): (b: bool)
    ensures b <==> row.Element? && exists m :: Below(m, row.children) && HasTag(m, {"th"})
  {
    if row.Element? then
      SelectAllFinds(row.children, {"th"});
      SelectAll(row.children, {"th"}) != []
    else false
  }

  /**
   * One table row: a fresh page when the 8 mm row would cross the limit (the
   * page counter `pageNum` is not advanced here), the font weight of its
   * cells, then 8 mm.
   */
  function TableRow(c: Cursor, row: Node, l: Layout): Cursor {
    var c1 := if Greater(Add(c.y, Fin(8.0)), Limit(l)) then c.(y := TopY(l), pages := c.pages + 1) else c;
    var c2 := if row.Element? && ElementChildren(row.children) != [] then c1.(font := c1.font.(bold := IsHeaderRow(row))) else c1;
    Advance(c2, 8.0)
  }

  function TableRows(c: Cursor, rows: seq<Node>, l: Layout): Cursor
    decreases |rows|
  {
    if rows == [] then c else TableRows(TableRow(c, rows[0], l), rows[1..], l)
  }

  /** The tags the PDF exporter draws; every other top-level node is skipped. */
  const PdfTags: set<string> := {"h1", "h2", "h3", "p", "ul", "ol", "table"}

  /** One top-level node of the body. */
  function Step(c: Cursor, n: Node, l: Layout): Cursor {
    if !n.Element? then c
    else if n.tag == "h1" then TextBlock(c, TextContent(n), Font(24, true), 15.0, 8.0, 3.0, l)
    else if n.tag == "h2" then TextBlock(c, TextContent(n), Font(18, true), 12.0, 7.0, 2.0, l)
    else if n.tag == "h3" then TextBlock(c, TextContent(n), Font(14, true), 10.0, 6.0, 1.0, l)
    else if n.tag == "p" then TextBlock(c, TextContent(n), Font(12, false), 8.0, 5.0, 2.0, l)
    else if n.tag == "ul" || n.tag == "ol" then
      Advance(ListItemsFrom(PageChecked(c, 10.0, l), n.tag, SelectAll(n.children, {"li"}), 1, l), 2.0)
    else if n.tag == "table" then
      var c1 := PageChecked(c, 15.0, l);
      Advance(TableRows(c1.(font := c1.font.(size := 10)), SelectAll(n.children, {"tr"}), l), 2.0)
    else c
  }

  /** The whole body, node by node. */
  function Flow(c: Cursor, body: seq<Node>, l: Layout): Cursor
    decreases |body|
  {
    if body == [] then c else Flow(Step(c, body[0], l), body[1..], l)
  }

  // ---------------------------------------------------------------------
  // Properties of the layout pass

  /** Nodes other than the seven drawn tags leave no trace in the PDF. */
  lemma SkippedNodes(c: Cursor, n: Node, l: Layout)
    requires !HasTag(n, PdfTags)
    ensures Step(c, n, l) == c
  {
  }

  /** Only tables advance the page count without the page counter. */
  lemma {:induction false} TableRowsPageCount(c: Cursor, rows: seq<Node>, l: Layout)
    ensures TableRows(c, rows, l).pageNum == c.pageNum
    ensures c.pages <= TableRows(c, rows, l).pages <= c.pages + |rows|
    decreases |rows|
  {
    if rows != [] {
      TableRowsPageCount(TableRow(c, rows[0], l), rows[1..], l);
    }
  }

  lemma {:induction false} ListItemsKeepPages(c: Cursor, tag: string, items: seq<Node>, index: nat, l: Layout)
    ensures var r := ListItemsFrom(c, tag, items, index, l);
      r.pages == c.pages && r.pageNum == c.pageNum && r.font == c.font
      && (!c.y.Fin? ==> !r.y.Fin?)
    decreases |items|
  {
    if items != [] {
      var text := Bullet(tag, index) + " " + TextContent(items[0]);
      var n := l.lines(text, c.font, Sub(l.contentWidth, Fin(5.0)));
      ListItemsKeepPages(Advance(c, n as real * 5.0), tag, items[1..], index + 1, l);
    }
  }

  /**
   * A block other than a table adds at most one page, however many lines it
   * has: the page check happens once, before the block. A table adds at most
   * one more page per row, and only those rows' pages are not counted by `pageNum`.
   */
  lemma StepPages(c: Cursor, n: Node, l: Layout)
    ensures var r := Step(c, n, l);
      && c.pages <= r.pages
      && r.pages - c.pages >= r.pageNum - c.pageNum >= 0
      && (!HasTag(n, {"table"}) ==> r.pages - c.pages == r.pageNum - c.pageNum <= 1)
      && (HasTag(n, {"table"}) ==> r.pages <= c.pages + 1 + |SelectAll(n.children, {"tr"})|)
  {
    if HasTag(n, {"ul", "ol"}) {
      ListItemsKeepPages(PageChecked(c, 10.0, l), n.tag, SelectAll(n.children, {"li"}), 1, l);
    } else if HasTag(n, {"table"}) {
      var c1 := PageChecked(c, 15.0, l);
      TableRowsPageCount(c1.(font := c1.font.(size := 10)), SelectAll(n.children, {"tr"}), l);
    }
  }

  /**
   * Over a whole body the page counter never runs ahead of the page count,
   * and without tables the two advance together.
   */
  lemma {:induction false} FlowPages(c: Cursor, body: seq<Node>, l: Layout)
    ensures var r := Flow(c, body, l);
      && r.pages - c.pages >= r.pageNum - c.pageNum >= 0
      && ((forall k :: 0 <= k < |body| ==> !HasTag(body[k], {"table"})) ==>
            r.pages - c.pages == r.pageNum - c.pageNum <= |body|)
    decreases |body|
  {
    if body != [] {
      StepPages(c, body[0], l);
      FlowPages(Step(c, body[0], l), body[1..], l);
    }
  }

  /** A layout whose bottom margin is NaN: its limit is NaN and no check can fire. */
  lemma {:induction false} NaNTableRows(c: Cursor, rows: seq<Node>, l: Layout)
    requires !l.marginBottom.Fin?
    ensures TableRows(c, rows, l).pages == c.pages
    ensures !c.y.Fin? ==> !TableRows(c, rows, l).y.Fin?
    decreases |rows|
  {
    if rows != [] {
      NaNTableRows(TableRow(c, rows[0], l), rows[1..], l);
    }
  }

  /**
   * As written: with a NaN bottom margin no page is ever added. Every body,
   * however long, is laid out on the first page, and a NaN cursor stays NaN.
   */
  lemma {:induction false} NaNMarginsNeverBreak(c: Cursor, body: seq<Node>, l: Layout)
    requires !l.marginBottom.Fin?
    ensures Flow(c, body, l).pages == c.pages
    ensures Flow(c, body, l).pageNum == c.pageNum
    ensures !c.y.Fin? ==> !Flow(c, body, l).y.Fin?
    decreases |body|
  {
    if body != [] {
      var n := body[0];
      if HasTag(n, {"ul", "ol"}) {
        ListItemsKeepPages(PageChecked(c, 10.0, l), n.tag, SelectAll(n.children, {"li"}), 1, l);
      } else if HasTag(n, {"table"}) {
        var c1 := PageChecked(c, 15.0, l);
        NaNTableRows(c1.(font := c1.font.(size := 10)), SelectAll(n.children, {"tr"}), l);
        TableRowsPageCount(c1.(font := c1.font.(size := 10)), SelectAll(n.children, {"tr"}), l);
      }
      NaNMarginsNeverBreak(Step(c, n, l), body[1..], l);
    }
  }

  /**
   * With finite margins the page check keeps a block that fits on an empty
   * page above the limit: after the check, `y + h` is at most the limit.
   */
  lemma FiniteMarginsKeepBlockOnPage(c: Cursor, h: real, l: Layout)
    requires l.marginTop.Fin? && l.marginBottom.Fin? && c.y.Fin?
    requires TopY(l).value + h <= Limit(l).value
    ensures var r := PageChecked(c, h, l);
      && r.y.Fin? && r.y.value + h <= Limit(l).value
      && (r.pages == c.pages + 1 <==> c.y.value + h > Limit(l).value)
  {
  }

  /**
   * With finite margins a first paragraph that overflows the page pushes the
   * second one onto page two.
   */
  lemma OverflowStartsPageTwo(first: Node, second: Node, l: Layout)
    requires l.marginTop.Fin? && l.marginBottom.Fin?
    requires HasTag(first, {"p"}) && HasTag(second, {"p"})
    requires TopY(l).value + 8.0 <= Limit(l).value
    requires TopY(l).value + (l.lines(TextContent(first), Font(12, false), l.contentWidth) as real) * 5.0 + 2.0 + 8.0
      > Limit(l).value
    ensures Flow(Start(l), [first, second], l).pages == 2
  {
    var c1 := Step(Start(l), first, l);
    assert Flow(Start(l), [first, second], l) == Flow(c1, [second], l);
    assert Flow(c1, [second], l) == Step(c1, second, l);
  }

  // ---------------------------------------------------------------------
  // The layout pass as the exporter runs it, statement by statement

  /** The exporter's running state over one jsPDF document. */
  class PdfWriter {
    const layout: Layout
    var y: Num
    var pageNum: nat
    var pages: nat
    var font: Font

    function State(): Cursor
      reads this
    {
      Cursor(y, pageNum, pages, font)
    }

    constructor (l: Layout)
      ensures layout == l && State() == Start(l)
    {
      layout := l;
      y := TopY(l);
      pageNum := 1;
      pages := 1;
      font := InitialFont;
    }

    method CheckNewPage(h: real)
      modifies this
      ensures State() == PageChecked(old(State()), h, layout)
    {
      if Greater(Add(y, Fin(h)), Limit(layout)) {
        pages := pages + 1;
        pageNum := pageNum + 1;
        y := TopY(layout);
      }
    }

    /** One line after another: `y += lineHeight` for each of `n` lines. */
    method WriteLines(n: nat, lineHeight: real)
      modifies this
      ensures State() == Advance(old(State()), n as real * lineHeight)
    {
      var k := 0;
      while k < n
        invariant 0 <= k <= n
        invariant State() == Advance(old(State()), k as real * lineHeight)
      {
        y := Add(y, Fin(lineHeight));
        k := k + 1;
      }
    }

    method WriteTextBlock(text: string, f: Font, check: real, lineHeight: real, gap: real)
      modifies this
      ensures State() == TextBlock(old(State()), text, f, check, lineHeight, gap, layout)
    {
      CheckNewPage(check);
      font := f;
      var n := layout.lines(text, f, layout.contentWidth);
      WriteLines(n, lineHeight);
      y := Add(y, Fin(gap));
    }

    method WriteList(tag: string, items: seq<Node>)
      modifies this
      ensures State() == ListItemsFrom(old(State()), tag, items, 1, layout)
    {
      var i := 0;
      while i < |items|
        invariant 0 <= i <= |items|
        invariant ListItemsFrom(State(), tag, items[i..], i + 1, layout) == ListItemsFrom(old(State()), tag, items, 1, layout)
      {
        assert items[i..][1..] == items[i + 1..];
        var text := Bullet(tag, i + 1) + " " + TextContent(items[i]);
        var n := layout.lines(text, font, Sub(layout.contentWidth, Fin(5.0)));
        WriteLines(n, 5.0);
        i := i + 1;
      }
      assert items[i..] == [];
    }

    method WriteTable(rows: seq<Node>)
      modifies this
      ensures State() == TableRows(old(State()), rows, layout)
    {
      var i := 0;
      while i < |rows|
        invariant 0 <= i <= |rows|
        invariant TableRows(State(), rows[i..], layout) == TableRows(old(State()), rows, layout)
      {
        assert rows[i..][1..] == rows[i + 1..];
        var row := rows[i];
        if Greater(Add(y, Fin(8.0)), Limit(layout)) {
          pages := pages + 1;
          y := TopY(layout);
        }
        if row.Element? && ElementChildren(row.children) != [] {
          font := font.(bold := IsHeaderRow(row));
        }
        y := Add(y, Fin(8.0));
        i := i + 1;
      }
      assert rows[i..] == [];
    }

    method WriteNode(n: Node)
      modifies this
      ensures State() == Step(old(State()), n, layout)
    {
      if !n.Element? {
        return;
      }
      if n.tag == "h1" {
        WriteTextBlock(TextContent(n), Font(24, true), 15.0, 8.0, 3.0);
      } else if n.tag == "h2" {
        WriteTextBlock(TextContent(n), Font(18, true), 12.0, 7.0, 2.0);
      } else if n.tag == "h3" {
        WriteTextBlock(TextContent(n), Font(14, true), 10.0, 6.0, 1.0);
      } else if n.tag == "p" {
        WriteTextBlock(TextContent(n), Font(12, false), 8.0, 5.0, 2.0);
      } else if n.tag == "ul" || n.tag == "ol" {
        CheckNewPage(10.0);
        WriteList(n.tag, SelectAll(n.children, {"li"}));
        y := Add(y, Fin(2.0));
      } else if n.tag == "table" {
        CheckNewPage(15.0);
        font := font.(size := 10);
        WriteTable(SelectAll(n.children, {"tr"}));
        y := Add(y, Fin(2.0));
      }
    }

    method WriteBody(body: seq<Node>)
      modifies this
      ensures State() == Flow(old(State()), body, layout)
    {
      var i := 0;
      while i < |body|
        invariant 0 <= i <= |body|
        invariant Flow(State(), body[i..], layout) == Flow(old(State()), body, layout)
      {
        assert body[i..][1..] == body[i + 1..];
        WriteNode(body[i]);
        i := i + 1;
      }
      assert body[i..] == [];
    }
  }

  // ---------------------------------------------------------------------
  // Headers and footers

  datatype Slot = HeaderLeft | HeaderRight | FooterLeft | FooterRight

  /** A template written onto a page: its page, its slot, its text and its baseline. */
  datatype Stamp = Stamp(page: nat, slot: Slot, text: string, y: Num)

  function Template(opts: ExportOptions, s: Slot): string {
    match s
    case HeaderLeft => opts.headerLeft
    case HeaderRight => opts.headerRight
    case FooterLeft => opts.footerLeft
    case FooterRight => opts.footerRight
  }

  /** Headers sit 2 mm above the top margin, footers 2 mm below the bottom margin. */
  function SlotY(s: Slot, l: Layout): Num {
    if s.HeaderLeft? || s.HeaderRight? then Sub(l.marginTop, Fin(2.0))
    else Add(Sub(Fin(l.pageHeight), l.marginBottom), Fin(2.0))
  }

  function StampFor(opts: ExportOptions, p: nat, s: Slot, l: Layout): Stamp {
    Stamp(p, s, PdfExpand(Template(opts, s), p), SlotY(s, l))
  }

  /** The slots whose template is set, in the order they are drawn. */
  function SetSlots(opts: ExportOptions): (r: seq<Slot>)
    ensures forall s :: s in r <==> Template(opts, s) != ""
  {
    (if opts.headerLeft != "" then [HeaderLeft] else [])
    + (if opts.headerRight != "" then [HeaderRight] else [])
    + (if opts.footerLeft != "" then [FooterLeft] else [])
    + (if opts.footerRight != "" then [FooterRight] else [])
  }

  /** The stamps of page `p`: the set templates in the order header left, header right, footer left, footer right. */
  function PageStamps(opts: ExportOptions, p: nat, l: Layout): (r: seq<Stamp>)
    ensures |r| == |SetSlots(opts)|
  {
    (if opts.headerLeft != "" then [StampFor(opts, p, HeaderLeft, l)] else [])
    + (if opts.headerRight != "" then [StampFor(opts, p, HeaderRight, l)] else [])
    + (if opts.footerLeft != "" then [StampFor(opts, p, FooterLeft, l)] else [])
    + (if opts.footerRight != "" then [StampFor(opts, p, FooterRight, l)] else [])
  }

  lemma PageStampsMembers(opts: ExportOptions, p: nat, l: Layout)
    ensures forall st :: st in PageStamps(opts, p, l) <==> Template(opts, st.slot) != "" && st == StampFor(opts, p, st.slot, l)
  {
    var r := PageStamps(opts, p, l);
    var a := if opts.headerLeft != "" then [StampFor(opts, p, HeaderLeft, l)] else [];
    var b := if opts.headerRight != "" then [StampFor(opts, p, HeaderRight, l)] else [];
    var c := if opts.footerLeft != "" then [StampFor(opts, p, FooterLeft, l)] else [];
    var d := if opts.footerRight != "" then [StampFor(opts, p, FooterRight, l)] else [];
    assert r == a + b + c + d;
    forall st: Stamp | st in r
      ensures Template(opts, st.slot) != "" && st == StampFor(opts, p, st.slot, l)
    {
      assert st in a || st in b || st in c || st in d;
    }
    forall st: Stamp | Template(opts, st.slot) != "" && st == StampFor(opts, p, st.slot, l)
      ensures st in r
    {
      match st.slot
      case HeaderLeft => assert st in a;
      case HeaderRight => assert st in b;
      case FooterLeft => assert st in c;
      case FooterRight => assert st in d;
    }
  }

  lemma PageStampMember(opts: ExportOptions, p: nat, l: Layout, st: Stamp)
    ensures st in PageStamps(opts, p, l) <==> Template(opts, st.slot) != "" && st == StampFor(opts, p, st.slot, l)
  {
    PageStampsMembers(opts, p, l);
  }

  /** The stamps of pages 1 to `n`, page by page. */
  function StampsUpTo(opts: ExportOptions, n: nat, l: Layout): seq<Stamp> {
    if n == 0 then [] else StampsUpTo(opts, n - 1, l) + PageStamps(opts, n, l)
  }

  /**
   * Every page gets every set template, with its first `{page}` replaced by
   * that page's number, and nothing else is stamped.
   */
  lemma {:induction false} StampsUpToMembers(opts: ExportOptions, n: nat, l: Layout)
    ensures forall st :: st in StampsUpTo(opts, n, l) <==>
      && 1 <= st.page <= n
      && Template(opts, st.slot) != ""
      && st == StampFor(opts, st.page, st.slot, l)
  {
    forall st: Stamp
      ensures st in StampsUpTo(opts, n, l) <==>
        1 <= st.page <= n && Template(opts, st.slot) != "" && st == StampFor(opts, st.page, st.slot, l)
    {
      StampsUpToMember(opts, n, l, st);
    }
  }

  lemma {:induction false} StampsUpToMember(opts: ExportOptions, n: nat, l: Layout, st: Stamp)
    ensures st in StampsUpTo(opts, n, l) <==>
      1 <= st.page <= n && Template(opts, st.slot) != "" && st == StampFor(opts, st.page, st.slot, l)
  {
    if n > 0 {
      var before, last := StampsUpTo(opts, n - 1, l), PageStamps(opts, n, l);
      assert StampsUpTo(opts, n, l) == before + last;
      assert st in before + last <==> st in before || st in last;
      StampsUpToMember(opts, n - 1, l, st);
      PageStampMember(opts, n, l, st);
      if st.page == n {
        assert st !in before;
      } else {
        assert st !in last;
      }
    }
  }

  /** Each page carries one stamp per set template. */
  lemma {:induction false} StampsUpToLength(opts: ExportOptions, n: nat, l: Layout)
    ensures |StampsUpTo(opts, n, l)| == n * |SetSlots(opts)|
  {
    if n > 0 {
      StampsUpToLength(opts, n - 1, l);
      var k := |SetSlots(opts)|;
      assert |StampsUpTo(opts, n, l)| == (n - 1) * k + k;
      assert (n - 1) * k + k == n * k;
    }
  }

  /**
   * The header/footer pass: when any template is set, for each page in
   * order, the header left, header right, footer left and footer right
   * templates that are set.
   */
  method HeaderFooterPass(opts: ExportOptions, pages: nat, l: Layout) returns (stamps: seq<Stamp>)
    ensures stamps == StampsUpTo(opts, pages, l)
  {
    if opts.headerLeft != "" || opts.headerRight != "" || opts.footerLeft != "" || opts.footerRight != "" {
      stamps := StampPages(opts, pages, l);
    } else {
      EmptyStamps(opts, pages, l);
      stamps := [];
    }
  }

  /** The loop over pages 1 to `pages`, in order. */
  method StampPages(opts: ExportOptions, pages: nat, l: Layout) returns (stamps: seq<Stamp>)
    ensures stamps == StampsUpTo(opts, pages, l)
  {
    stamps := [];
    var p := 1;
    while p <= pages
      invariant 1 <= p <= pages + 1
      invariant stamps == StampsUpTo(opts, p - 1, l)
    {
      var onPage := StampPage(opts, p, l);
      stamps := stamps + onPage;
      p := p + 1;
    }
  }

  /** One page of the pass: each set template, in drawing order. */
  method StampPage(opts: ExportOptions, p: nat, l: Layout) returns (onPage: seq<Stamp>)
    ensures onPage == PageStamps(opts, p, l)
  {
    var hl, hr, fl, fr: seq<Stamp> := [], [], [], [];
    if opts.headerLeft != "" {
      hl := [StampFor(opts, p, HeaderLeft, l)];
    }
    if opts.headerRight != "" {
      hr := [StampFor(opts, p, HeaderRight, l)];
    }
    if opts.footerLeft != "" {
      fl := [StampFor(opts, p, FooterLeft, l)];
    }
    if opts.footerRight != "" {
      fr := [StampFor(opts, p, FooterRight, l)];
    }
    onPage := hl + hr + fl + fr;
  }

  lemma {:induction false} EmptyStamps(opts: ExportOptions, n: nat, l: Layout)
    requires SetSlots(opts) == []
    ensures StampsUpTo(opts, n, l) == []
  {
    if n > 0 {
      EmptyStamps(opts, n - 1, l);
    }
  }

  /** With a NaN top or bottom margin every header or footer baseline is NaN. */
  lemma NaNMarginsStampBaselines(opts: ExportOptions, n: nat, l: Layout, st: Stamp)
    requires !l.marginTop.Fin? && !l.marginBottom.Fin?
    requires st in StampsUpTo(opts, n, l)
    ensures !st.y.Fin?
  {
    StampsUpToMembers(opts, n, l);
  }

  // ---------------------------------------------------------------------
  // The whole export

  /**
   * The PDF export of a body: the format from the options, the layout pass,
   * then the header/footer pass over every page. `pageWidth` and
   * `pageHeight` are jsPDF's page size for the format, in millimetres;
   * `margins` are the page margins in pixels, an input of the export
   * (`SourceMargins` as the exporter reads them, `FormatMargins` as intended).
   */
  method ExportToPdf(body: seq<Node>, opts: ExportOptions, margins: Margins,
                     pageWidth: real, pageHeight: real, lines: (string, Font, Num) -> nat)
    returns (format: string, pages: nat, stamps: seq<Stamp>)
    ensures format == GetPageFormat(FormatId(opts)).id
    ensures var l := MakeLayout(pageWidth, pageHeight, margins, lines);
      && pages == Flow(Start(l), body, l).pages
      && stamps == StampsUpTo(opts, pages, l)
  {
    format := GetJsPDFFormat(FormatId(opts));
    JsPdfFormatMatchesPageFormat(FormatId(opts));
    var l := MakeLayout(pageWidth, pageHeight, margins, lines);
    var writer := new PdfWriter(l);
    writer.WriteBody(body);
    pages := writer.pages;
    stamps := HeaderFooterPass(opts, pages, l);
  }

  /** The layout as written: margins read from fields a page format does not have. */
  function AsWrittenLayout(opts: ExportOptions, pageWidth: real, pageHeight: real, lines: (string, Font, Num) -> nat): Layout {
    MakeLayout(pageWidth, pageHeight, SourceMargins(GetPageFormat(FormatId(opts))), lines)
  }

  /**
   * As written, every document comes out as a single page, the cursor is NaN
   * from the first line to the last, and every header and footer sits at a
   * NaN baseline.
   */
  lemma AsWrittenSinglePage(body: seq<Node>, opts: ExportOptions, pageWidth: real, pageHeight: real,
                            lines: (string, Font, Num) -> nat)
    ensures var l := AsWrittenLayout(opts, pageWidth, pageHeight, lines);
      && Flow(Start(l), body, l).pages == 1
      && !Start(l).y.Fin? && !Flow(Start(l), body, l).y.Fin?
      && forall st :: st in StampsUpTo(opts, 1, l) ==> !st.y.Fin?
  {
    var l := AsWrittenLayout(opts, pageWidth, pageHeight, lines);
    NaNMarginsNeverBreak(Start(l), body, l);
    forall st | st in StampsUpTo(opts, 1, l)
      ensures !st.y.Fin?
    {
      NaNMarginsStampBaselines(opts, 1, l, st);
    }
  }

  /**
   * With the page format's margins on a letter page (215.9 by 279.4 mm), a
   * first paragraph of 45 lines overflows the first page and pushes a
   * second paragraph onto page two.
   */
  lemma FormatMarginsBreakLetterPages(first: Node, second: Node, opts: ExportOptions, lines: (string, Font, Num) -> nat)
    requires opts.pageFormat == "" || opts.pageFormat == "letter"
    requires HasTag(first, {"p"}) && HasTag(second, {"p"})
    requires var l := MakeLayout(215.9, 279.4, FormatMargins(GetPageFormat(FormatId(opts))), lines);
      lines(TextContent(first), Font(12, false), l.contentWidth) == 45
    ensures var l := MakeLayout(215.9, 279.4, FormatMargins(GetPageFormat(FormatId(opts))), lines);
      Flow(Start(l), [first, second], l).pages == 2
  {
    var l := MakeLayout(215.9, 279.4, FormatMargins(GetPageFormat(FormatId(opts))), lines);
    assert GetPageFormat(FormatId(opts)).margin == 1.0;
    OverflowStartsPageTwo(first, second, l);
  }
}

/**
 * The DOCX exporter's document walk (`parseHTMLToDocxElements` and its
 * `processNode`): block elements become paragraphs and tables, every other
 * element is transparent, and bare text becomes a plain paragraph.
 */
module Normalize {
  import opened Wrappers
  import opened Text
  import opened Html
  import opened Docx
  import opened Runs

  /** The tags `processNode` gives a block of their own; every other element is transparent. */
  const BlockTags: set<string> := {"h1", "h2", "h3", "p", "ul", "ol", "table", "blockquote"}

  /** Left indent of list items and block quotes: half an inch, in twips. */
  const BlockIndent: nat := 720

  /** The literal prefix of the item at 0-based `index`: a bullet for `ul`, "N. " for `ol`. */
  function ListPrefix(tag: string, index: nat): string {
    if tag == "ul" then "• " else NatToString(index + 1) + ". "
  }

  function ListItemParagraph(tag: string, li: Node, index: nat): Block
    requires li.Element?
  {
    Para(Paragraph([PlainRun(ListPrefix(tag, index))] + GetTextRuns(li), None, None, Some(100), Some(BlockIndent)))
  }

  /** One paragraph per list item, numbered from 1. */
  function ListParagraphs(tag: string, items: seq<Node>): (r: seq<Block>)
    requires forall k :: 0 <= k < |items| ==> items[k].Element?
    ensures |r| == |items|
  {
    seq(|items|, k requires 0 <= k < |items| => ListItemParagraph(tag, items[k], k))
  }

  /** The cells of a row: every `th` or `td` below it, in document order; `th` cells are shaded. */
  function RowCells(tr: Node): (cells: seq<TableCell>)
    requires tr.Element?
    ensures var found := SelectAll(tr.children, {"th", "td"});
      && |cells| == |found|
      && forall k :: 0 <= k < |cells| ==>
        cells[k].shaded == (found[k].tag == "th")
        && cells[k].paragraph == PlainParagraph(GetTextRuns(found[k]))
  {
    var found := SelectAll(tr.children, {"th", "td"});
    seq(|found|, k requires 0 <= k < |found| => TableCell(PlainParagraph(GetTextRuns(found[k])), found[k].tag == "th"))
  }

  /** The rows of a table: each `tr` that has at least one cell, in document order. */
  function TableRows(trs: seq<Node>): (rows: seq<seq<TableCell>>)
    requires forall k :: 0 <= k < |trs| ==> trs[k].Element?
    ensures |rows| <= |trs|
    ensures forall k :: 0 <= k < |rows| ==> rows[k] != []
  {
    if trs == [] then []
    else
      var cells := RowCells(trs[0]);
      (if |cells| > 0 then [cells] else []) + TableRows(trs[1..])
  }

  /**
   * The shape every table output takes: at least one row, at least one cell
   * in each row, and the empty spacing paragraph right after the table.
   */
  predicate TablesWellFormed(bs: seq<Block>)
    decreases |bs|
  {
    bs != [] ==>
      (bs[0].Table? ==>
        bs[0].rows != [] && (forall j :: 0 <= j < |bs[0].rows| ==> bs[0].rows[j] != [])
        && |bs| >= 2 && bs[1] == Para(PlainParagraph([])))
      && TablesWellFormed(bs[1..])
  }

  /** Placing well-formed outputs one after the other keeps every table's spacing paragraph. */
  lemma {:induction false} TablesWellFormedAppend(a: seq<Block>, b: seq<Block>)
    requires TablesWellFormed(a) && TablesWellFormed(b)
    ensures TablesWellFormed(a + b)
    decreases |a|
  {
    if a == [] {
      assert a + b == b;
    } else {
      TablesWellFormedAppend(a[1..], b);
      assert (a + b)[1..] == a[1..] + b;
      if a[0].Table? {
        assert (a + b)[1] == a[1];
      }
    }
  }

  /** Paragraphs alone hold no table, so they are trivially well formed. */
  lemma {:induction false} ParagraphsWellFormed(bs: seq<Block>)
    requires forall k :: 0 <= k < |bs| ==> bs[k].Para?
    ensures TablesWellFormed(bs)
    decreases |bs|
  {
    if bs != [] {
      ParagraphsWellFormed(bs[1..]);
    }
  }

  /** `processNode`: the blocks one node contributes. */
  function ProcessNode(n: Node): (r: seq<Block>)
    ensures TablesWellFormed(r)
    decreases n, 2
  {
    match n
    case TextNode(d) =>
      var t := Trim(d);
      if t != "" then [Para(PlainParagraph([PlainRun(t)]))] else []
    case Other => []
    case Element(_, _, _, _) => ProcessElement(n)
  }

  /** The `switch` on the tag name of an element. */
  function ProcessElement(n: Node): (r: seq<Block>)
    requires n.Element?
    ensures TablesWellFormed(r)
    decreases n, 1
  {
    var tag := n.tag;
    if tag == "h1" then [Para(Paragraph(GetTextRuns(n), Some(Heading1), None, Some(200), None))]
    else if tag == "h2" then [Para(Paragraph(GetTextRuns(n), Some(Heading2), None, Some(160), None))]
    else if tag == "h3" then [Para(Paragraph(GetTextRuns(n), Some(Heading3), None, Some(120), None))]
    else if tag == "p" then
      [Para(Paragraph(GetTextRuns(n), None, Some(GetAlignment(Attribute(n, "style"))), Some(200), None))]
    else if tag == "ul" || tag == "ol" then
      var items := ListParagraphs(tag, SelectChildren(n.children, "li"));
      ParagraphsWellFormed(items);
      items
    else if tag == "table" then
      var rows := TableRows(SelectAll(n.children, {"tr"}));
      if |rows| > 0 then [Table(rows), Para(PlainParagraph([]))] else []
    else if tag == "blockquote" then [Para(Paragraph(GetTextRuns(n), None, None, Some(200), Some(BlockIndent)))]
    else ProcessSeq(n.children)
  }

  function ProcessSeq(ns: seq<Node>): (r: seq<Block>)
    ensures TablesWellFormed(r)
    decreases ns, 0
  {
    if ns == [] then []
    else
      var head, tail := ProcessNode(ns[0]), ProcessSeq(ns[1..]);
      TablesWellFormedAppend(head, tail);
      head + tail
  }

  /** The paragraph an empty document exports as. */
  const EmptyDocument: seq<Block> := [Para(PlainParagraph([PlainRun("")]))]

  /** `parseHTMLToDocxElements` on the parsed body's child nodes: never an empty document. */
  function ParseHtmlToDocxElements(body: seq<Node>): (r: seq<Block>)
    ensures |r| >= 1
    ensures ProcessSeq(body) == [] ==> r == EmptyDocument
    ensures ProcessSeq(body) != [] ==> r == ProcessSeq(body)
  {
    var elements := ProcessSeq(body);
    if |elements| == 0 then EmptyDocument else elements
  }

  // ---------------------------------------------------------------------------
  // Properties of the walk
  // ---------------------------------------------------------------------------

  /** The walk is compositional: sibling nodes contribute their blocks one after the other. */
  lemma {:induction false} ProcessSeqAppend(a: seq<Node>, b: seq<Node>)
    ensures ProcessSeq(a + b) == ProcessSeq(a) + ProcessSeq(b)
  {
    if a == [] {
      assert a + b == b;
    } else {
      var ab := a + b;
      assert ab[0] == a[0];
      assert ab[1..] == a[1..] + b;
      calc {
        ProcessSeq(ab);
        ProcessNode(a[0]) + ProcessSeq(a[1..] + b);
        { ProcessSeqAppend(a[1..], b); }
        ProcessNode(a[0]) + (ProcessSeq(a[1..]) + ProcessSeq(b));
      }
    }
  }

  /**
   * A wrapper element that is not a block tag (a `div`, a `span`) makes no
   * difference: the result is as if its children stood in its place.
   */
  lemma {:induction false} TransparentWrapper(before: seq<Node>, w: Node, after: seq<Node>)
    requires w.Element? && w.tag !in BlockTags
    ensures ProcessSeq(before + [w] + after) == ProcessSeq(before + w.children + after)
  {
    assert ProcessSeq([w]) == ProcessSeq(w.children) by {
      assert [w][0] == w && [w][1..] == [];
      assert ProcessNode(w) == ProcessElement(w) == ProcessSeq(w.children);
    }
    calc {
      ProcessSeq(before + [w] + after);
      { ProcessSeqAppend(before + [w], after); }
      ProcessSeq(before + [w]) + ProcessSeq(after);
      { ProcessSeqAppend(before, [w]); }
      ProcessSeq(before) + ProcessSeq(w.children) + ProcessSeq(after);
      { ProcessSeqAppend(before, w.children); }
      ProcessSeq(before + w.children) + ProcessSeq(after);
      { ProcessSeqAppend(before + w.children, after); }
      ProcessSeq(before + w.children + after);
    }
  }

  /** Text directly in a transparent element or the body becomes one plain paragraph of its trimmed text, or nothing. */
  lemma BareText(d: string)
    ensures ProcessNode(TextNode(d)) == if Trim(d) == "" then [] else [Para(PlainParagraph([PlainRun(Trim(d))]))]
    ensures ProcessNode(TextNode(d)) == [] <==> forall k :: 0 <= k < |d| ==> IsSpace(d[k])
  {
    TrimEmptyIff(d);
  }

  /** A body made only of white space and comments exports as the single empty paragraph. */
  lemma {:induction false} BlankBody(body: seq<Node>)
    requires forall k :: 0 <= k < |body| ==>
      body[k].Other? || (body[k].TextNode? && forall j :: 0 <= j < |body[k].data| ==> IsSpace(body[k].data[j]))
    ensures ProcessSeq(body) == [] && ParseHtmlToDocxElements(body) == EmptyDocument
  {
    if body != [] {
      BlankBody(body[1..]);
      if body[0].TextNode? {
        BareText(body[0].data);
      }
    }
  }

  /**
   * A list gives one paragraph per direct `li` child and nothing else: the
   * k-th (0-based) starts with a bullet run or the run "k+1. ", followed by the
   * item's own runs, indented half an inch. Items of nested lists and other
   * children do not count, so numbering starts at 1 in every list and has no gaps.
   */
  lemma {:induction false} ListItems(list: Node)
    requires list.Element? && list.tag in {"ul", "ol"}
    ensures var items := SelectChildren(list.children, "li");
      && |ProcessNode(list)| == |items|
      && forall k :: 0 <= k < |items| ==>
        && ProcessNode(list)[k].Para?
        && ProcessNode(list)[k].paragraph.runs == [PlainRun(ListPrefix(list.tag, k))] + GetTextRuns(items[k])
        && ProcessNode(list)[k].paragraph.indentLeft == Some(BlockIndent)
        && items[k] in list.children
  {
    SelectChildrenMembers(list.children, "li");
  }

  /** An ordered list's prefixes read back as 1, 2, 3, ...: the digits before ". " denote k+1. */
  lemma OrderedPrefix(k: nat)
    ensures var p := ListPrefix("ol", k);
      p == NatToString(k + 1) + ". " && DigitsValue(NatToString(k + 1)) == k + 1
  {
    NatToStringRoundTrip(k + 1);
  }

  /** Only the list's `li` children matter: removing every other child changes nothing. */
  lemma {:induction false} ListIgnoresOtherChildren(list: Node)
    requires list.Element? && list.tag in {"ul", "ol"}
    ensures var items := SelectChildren(list.children, "li");
      ProcessNode(list.(children := items)) == ProcessNode(list)
  {
    var items := SelectChildren(list.children, "li");
    var pruned := list.(children := items);
    SelectChildrenIdempotent(list.children, "li");
    assert SelectChildren(pruned.children, "li") == items;
    assert ProcessNode(pruned) == ProcessElement(pruned) == ListParagraphs(list.tag, items);
  }

  lemma {:induction false} SelectChildrenIdempotent(ns: seq<Node>, tag: string)
    ensures SelectChildren(SelectChildren(ns, tag), tag) == SelectChildren(ns, tag)
  {
    if ns != [] {
      SelectChildrenIdempotent(ns[1..], tag);
      var rest := SelectChildren(ns[1..], tag);
      if HasTag(ns[0], {tag}) {
        var s := [ns[0]] + rest;
        assert s[0] == ns[0] && s[1..] == rest;
        assert SelectChildren(s, tag) == [ns[0]] + SelectChildren(rest, tag);
      } else {
        assert SelectChildren(ns, tag) == [] + rest == rest;
      }
    }
  }

  /**
   * A table exports as a table followed by exactly one empty paragraph when at
   * least one of its `tr` elements has a cell, and as nothing otherwise; rows
   * without cells are dropped and no kept row is empty.
   */
  lemma TableBlocks(table: Node)
    requires table.Element? && table.tag == "table"
    ensures var rows := TableRows(SelectAll(table.children, {"tr"}));
      && (rows == [] ==> ProcessNode(table) == [])
      && (rows != [] ==> ProcessNode(table) == [Table(rows), Para(PlainParagraph([]))])
      && forall r :: r in rows ==> r != []
  {
  }

  /** The rows of consecutive `tr` lists follow one another, in document order. */
  lemma {:induction false} TableRowsAppend(a: seq<Node>, b: seq<Node>)
    requires forall k :: 0 <= k < |a| ==> a[k].Element?
    requires forall k :: 0 <= k < |b| ==> b[k].Element?
    ensures TableRows(a + b) == TableRows(a) + TableRows(b)
    decreases |a|
  {
    if a == [] {
      assert a + b == b;
    } else {
      assert (a + b)[0] == a[0];
      assert (a + b)[1..] == a[1..] + b;
      TableRowsAppend(a[1..], b);
    }
  }

  /** A row is kept exactly when it has a `th` or `td` somewhere below it. */
  lemma {:induction false} TableRowsKept(trs: seq<Node>)
    requires forall k :: 0 <= k < |trs| ==> trs[k].Element?
    ensures forall k :: 0 <= k < |trs| && SelectAll(trs[k].children, {"th", "td"}) != [] ==>
      RowCells(trs[k]) in TableRows(trs)
    ensures forall r :: r in TableRows(trs) ==>
      exists k :: 0 <= k < |trs| && r == RowCells(trs[k]) && SelectAll(trs[k].children, {"th", "td"}) != []
  {
    if trs != [] {
      TableRowsKept(trs[1..]);
      var rest := TableRows(trs[1..]);
      assert forall k :: 1 <= k < |trs| ==> trs[k] == trs[1..][k - 1];
      forall r | r in TableRows(trs)
        ensures exists k :: 0 <= k < |trs| && r == RowCells(trs[k]) && SelectAll(trs[k].children, {"th", "td"}) != []
      {
        if r in rest {
          var j :| 0 <= j < |trs| - 1 && r == RowCells(trs[1..][j]) && SelectAll(trs[1..][j].children, {"th", "td"}) != [];
          assert trs[1..][j] == trs[j + 1];
        }
      }
    }
  }

  lemma ProcessSeqSingleton(n: Node)
    ensures ProcessSeq([n]) == ProcessNode(n)
  {
    assert [n][1..] == [];
  }

  // The elements of the example below, as an HTML parser builds them.
  function ExampleHeading(): Node { Element("h1", map[], "", [TextNode("Title")]) }
  function ExampleUnderline(): Node { Element("u", map[], "", [TextNode("Hello")]) }
  function ExampleParagraph(): Node { Element("p", map[], "", [ExampleUnderline(), TextNode(" world")]) }
  function ExampleHeaderCell(): Node { Element("th", map[], "", [TextNode("A")]) }
  function ExampleBodyCell(): Node { Element("td", map[], "", [TextNode("1")]) }
  function ExampleRow1(): Node { Element("tr", map[], "", [ExampleHeaderCell()]) }
  function ExampleRow2(): Node { Element("tr", map[], "", [ExampleBodyCell()]) }
  function ExampleTable(): Node {
    Element("table", map[], "", [Element("tbody", map[], "", [ExampleRow1(), ExampleRow2()])])
  }

  /**
   * A heading, paragraph or blockquote element gives one paragraph holding its
   * text runs: the heading level and 200/160/120 spacing for `h1`/`h2`/`h3`, the
   * alignment of its `style` for `p`, and the 720-twip indent for `blockquote`.
   */
  lemma TextElementParagraph(n: Node)
    requires n.Element? && n.tag in {"h1", "h2", "h3", "p", "blockquote"}
    ensures |ProcessNode(n)| == 1 && ProcessNode(n)[0].Para?
    ensures var q := ProcessNode(n)[0].paragraph;
      && q.runs == GetTextRuns(n)
      && Texts(q.runs) == TextContent(n)
      && q.heading == (if n.tag == "h1" then Some(Heading1)
                       else if n.tag == "h2" then Some(Heading2)
                       else if n.tag == "h3" then Some(Heading3) else None)
      && q.spacingAfter == Some(if n.tag == "h2" then 160 else if n.tag == "h3" then 120 else 200)
      && q.alignment == (if n.tag == "p" then Some(GetAlignment(Attribute(n, "style"))) else None)
      && q.indentLeft == (if n.tag == "blockquote" then Some(720) else None)
  {
  }

  lemma ExampleParagraphBlocks()
    ensures ProcessNode(ExampleParagraph()) ==
      [Para(Paragraph([TextRun("Hello", false, false, true, false, None), PlainRun(" world")], None, Some(Left), Some(200), None))]
  {
    var u := ExampleUnderline();
    assert ExtractRunsSeq([TextNode(" world")], NoFormatting) == [PlainRun(" world")];
    assert ExtractRuns(u, NoFormatting) == [TextRun("Hello", false, false, true, false, None)] by {
      assert ExtractRunsSeq(u.children, Descend(u, NoFormatting)) == [TextRun("Hello", false, false, true, false, None)];
    }
    assert ExtractRunsSeq(ExampleParagraph().children, NoFormatting)
      == [TextRun("Hello", false, false, true, false, None), PlainRun(" world")] by {
      assert ExampleParagraph().children[1..] == [TextNode(" world")];
    }
    assert GetAlignment(Attribute(ExampleParagraph(), "style")) == Left;
  }

  lemma ExampleRows()
    ensures TableRows(SelectAll(ExampleTable().children, {"tr"})) ==
      [[TableCell(PlainParagraph([PlainRun("A")]), true)], [TableCell(PlainParagraph([PlainRun("1")]), false)]]
  {
    var th, td := ExampleHeaderCell(), ExampleBodyCell();
    var tr1, tr2 := ExampleRow1(), ExampleRow2();
    assert SelectAll(th.children, {"th", "td"}) == [];
    assert SelectAll(td.children, {"th", "td"}) == [];
    assert SelectAll(tr1.children, {"th", "td"}) == [th];
    assert SelectAll(tr2.children, {"th", "td"}) == [td];
    assert GetTextRuns(th) == [PlainRun("A")];
    assert GetTextRuns(td) == [PlainRun("1")];
    assert RowCells(tr1) == [TableCell(PlainParagraph([PlainRun("A")]), true)];
    assert RowCells(tr2) == [TableCell(PlainParagraph([PlainRun("1")]), false)];
    assert SelectAll(th.children, {"tr"}) == [];
    assert SelectAll(td.children, {"tr"}) == [];
    assert SelectAll(tr1.children, {"tr"}) == [];
    assert SelectAll(tr2.children, {"tr"}) == [];
    assert SelectAll([tr2], {"tr"}) == [tr2];
    assert SelectAll([tr1, tr2], {"tr"}) == [tr1, tr2] by {
      assert [tr1, tr2][1..] == [tr2];
    }
    assert SelectAll(ExampleTable().children, {"tr"}) == [tr1, tr2];
    assert TableRows([tr1, tr2]) == [RowCells(tr1), RowCells(tr2)] by {
      assert [tr1, tr2][1..] == [tr2];
      assert TableRows([tr2]) == [RowCells(tr2)];
    }
  }

  lemma ExampleTableBlocks()
    ensures ProcessNode(ExampleTable()) == [
      Table([[TableCell(PlainParagraph([PlainRun("A")]), true)], [TableCell(PlainParagraph([PlainRun("1")]), false)]]),
      Para(PlainParagraph([]))]
  {
    ExampleRows();
    assert ProcessNode(ExampleTable()) == ProcessElement(ExampleTable());
  }

  lemma ExampleHeadingBlocks()
    ensures ProcessNode(ExampleHeading()) == [Para(Paragraph([PlainRun("Title")], Some(Heading1), None, Some(200), None))]
  {
    assert GetTextRuns(ExampleHeading()) == [PlainRun("Title")];
  }

  /**
   * `<h1>Title</h1><p><u>Hello</u> world</p><table><tr><th>A</th></tr><tr><td>1</td></tr></table>`
   * (with the `tbody` an HTML parser inserts) exports as a level-1 heading, a
   * paragraph of an underlined run and a plain run, a table of one shaded
   * header cell and one body cell, and the empty paragraph after the table.
   */
  lemma HeadingParagraphTableExample(body: seq<Node>)
    requires body == [ExampleHeading(), ExampleParagraph(), ExampleTable()]
    ensures ParseHtmlToDocxElements(body) == [
        Para(Paragraph([PlainRun("Title")], Some(Heading1), None, Some(200), None)),
        Para(Paragraph([TextRun("Hello", false, false, true, false, None), PlainRun(" world")], None, Some(Left), Some(200), None)),
        Table([[TableCell(PlainParagraph([PlainRun("A")]), true)], [TableCell(PlainParagraph([PlainRun("1")]), false)]]),
        Para(PlainParagraph([]))]
  {
    var h1, p, table := ExampleHeading(), ExampleParagraph(), ExampleTable();
    var bh := [Para(Paragraph([PlainRun("Title")], Some(Heading1), None, Some(200), None))];
    var bp := [Para(Paragraph([TextRun("Hello", false, false, true, false, None), PlainRun(" world")], None, Some(Left), Some(200), None))];
    var bt := [Table([[TableCell(PlainParagraph([PlainRun("A")]), true)], [TableCell(PlainParagraph([PlainRun("1")]), false)]]),
      Para(PlainParagraph([]))];
    calc {
      ProcessSeq(body);
      { ProcessSeqOfThree(h1, p, table); }
      ProcessNode(h1) + ProcessNode(p) + ProcessNode(table);
      { ExampleHeadingBlocks(); ExampleParagraphBlocks(); ExampleTableBlocks(); }
      bh + bp + bt;
    }
    assert ProcessSeq(body) != [];
  }

  lemma ProcessSeqOfThree(a: Node, b: Node, c: Node)
    ensures ProcessSeq([a, b, c]) == ProcessNode(a) + ProcessNode(b) + ProcessNode(c)
  {
    calc {
      ProcessSeq([a, b, c]);
      { assert [a, b, c] == [a] + [b] + [c]; }
      ProcessSeq([a] + [b] + [c]);
      { ProcessSeqAppend([a] + [b], [c]); ProcessSeqAppend([a], [b]); }
      ProcessSeq([a]) + ProcessSeq([b]) + ProcessSeq([c]);
      { ProcessSeqSingleton(a); ProcessSeqSingleton(b); ProcessSeqSingleton(c); }
      ProcessNode(a) + ProcessNode(b) + ProcessNode(c);
    }
  }
}

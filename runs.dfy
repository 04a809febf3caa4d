/**
 * Run extraction for the DOCX exporter (`getTextRuns` / `extractRuns`):
 * inline formatting accumulates from the enclosing elements down to each
 * text node, and every non-empty text node becomes one run of its own.
 */
module Runs {
  import opened Wrappers
  import opened Text
  import opened Html
  import opened Docx

  /** The formatting in force while descending; `highlight` is a colour string when inside a `mark`. */
  datatype Formatting = Formatting(bold: bool, italic: bool, underline: bool, strike: bool, highlight: Option<string>)

  const NoFormatting: Formatting := Formatting(false, false, false, false, None)

  /** The highlight colour used for a `mark` that names none. */
  const DefaultMarkColor: string := "#fef08a"

  const BoldTags: set<string> := {"strong", "b"}
  const ItalicTags: set<string> := {"em", "i"}
  const UnderlineTags: set<string> := {"u"}
  const StrikeTags: set<string> := {"s", "strike"}

  /** A `mark`'s colour: its `data-color`, else its inline background colour, else the default. */
  function MarkColor(e: Node): (c: string)
    requires e.Element?
    ensures c != ""
  {
    var dataColor := Attribute(e, "data-color");
    if dataColor != "" then dataColor
    else if e.backgroundColor != "" then e.backgroundColor
    else DefaultMarkColor
  }

  /** The formatting inside element `e`: flags are only ever switched on, and a `mark` sets the colour. */
  function Descend(e: Node, f: Formatting): Formatting
    requires e.Element?
  {
    Formatting(
      f.bold || e.tag in BoldTags,
      f.italic || e.tag in ItalicTags,
      f.underline || e.tag in UnderlineTags,
      f.strike || e.tag in StrikeTags,
      if e.tag == "mark" then Some(MarkColor(e)) else f.highlight)
  }

  /** The run for a text node under formatting `f`. */
  function RunOf(text: string, f: Formatting): Run {
    TextRun(text, f.bold, f.italic, f.underline, f.strike,
      if f.highlight.Some? then Some(GetDocxHighlightColor(f.highlight.value)) else None)
  }

  /** `extractRuns(node, formatting)`: the runs it pushes, in order. */
  function ExtractRuns(n: Node, f: Formatting): seq<Run>
    decreases n, 1
  {
    match n
    case TextNode(d) => if d != "" then [RunOf(d, f)] else []
    case Element(_, _, _, cs) => ExtractRunsSeq(cs, Descend(n, f))
    case Other => []
  }

  function ExtractRunsSeq(ns: seq<Node>, f: Formatting): seq<Run>
    decreases ns, 0
  {
    if ns == [] then [] else ExtractRuns(ns[0], f) + ExtractRunsSeq(ns[1..], f)
  }

  /** The text of a run list read end to end; a page field contributes nothing. */
  function Texts(rs: seq<Run>): string {
    if rs == [] then "" else (if rs[0].TextRun? then rs[0].text else "") + Texts(rs[1..])
  }

  lemma {:induction false} TextsAppend(a: seq<Run>, b: seq<Run>)
    ensures Texts(a + b) == Texts(a) + Texts(b)
  {
    if a == [] {
      assert a + b == b;
    } else {
      TextsAppend(a[1..], b);
      assert (a + b)[1..] == a[1..] + b;
    }
  }

  /** No text is lost or reordered: the runs spell out the `textContent` of the nodes. */
  lemma {:induction false} ExtractRunsText(n: Node, f: Formatting)
    ensures Texts(ExtractRuns(n, f)) == TextContent(n)
    decreases n, 1
  {
    match n
    case TextNode(d) =>
    case Element(_, _, _, cs) => ExtractRunsSeqText(cs, Descend(n, f));
    case Other =>
  }

  lemma {:induction false} ExtractRunsSeqText(ns: seq<Node>, f: Formatting)
    ensures Texts(ExtractRunsSeq(ns, f)) == TextContentSeq(ns)
    decreases ns, 0
  {
    if ns != [] {
      ExtractRunsText(ns[0], f);
      ExtractRunsSeqText(ns[1..], f);
      TextsAppend(ExtractRuns(ns[0], f), ExtractRunsSeq(ns[1..], f));
    }
  }

  /** Every extracted run is a text run with non-empty text. */
  lemma {:induction false} ExtractRunsNonEmpty(n: Node, f: Formatting)
    ensures forall k :: 0 <= k < |ExtractRuns(n, f)| ==>
      ExtractRuns(n, f)[k].TextRun? && ExtractRuns(n, f)[k].text != ""
    decreases n, 1
  {
    match n
    case TextNode(d) =>
    case Element(_, _, _, cs) => ExtractRunsSeqNonEmpty(cs, Descend(n, f));
    case Other =>
  }

  lemma {:induction false} ExtractRunsSeqNonEmpty(ns: seq<Node>, f: Formatting)
    ensures forall k :: 0 <= k < |ExtractRunsSeq(ns, f)| ==>
      ExtractRunsSeq(ns, f)[k].TextRun? && ExtractRunsSeq(ns, f)[k].text != ""
    decreases ns, 0
  {
    if ns != [] {
      ExtractRunsNonEmpty(ns[0], f);
      ExtractRunsSeqNonEmpty(ns[1..], f);
    }
  }

  /**
   * `getTextRuns(element)`: the runs of the element's children, starting from
   * no formatting (the element's own tag formats nothing); an element without
   * text gives a single empty run, never an empty list.
   */
  function GetTextRuns(e: Node): (r: seq<Run>)
    requires e.Element?
    ensures |r| >= 1
    ensures forall k :: 0 <= k < |r| ==> r[k].TextRun?
    ensures Texts(r) == TextContent(e)
  {
    var runs := ExtractRunsSeq(e.children, NoFormatting);
    ExtractRunsSeqText(e.children, NoFormatting);
    ExtractRunsSeqNonEmpty(e.children, NoFormatting);
    if |runs| > 0 then runs else [PlainRun("")]
  }

  // ---------------------------------------------------------------------------
  // An independent description of run formatting: each non-empty text node
  // together with the chain of elements that enclose it.
  // ---------------------------------------------------------------------------

  /** A non-empty text node and its enclosing elements, outermost first. */
  datatype Leaf = Leaf(text: string, ancestors: seq<Node>)

  /** The non-empty text nodes under `n` in document order; `path` encloses `n`. */
  function Leaves(n: Node, path: seq<Node>): (ls: seq<Leaf>)
    ensures forall k :: 0 <= k < |ls| ==> ls[k].text != "" && path <= ls[k].ancestors
    decreases n, 1
  {
    match n
    case TextNode(d) => if d != "" then [Leaf(d, path)] else []
    case Element(_, _, _, cs) => LeavesSeq(cs, path + [n])
    case Other => []
  }

  function LeavesSeq(ns: seq<Node>, path: seq<Node>): (ls: seq<Leaf>)
    ensures forall k :: 0 <= k < |ls| ==> ls[k].text != "" && path <= ls[k].ancestors
    decreases ns, 0
  {
    if ns == [] then [] else Leaves(ns[0], path) + LeavesSeq(ns[1..], path)
  }

  /** The colour of the innermost `mark` among `path`, if any. */
  function NearestMark(path: seq<Node>): Option<string> {
    if path == [] then None
    else if HasTag(path[|path| - 1], {"mark"}) then Some(MarkColor(path[|path| - 1]))
    else NearestMark(path[..|path| - 1])
  }

  /** Some element of `path` has one of `tags`. */
  predicate AnyHasTag(path: seq<Node>, tags: set<string>) {
    exists k :: 0 <= k < |path| && HasTag(path[k], tags)
  }

  /**
   * The formatting a text node gets from its enclosing elements: each flag is
   * on when any of them is a formatting element for it, and the highlight is
   * the innermost `mark`'s colour.
   */
  function Inherited(path: seq<Node>): Formatting {
    Formatting(
      AnyHasTag(path, BoldTags), AnyHasTag(path, ItalicTags),
      AnyHasTag(path, UnderlineTags), AnyHasTag(path, StrikeTags),
      NearestMark(path))
  }

  function RunsOf(ls: seq<Leaf>): (rs: seq<Run>)
    ensures |rs| == |ls|
    ensures forall k :: 0 <= k < |ls| ==> rs[k] == RunOf(ls[k].text, Inherited(ls[k].ancestors))
  {
    if ls == [] then [] else [RunOf(ls[0].text, Inherited(ls[0].ancestors))] + RunsOf(ls[1..])
  }

  lemma AnyHasTagSnoc(path: seq<Node>, e: Node, tags: set<string>)
    ensures AnyHasTag(path + [e], tags) <==> AnyHasTag(path, tags) || HasTag(e, tags)
  {
    if AnyHasTag(path + [e], tags) && !HasTag(e, tags) {
      var k :| 0 <= k < |path| + 1 && HasTag((path + [e])[k], tags);
      assert k < |path| && HasTag(path[k], tags);
    }
    if AnyHasTag(path, tags) {
      var k :| 0 <= k < |path| && HasTag(path[k], tags);
      assert HasTag((path + [e])[k], tags);
    }
    if HasTag(e, tags) {
      assert HasTag((path + [e])[|path|], tags);
    }
  }

  /** Stepping into element `e` is the same as adding `e` to the chain of enclosing elements. */
  lemma {:induction false} DescendInherited(path: seq<Node>, e: Node)
    requires e.Element?
    ensures Descend(e, Inherited(path)) == Inherited(path + [e])
  {
    AnyHasTagSnoc(path, e, BoldTags);
    AnyHasTagSnoc(path, e, ItalicTags);
    AnyHasTagSnoc(path, e, UnderlineTags);
    AnyHasTagSnoc(path, e, StrikeTags);
    assert (path + [e])[..|path|] == path;
  }

  lemma {:induction false} RunsOfAppend(a: seq<Leaf>, b: seq<Leaf>)
    ensures RunsOf(a + b) == RunsOf(a) + RunsOf(b)
  {
  }

  /** `extractRuns` gives exactly one run per leaf, formatted by the leaf's enclosing elements. */
  lemma {:induction false} ExtractRunsLeaves(n: Node, path: seq<Node>)
    ensures ExtractRuns(n, Inherited(path)) == RunsOf(Leaves(n, path))
    decreases n, 1
  {
    match n
    case TextNode(d) =>
    case Element(_, _, _, cs) =>
      DescendInherited(path, n);
      ExtractRunsSeqLeaves(cs, path + [n]);
    case Other =>
  }

  lemma {:induction false} ExtractRunsSeqLeaves(ns: seq<Node>, path: seq<Node>)
    ensures ExtractRunsSeq(ns, Inherited(path)) == RunsOf(LeavesSeq(ns, path))
    decreases ns, 0
  {
    if ns != [] {
      ExtractRunsLeaves(ns[0], path);
      ExtractRunsSeqLeaves(ns[1..], path);
      RunsOfAppend(Leaves(ns[0], path), LeavesSeq(ns[1..], path));
    }
  }

  /**
   * The runs of an element, described without the traversal: one per
   * non-empty text node inside it, in document order, none merged; bold,
   * italic, underline and strike when any enclosing element inside the
   * element calls for it; highlighted with the innermost `mark`'s colour.
   */
  lemma GetTextRunsByLeaves(e: Node)
    requires e.Element?
    ensures var ls := LeavesSeq(e.children, []);
      GetTextRuns(e) == if ls == [] then [PlainRun("")] else RunsOf(ls)
  {
    ExtractRunsSeqLeaves(e.children, []);
    assert Inherited([]) == NoFormatting;
  }

  /** `<p><strong>a<em>b</em>c</strong></p>` gives three runs: bold "a", bold italic "b", bold "c". */
  lemma NestedFormattingExample()
    ensures
      var em := Element("em", map[], "", [TextNode("b")]);
      var strong := Element("strong", map[], "", [TextNode("a"), em, TextNode("c")]);
      GetTextRuns(Element("p", map[], "", [strong]))
      == [TextRun("a", true, false, false, false, None),
          TextRun("b", true, true, false, false, None),
          TextRun("c", true, false, false, false, None)]
  {
    var em := Element("em", map[], "", [TextNode("b")]);
    var strong := Element("strong", map[], "", [TextNode("a"), em, TextNode("c")]);
    var bold := Descend(strong, NoFormatting);
    assert ExtractRunsSeq([TextNode("b")], Descend(em, bold)) == [TextRun("b", true, true, false, false, None)];
    assert ExtractRunsSeq([TextNode("c")], bold) == [TextRun("c", true, false, false, false, None)];
    assert ExtractRunsSeq([em, TextNode("c")], bold)
      == [TextRun("b", true, true, false, false, None), TextRun("c", true, false, false, false, None)];
    assert ExtractRunsSeq([strong], NoFormatting) == ExtractRunsSeq(strong.children, bold);
  }

  /** `<p></p>` gives one run of empty text. */
  lemma EmptyParagraphExample()
    ensures GetTextRuns(Element("p", map[], "", [])) == [PlainRun("")]
  {
  }
}

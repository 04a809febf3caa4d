/**
 * Header and footer templates. The only placeholder is `{page}`. The PDF
 * exporter writes each page's number into the first `{page}` of a template;
 * the DOCX exporter splits a template at `{page}` and puts a current-page
 * field in its place.
 */
module Templates {
  import opened Wrappers
  import opened Text
  import opened Docx
  import opened Runs
  import opened PageFormatCatalog

  const PageToken: string := "{page}"

  /** The four templates; the empty string stands for a template that is not set. */
  datatype HeaderFooterSettings = HeaderFooterSettings(
    headerLeft: string, headerRight: string, footerLeft: string, footerRight: string)

  /**
   * The options both exporters take: the four templates as the editor passes
   * them on, and the page format id ("" when not given).
   */
  datatype ExportOptions = ExportOptions(
    headerLeft: string, headerRight: string, footerLeft: string, footerRight: string, pageFormat: string)

  /** `options.pageFormat || "letter"`. */
  function FormatId(opts: ExportOptions): (id: string)
    ensures id != ""
    ensures opts.pageFormat != "" ==> id == opts.pageFormat
  {
    if opts.pageFormat == "" then DefaultPageFormat else opts.pageFormat
  }

  /** The settings the header/footer dialog resets to. */
  const DefaultSettings: HeaderFooterSettings := HeaderFooterSettings("", "", "", "Page {page}")

  /** PDF: the template for page `p`, its first `{page}` replaced by the page number. */
  function PdfExpand(template: string, p: nat): string {
    ReplaceFirst(template, PageToken, NatToString(p))
  }

  /**
   * DOCX, for `headerRight`, `footerLeft` and `footerRight`: a template with
   * `{page}` gives the text before it (when not empty), the current-page
   * field, and the text up to the next `{page}` (when not empty); a template
   * without it gives one literal run.
   */
  function DocxTemplateRuns(template: string): seq<Run> {
    if Contains(template, PageToken) then
      var parts := Split(template, PageToken);
      (if parts[0] != "" then [PlainRun(parts[0])] else [])
      + [CurrentPageNumber]
      + (if parts[1] != "" then [PlainRun(parts[1])] else [])
    else [PlainRun(template)]
  }

  /** DOCX, for `headerLeft`: the template with its first `{page}` deleted, as one literal run. */
  function DocxHeaderLeftRun(template: string): Run {
    PlainRun(ReplaceFirst(template, PageToken, ""))
  }

  /** The separator run placed between a left and a right template. */
  const TabRun: Run := PlainRun("\t\t")

  /** The number of current-page fields among `rs`. */
  function FieldCount(rs: seq<Run>): nat {
    if rs == [] then 0 else (if rs[0].CurrentPageNumber? then 1 else 0) + FieldCount(rs[1..])
  }

  lemma {:induction false} FieldCountAppend(a: seq<Run>, b: seq<Run>)
    ensures FieldCount(a + b) == FieldCount(a) + FieldCount(b)
  {
    if a == [] {
      assert a + b == b;
    } else {
      FieldCountAppend(a[1..], b);
      assert (a + b)[1..] == a[1..] + b;
    }
  }

  /** How a word processor shows the runs on page `p`: the field shows the page number. */
  function Render(rs: seq<Run>, p: nat): string {
    if rs == [] then ""
    else (if rs[0].TextRun? then rs[0].text else NatToString(p)) + Render(rs[1..], p)
  }

  lemma {:induction false} RenderAppend(a: seq<Run>, b: seq<Run>, p: nat)
    ensures Render(a + b, p) == Render(a, p) + Render(b, p)
  {
    if a == [] {
      assert a + b == b;
    } else {
      var head := if a[0].TextRun? then a[0].text else NatToString(p);
      assert (a + b)[0] == a[0] && (a + b)[1..] == a[1..] + b;
      calc {
        Render(a + b, p);
        head + Render(a[1..] + b, p);
        { RenderAppend(a[1..], b, p); }
        head + (Render(a[1..], p) + Render(b, p));
        (head + Render(a[1..], p)) + Render(b, p);
        Render(a, p) + Render(b, p);
      }
    }
  }

  /** Another `{page}` follows the first `{page}` of the template. */
  predicate HasSecondToken(template: string)
    requires Contains(template, PageToken)
  {
    Contains(template[FindFirst(template, PageToken).value + |PageToken|..], PageToken)
  }

  /**
   * A DOCX template holds exactly one page field when it contains `{page}`
   * and none otherwise, and its literal text is the text before the first
   * `{page}` and between the first and second: anything after a second `{page}` is lost.
   */
  lemma {:induction false} DocxTemplateShape(template: string)
    ensures FieldCount(DocxTemplateRuns(template)) == if Contains(template, PageToken) then 1 else 0
    ensures !Contains(template, PageToken) ==> Texts(DocxTemplateRuns(template)) == template
    ensures Contains(template, PageToken) ==>
      var i := FindFirst(template, PageToken).value;
      var rest := template[i + |PageToken|..];
      Texts(DocxTemplateRuns(template)) == template[..i] + Split(rest, PageToken)[0]
  {
    if Contains(template, PageToken) {
      var i := FindFirst(template, PageToken).value;
      var parts := Split(template, PageToken);
      SplitHead(template, PageToken);
      assert parts == [template[..i]] + Split(template[i + |PageToken|..], PageToken);
      FieldBetween(parts[0], parts[1]);
    } else {
      assert [PlainRun(template)][1..] == [];
    }
  }

  /** Literal text on both sides of one page field: one field, and the two texts. */
  lemma FieldBetween(x: string, y: string)
    ensures var rs := (if x != "" then [PlainRun(x)] else []) + [CurrentPageNumber] + (if y != "" then [PlainRun(y)] else []);
      FieldCount(rs) == 1 && Texts(rs) == x + y
  {
    var a: seq<Run> := if x != "" then [PlainRun(x)] else [];
    var b: seq<Run> := if y != "" then [PlainRun(y)] else [];
    var field: seq<Run> := [CurrentPageNumber];
    assert field[1..] == [] && FieldCount(field) == 1 && Texts(field) == "";
    assert FieldCount(a) == 0 && Texts(a) == x by {
      if x != "" { assert a[1..] == []; }
    }
    assert FieldCount(b) == 0 && Texts(b) == y by {
      if y != "" { assert b[1..] == []; }
    }
    FieldCountAppend(a + field, b);
    FieldCountAppend(a, field);
    TextsAppend(a + field, b);
    TextsAppend(a, field);
  }

  /**
   * The two exporters agree on a template exactly when it has at most one
   * `{page}`: then the DOCX runs show on page `p` what the PDF writes.
   */
  lemma {:induction false} PdfDocxAgree(template: string, p: nat)
    ensures Contains(template, PageToken) && !HasSecondToken(template) ==>
      Render(DocxTemplateRuns(template), p) == PdfExpand(template, p)
    ensures Contains(template, PageToken) && HasSecondToken(template) ==>
      Render(DocxTemplateRuns(template), p) != PdfExpand(template, p)
    ensures !Contains(template, PageToken) ==>
      Render(DocxTemplateRuns(template), p) == PdfExpand(template, p) == template
  {
    if Contains(template, PageToken) {
      var i := FindFirst(template, PageToken).value;
      var rest := template[i + |PageToken|..];
      var parts := Split(template, PageToken);
      SplitHead(template, PageToken);
      assert parts[1..] == Split(rest, PageToken);
      var shown := Render(DocxTemplateRuns(template), p);
      RenderOneField(template, p);
      assert PdfExpand(template, p) == parts[0] + NatToString(p) + rest;
      if HasSecondToken(template) {
        SplitHead(rest, PageToken);
        assert |parts[1]| < |rest|;
        assert |shown| < |PdfExpand(template, p)|;
      }
    }
  }

  /** A literal run that is only emitted when its text is not empty shows that text. */
  lemma RenderLiteral(text: string, p: nat)
    ensures Render(if text != "" then [PlainRun(text)] else [], p) == text
  {
    if text != "" {
      assert [PlainRun(text)][1..] == [];
    }
  }

  /** On page `p` the DOCX runs of a template with `{page}` read: first part, page number, second part. */
  lemma RenderOneField(template: string, p: nat)
    requires Contains(template, PageToken)
    ensures |Split(template, PageToken)| >= 2
    ensures Render(DocxTemplateRuns(template), p) ==
      Split(template, PageToken)[0] + NatToString(p) + Split(template, PageToken)[1]
  {
    var parts := Split(template, PageToken);
    SplitHead(template, PageToken);
    var a: seq<Run> := if parts[0] != "" then [PlainRun(parts[0])] else [];
    var b: seq<Run> := if parts[1] != "" then [PlainRun(parts[1])] else [];
    assert DocxTemplateRuns(template) == a + [CurrentPageNumber] + b;
    RenderLiteral(parts[0], p);
    RenderLiteral(parts[1], p);
    RenderAroundField(a, b, p);
  }

  /** A page field between two run lists shows the page number between their texts. */
  lemma RenderAroundField(a: seq<Run>, b: seq<Run>, p: nat)
    ensures Render(a + [CurrentPageNumber] + b, p) == Render(a, p) + NatToString(p) + Render(b, p)
  {
    var field: seq<Run> := [CurrentPageNumber];
    assert field[1..] == [];
    assert Render(field, p) == NatToString(p);
    RenderAppend(a, field, p);
    RenderAppend(a + field, b, p);
  }

  /** The one `{page}` of "Page {page}" starts at index 5. */
  lemma PageTokenAtFive(s: string)
    requires s == "Page {page}"
    ensures FindFirst(s, PageToken) == Some(5)
  {
    assert OccursAt(s, PageToken, 5);
    assert forall j :: 0 <= j < 5 ==> !OccursAt(s, PageToken, j) by {
      forall j | 0 <= j < 5 ensures !OccursAt(s, PageToken, j) {
        assert s[j..j + 6][0] == s[j];
      }
    }
  }

  /** "Page {page}" on page 3 reads "Page 3". */
  lemma PageTemplateExample(s: string)
    requires s == "Page {page}"
    ensures PdfExpand(s, 3) == "Page 3"
  {
    PageTokenAtFive(s);
    assert NatToString(3) == "3";
  }

  /** Only the first `{page}` is filled in: "{page}/{page}" on page 2 reads "2/{page}". */
  lemma TwoTokensExample(s: string)
    requires s == "{page}/{page}"
    ensures PdfExpand(s, 2) == "2/{page}"
  {
    assert OccursAt(s, PageToken, 0);
    assert FindFirst(s, PageToken) == Some(0);
    assert NatToString(2) == "2";
    assert s[6..] == "/{page}";
  }

  /**
   * The dialog's default settings set only the right footer: the DOCX export
   * gets no header and a footer of "Page " followed by one page field, and the
   * PDF writes "Page p" on page p, which is what that footer shows on page p.
   */
  lemma DefaultSettingsExport(settings: HeaderFooterSettings, p: nat)
    requires settings == DefaultSettings
    ensures HeaderRuns(settings.headerLeft, settings.headerRight) == None
    ensures FooterRuns(settings.footerLeft, settings.footerRight) == Some([PlainRun("Page "), CurrentPageNumber])
    ensures PdfExpand(settings.footerRight, p) == "Page " + NatToString(p)
    ensures Render(FooterRuns(settings.footerLeft, settings.footerRight).value, p) == PdfExpand(settings.footerRight, p)
  {
    var s := settings.footerRight;
    var rs := [PlainRun("Page "), CurrentPageNumber];
    DefaultFooterRuns(s, p);
    assert s != "";
    var none: seq<Run> := [];
    assert none + none + DocxTemplateRuns(s) == rs;
    assert rs[1..][1..] == [];
    assert Render(rs[1..], p) == NatToString(p) + "" == NatToString(p);
  }

  /** "Page {page}" splits at its one `{page}` into "Page " and the empty string. */
  lemma DefaultFooterRuns(s: string, p: nat)
    requires s == "Page {page}"
    ensures DocxTemplateRuns(s) == [PlainRun("Page "), CurrentPageNumber]
    ensures PdfExpand(s, p) == "Page " + NatToString(p)
  {
    PageTokenAtFive(s);
    assert s[..5] == "Page ";
    assert s[11..] == "";
    assert FindFirst(s[11..], PageToken) == None;
    assert Split(s, PageToken) == ["Page ", ""];
  }

  /**
   * The header as `exportToDOCX` builds it: none when neither side is set;
   * otherwise the left template as one run with its first `{page}` deleted,
   * a tab run when both sides are set, then the right template's runs.
   */
  function HeaderRuns(left: string, right: string): Option<seq<Run>> {
    if left == "" && right == "" then None
    else Some(
      (if left != "" then [DocxHeaderLeftRun(left)] else [])
      + (if left != "" && right != "" then [TabRun] else [])
      + (if right != "" then DocxTemplateRuns(right) else []))
  }

  /** The footer as `exportToDOCX` builds it: both sides use the page-field rule. */
  function FooterRuns(left: string, right: string): Option<seq<Run>> {
    if left == "" && right == "" then None
    else Some(
      (if left != "" then DocxTemplateRuns(left) else [])
      + (if left != "" && right != "" then [TabRun] else [])
      + (if right != "" then DocxTemplateRuns(right) else []))
  }

  /** The header carries a page field only through its right template; the left one never gets one. */
  lemma {:induction false} HeaderFieldOnlyOnRight(left: string, right: string)
    requires left != "" || right != ""
    ensures FieldCount(HeaderRuns(left, right).value) == if right != "" && Contains(right, PageToken) then 1 else 0
    ensures left != "" ==> HeaderRuns(left, right).value[0] == PlainRun(ReplaceFirst(left, PageToken, ""))
  {
    var l: seq<Run> := if left != "" then [DocxHeaderLeftRun(left)] else [];
    var t: seq<Run> := if left != "" && right != "" then [TabRun] else [];
    var r: seq<Run> := if right != "" then DocxTemplateRuns(right) else [];
    FieldCountAppend(l + t, r);
    FieldCountAppend(l, t);
    DocxTemplateShape(right);
  }

  /** The footer has one page field for each side whose template contains `{page}`. */
  lemma {:induction false} FooterFields(left: string, right: string)
    requires left != "" || right != ""
    ensures FieldCount(FooterRuns(left, right).value)
      == (if left != "" && Contains(left, PageToken) then 1 else 0)
       + (if right != "" && Contains(right, PageToken) then 1 else 0)
  {
    var l: seq<Run> := if left != "" then DocxTemplateRuns(left) else [];
    var t: seq<Run> := if left != "" && right != "" then [TabRun] else [];
    var r: seq<Run> := if right != "" then DocxTemplateRuns(right) else [];
    FieldCountAppend(l + t, r);
    FieldCountAppend(l, t);
    DocxTemplateShape(left);
    DocxTemplateShape(right);
  }

  /**
   * The tab run sits between the two sides exactly when both are set; a side
   * that is not set contributes nothing, so a lone side is the whole header or footer.
   */
  lemma TabBetweenSides(left: string, right: string)
    ensures left != "" && right != "" ==>
      HeaderRuns(left, right) == Some([DocxHeaderLeftRun(left), TabRun] + DocxTemplateRuns(right))
      && FooterRuns(left, right) == Some(DocxTemplateRuns(left) + [TabRun] + DocxTemplateRuns(right))
    ensures left != "" && right == "" ==>
      HeaderRuns(left, right) == Some([DocxHeaderLeftRun(left)])
      && FooterRuns(left, right) == Some(DocxTemplateRuns(left))
    ensures left == "" && right != "" ==>
      HeaderRuns(left, right) == Some(DocxTemplateRuns(right))
      && FooterRuns(left, right) == Some(DocxTemplateRuns(right))
  {
    var none: seq<Run> := [];
    if left != "" && right != "" {
      assert [DocxHeaderLeftRun(left)] + [TabRun] + DocxTemplateRuns(right)
        == [DocxHeaderLeftRun(left), TabRun] + DocxTemplateRuns(right);
    } else if left != "" {
      assert [DocxHeaderLeftRun(left)] + none + none == [DocxHeaderLeftRun(left)];
      assert DocxTemplateRuns(left) + none + none == DocxTemplateRuns(left);
    } else if right != "" {
      assert none + none + DocxTemplateRuns(right) == DocxTemplateRuns(right);
    }
  }

  /** `exportToDOCX`'s header block: the runs pushed into `headerChildren`, in order. */
  method BuildHeader(left: string, right: string) returns (header: Option<seq<Run>>)
    ensures header == HeaderRuns(left, right)
  {
    if left == "" && right == "" {
      return None;
    }
    var children: seq<Run> := [];
    if left != "" {
      children := children + [PlainRun(ReplaceFirst(left, PageToken, ""))];
    }
    if left != "" && right != "" {
      children := children + [PlainRun("\t\t")];
    }
    if right != "" {
      children := PushTemplate(children, right);
    }
    assert children == (if left != "" then [DocxHeaderLeftRun(left)] else [])
      + (if left != "" && right != "" then [TabRun] else [])
      + (if right != "" then DocxTemplateRuns(right) else []);
    header := Some(children);
  }

  /** `exportToDOCX`'s footer block: the runs pushed into `footerChildren`, in order. */
  method BuildFooter(left: string, right: string) returns (footer: Option<seq<Run>>)
    ensures footer == FooterRuns(left, right)
  {
    if left == "" && right == "" {
      return None;
    }
    var children: seq<Run> := [];
    if left != "" {
      children := PushTemplate(children, left);
    }
    if left != "" && right != "" {
      children := children + [PlainRun("\t\t")];
    }
    if right != "" {
      children := PushTemplate(children, right);
    }
    assert children == (if left != "" then DocxTemplateRuns(left) else [])
      + (if left != "" && right != "" then [TabRun] else [])
      + (if right != "" then DocxTemplateRuns(right) else []);
    footer := Some(children);
  }

  /** The pushes the exporter performs onto `children` for one side with the page-field rule. */
  method PushTemplate(children: seq<Run>, template: string) returns (pushed: seq<Run>)
    ensures pushed == children + DocxTemplateRuns(template)
  {
    pushed := children;
    if Contains(template, PageToken) {
      var parts := Split(template, PageToken);
      if parts[0] != "" {
        pushed := pushed + [PlainRun(parts[0])];
      }
      pushed := pushed + [CurrentPageNumber];
      if parts[1] != "" {
        pushed := pushed + [PlainRun(parts[1])];
      }
    } else {
      pushed := pushed + [PlainRun(template)];
    }
  }
}

/**
 * The DOCX object graph the exporter builds (paragraphs, runs, tables) and
 * the small pure helpers it uses: highlight-colour and alignment
 * classification and the pixel to twip conversion.
 */
module Docx {
  import opened Wrappers
  import opened Text

  /** The highlight palette of the DOCX format that the exporter maps to. */
  datatype HighlightColor = Yellow | Green | Cyan | Magenta | Blue | Red

  datatype Alignment = Left | Center | Right | Justified

  datatype HeadingLevel = Heading1 | Heading2 | Heading3

  /** A run: literal text with its formatting, or the field that shows the current page number. */
  datatype Run =
    | TextRun(text: string, bold: bool, italics: bool, underline: bool, strike: bool, highlight: Option<HighlightColor>)
    | CurrentPageNumber

  /** A paragraph; `spacingAfter` and `indentLeft` are in twips, `None` when not set. */
  datatype Paragraph = Paragraph(
    runs: seq<Run>,
    heading: Option<HeadingLevel>,
    alignment: Option<Alignment>,
    spacingAfter: Option<nat>,
    indentLeft: Option<nat>)

  /** A table cell holds one paragraph; header cells are shaded. */
  datatype TableCell = TableCell(paragraph: Paragraph, shaded: bool)

  /** A top-level block of the document body. */
  datatype Block = Para(paragraph: Paragraph) | Table(rows: seq<seq<TableCell>>)

  /** `new TextRun(text)`: unformatted text. */
  function PlainRun(text: string): (r: Run)
    ensures r.TextRun? && r.text == text && !r.bold && !r.italics && !r.underline && !r.strike && r.highlight.None?
  {
    TextRun(text, false, false, false, false, None)
  }

  /** `new Paragraph({ children: runs })`: no heading, alignment, spacing or indent. */
  function PlainParagraph(runs: seq<Run>): Paragraph {
    Paragraph(runs, None, None, None, None)
  }

  /** The CSS colour names and hex values each palette entry recognises, in lower case. */
  predicate MatchesYellow(c: string) { Contains(c, "yellow") || c == "#fef08a" || c == "#ffff00" }
  predicate MatchesGreen(c: string) { Contains(c, "green") || c == "#bbf7d0" || c == "#00ff00" }
  predicate MatchesCyan(c: string) { Contains(c, "cyan") || c == "#a5f3fc" || c == "#00ffff" }
  predicate MatchesMagenta(c: string) { Contains(c, "magenta") || Contains(c, "pink") || c == "#fecdd3" }
  predicate MatchesBlue(c: string) { Contains(c, "blue") || c == "#bfdbfe" }
  predicate MatchesRed(c: string) { Contains(c, "red") || c == "#fecaca" }

  /**
   * `getDocxHighlightColor`: the first palette entry, in the order yellow,
   * green, cyan, magenta, blue, red, that the lower-cased colour matches;
   * yellow when none does.
   */
  function GetDocxHighlightColor(color: string): (r: HighlightColor)
    ensures var c := ToLower(color);
      && (r == Yellow <==> MatchesYellow(c) || !(MatchesGreen(c) || MatchesCyan(c) || MatchesMagenta(c) || MatchesBlue(c) || MatchesRed(c)))
      && (r == Green <==> !MatchesYellow(c) && MatchesGreen(c))
      && (r == Cyan <==> !MatchesYellow(c) && !MatchesGreen(c) && MatchesCyan(c))
      && (r == Magenta <==> !MatchesYellow(c) && !MatchesGreen(c) && !MatchesCyan(c) && MatchesMagenta(c))
      && (r == Blue <==> !MatchesYellow(c) && !MatchesGreen(c) && !MatchesCyan(c) && !MatchesMagenta(c) && MatchesBlue(c))
      && (r == Red <==> !MatchesYellow(c) && !MatchesGreen(c) && !MatchesCyan(c) && !MatchesMagenta(c) && !MatchesBlue(c) && MatchesRed(c))
  {
    var c := ToLower(color);
    if MatchesYellow(c) then Yellow
    else if MatchesGreen(c) then Green
    else if MatchesCyan(c) then Cyan
    else if MatchesMagenta(c) then Magenta
    else if MatchesBlue(c) then Blue
    else if MatchesRed(c) then Red
    else Yellow
  }

  /** The classification ignores case: it gives the same colour for a string and its lower-case form. */
  lemma HighlightIgnoresCase(color: string)
    ensures GetDocxHighlightColor(ToLower(color)) == GetDocxHighlightColor(color)
  {
    ToLowerIdempotent(color);
  }

  /** The colour the exporter falls back to for a `mark` without one maps to yellow. */
  lemma DefaultMarkColorIsYellow()
    ensures GetDocxHighlightColor("#fef08a") == Yellow
  {
    assert ToLower("#fef08a") == "#fef08a";
  }

  /** `getAlignment`: the first `text-align` declaration found, in the order center, right, justify; left otherwise. */
  function GetAlignment(style: string): (r: Alignment)
    ensures r == Center <==> Contains(style, "text-align: center")
    ensures r == Right <==> !Contains(style, "text-align: center") && Contains(style, "text-align: right")
    ensures r == Justified <==>
      !Contains(style, "text-align: center") && !Contains(style, "text-align: right") && Contains(style, "text-align: justify")
  {
    if Contains(style, "text-align: center") then Center
    else if Contains(style, "text-align: right") then Right
    else if Contains(style, "text-align: justify") then Justified
    else Left
  }

  /** A declaration is only recognised with exactly one space after the colon. */
  lemma AlignmentNeedsExactSpacing()
    ensures GetAlignment("text-align:center") == Left
  {
    var s := "text-align:center";
    assert forall j :: !OccursAt(s, "text-align: center", j);
    assert !Contains(s, "text-align: right") && !Contains(s, "text-align: justify") by {
      assert !OccursAt(s, "text-align: right", 0) by {
        assert s[0..17][11] == s[11];
      }
      assert forall j :: !OccursAt(s, "text-align: justify", j);
    }
  }

  /** `pixelsToTwips`: pixels at 96 per inch to points (72 per inch) to twips (20 per point). */
  function PixelsToTwips(pixels: real): (twips: real)
    ensures twips == 15.0 * pixels
    ensures twips / 1440.0 == pixels / 96.0
  {
    (pixels / 96.0) * 72.0 * 20.0
  }
}

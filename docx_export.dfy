/**
 * The DOCX export: the body converted to paragraphs and tables, the page
 * margins in twips, and the header and footer paragraphs built from the
 * templates.
 */
module DocxExport {
  import opened Wrappers
  import opened PageFormatCatalog
  import opened JsNumber
  import opened Html
  import opened Docx
  import opened Normalize
  import opened Templates

  /** A pixel length in twips; NaN stays NaN. */
  function TwipsOf(px: Num): (t: Num)
    ensures t.Fin? <==> px.Fin?
    ensures t.Fin? ==> t.value / 1440.0 == px.value / 96.0
  {
    if px.Fin? then Fin(PixelsToTwips(px.value)) else NaN
  }

  /** The section's page margins, in twips. */
  datatype PageMargins = PageMargins(top: Num, right: Num, bottom: Num, left: Num)

  function MarginsInTwips(m: Margins): PageMargins {
    PageMargins(TwipsOf(m.top), TwipsOf(m.right), TwipsOf(m.bottom), TwipsOf(m.left))
  }

  /** The document's one section: margins, the optional header and footer, and the blocks. */
  datatype DocxDocument = DocxDocument(
    margins: PageMargins, header: Option<seq<Run>>, footer: Option<seq<Run>>, children: seq<Block>)

  /**
   * The DOCX export of a body. `margins` are the page margins in pixels, an
   * input of the export (`SourceMargins` as the exporter reads them,
   * `FormatMargins` as intended).
   */
  method ExportToDocx(body: seq<Node>, opts: ExportOptions, margins: Margins) returns (doc: DocxDocument)
    ensures doc.children == ParseHtmlToDocxElements(body) && |doc.children| >= 1
    ensures doc.margins == MarginsInTwips(margins)
    ensures doc.header == HeaderRuns(opts.headerLeft, opts.headerRight)
    ensures doc.footer == FooterRuns(opts.footerLeft, opts.footerRight)
    ensures doc.header.Some? <==> opts.headerLeft != "" || opts.headerRight != ""
    ensures doc.footer.Some? <==> opts.footerLeft != "" || opts.footerRight != ""
  {
    var elements := ParseHtmlToDocxElements(body);
    var header := BuildHeader(opts.headerLeft, opts.headerRight);
    var footer := BuildFooter(opts.footerLeft, opts.footerRight);
    doc := DocxDocument(MarginsInTwips(margins), header, footer, elements);
  }

  /** As written: the margins read from fields a page format does not have, so every one is NaN. */
  function AsWrittenDocxMargins(opts: ExportOptions): PageMargins {
    MarginsInTwips(SourceMargins(GetPageFormat(FormatId(opts))))
  }

  lemma AsWrittenMarginsAreNaN(opts: ExportOptions)
    ensures var m := AsWrittenDocxMargins(opts);
      !m.top.Fin? && !m.right.Fin? && !m.bottom.Fin? && !m.left.Fin?
  {
  }

  /**
   * With the page format's margins, every side gets 1440 twips per inch of
   * margin; the default letter format gets one inch, 1440 twips, all round.
   */
  lemma FormatMarginsInTwips(opts: ExportOptions)
    ensures var f := GetPageFormat(FormatId(opts));
      var m := MarginsInTwips(FormatMargins(f));
      m.top == m.right == m.bottom == m.left == Fin(1440.0 * f.margin)
    ensures opts.pageFormat == "" ==> MarginsInTwips(FormatMargins(GetPageFormat(FormatId(opts)))).top == Fin(1440.0)
  {
  }
}

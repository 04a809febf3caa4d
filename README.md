# Document pagination and export, in Dafny

This project models the conversion core of a rich-text editor with document
pagination. The editor keeps its document as HTML. Three pieces of logic work
on it:

- **The page format catalog.** Six named page sizes, each with one margin in
  inches. A lookup falls back to `letter`. The sizes convert to pixels at
  96 pixels per inch.
- **On-screen pagination.** The measured height of the editor content is
  divided into pages of the format's content height. One page break is
  recorded for each page after the first.
- **The two exporters.**
  - DOCX: the HTML is normalised into headings, paragraphs, list items,
    tables and block quotes. Inline text becomes runs that carry bold,
    italic, underline, strike and highlight. Header and footer templates
    become runs with a live page-number field.
  - PDF: the top-level blocks are laid out with a vertical cursor. A new
    page starts when a block would cross the bottom limit. A second pass
    writes the header and footer templates onto every page, with `{page}`
    replaced by the page number.

Module layout:

| file | module | what it holds |
|---|---|---|
| `wrappers.dfy` | `Wrappers` | `Option` |
| `text.dfy` | `Text` | the JavaScript string operations the code relies on: first-occurrence `replace`, `split`, `trim`, ASCII `toLowerCase`, `includes`, `String(n)` |
| `page_formats.dfy` | `PageFormatCatalog` | the format table, the lookup, pixel dimensions |
| `page_breaks.dfy` | `PageBreaks` | the page count and break list, as a loop and as a class holding the hook's state |
| `js_number.dfy` | `JsNumber` | numbers that may be NaN; the page margins as the exporters read them and as intended |
| `html.dfy` | `Html` | the parsed DOM tree, `textContent`, and the selector scopes (all descendants, direct children) |
| `docx_model.dfy` | `Docx` | the DOCX output datatypes, the highlight and alignment classifiers, pixels to twips |
| `runs.dfy` | `Runs` | `getTextRuns`/`extractRuns`, with a leaf-path characterisation of the formatting |
| `normalize.dfy` | `Normalize` | `processNode` and `parseHTMLToDocxElements` |
| `templates.dfy` | `Templates` | export options, `{page}` handling on both paths, the DOCX header and footer builders |
| `pdf.dfy` | `Pdf` | the PDF cursor state machine, the writer class running it line by line, the header/footer pass |
| `docx_export.dfy` | `DocxExport` | the DOCX document record: margins in twips, header, footer, body |

Modelling choices:

- **Absent values.** An option that is `undefined` and one that is the empty
  string behave the same under the code's `||` and `if` tests. Both are
  modelled as `""`.
- **Tag names.** Tags are modelled already lower-cased.
- **Inline `background-color`.** The browser's parse of the inline style is
  kept as a separate field of an element.
- **Line breaking.** jsPDF's `splitTextToSize` is a function given to the
  PDF layout. It returns the number of lines a text takes in a given font
  and width. The font is tracked because a list inherits the font of the
  block before it.
- **Page size and margins.** jsPDF's page size, in millimetres, is an input
  of the PDF export. The page margins are an input of both exports (see
  Findings).
- **Numbers.** Lengths are `real`. A number that can be NaN is `Num`.

Behaviour worth knowing:

- **Only the first `{page}` is replaced in the PDF.** JavaScript `replace`
  with a string pattern replaces one occurrence, so `"{page}/{page}"` on
  page 2 reads `"2/{page}"` (`Templates.TwoTokensExample`).
- **Runs are never merged.** One run is produced per non-empty text node,
  so two adjacent text nodes with the same formatting give two runs.
- **Blocks the PDF skips.** The PDF path lays out only top-level `h1`, `h2`,
  `h3`, `p`, `ul`, `ol` and `table` elements. Block quotes and the contents
  of wrapper elements are skipped, while the DOCX path keeps them.
- **Lists.** PDF list items are all `li` descendants. DOCX list items are
  direct `li` children only.
- **Page checks in the PDF.** The check happens once per block, before the
  block, not before each line. A page starts at 5 mm below the top margin.
  Table rows that overflow add pages without advancing the page counter.
- **DOCX cell shading.** A cell is shaded when the cell itself is a `th`,
  not when its row contains one.
- **Margins.** A page format has one margin, but both exporters read four
  margin fields it does not have (Findings).

## Model

| member | source | states |
|---|---|---|
| PageFormatCatalog.CatalogWellFormed | lib/page-formats.ts:17-60 | every table entry's `id` equals its key; the keys are exactly the six format ids, without repeats |
| PageFormatCatalog.CatalogMarginsFit | lib/page-formats.ts:17-60 | in every format the margin is positive and twice the margin is less than both the width and the height |
| PageFormatCatalog.GetPageFormat | lib/page-formats.ts:84-86 | a known id gives its table entry; any other id gives the `letter` entry; the result's `id` is the id asked for, or `letter`; the result is always one of the table's entries |
| PageFormatCatalog.GetPageDimensionsInPixels | lib/page-formats.ts:65-79 | width, height and margin are scaled by exactly 96; content width and height are the page's width and height minus two margins |
| PageFormatCatalog.ContentAreaPositive | lib/page-formats.ts:71-86 | for every id, known or not, the content width and content height in pixels are positive |
| PageFormatCatalog.LetterDimensions | lib/page-formats.ts:17-24 | letter is 816 by 1056 pixels, with a 96-pixel margin and a 624 by 864 content area |
| PageFormatCatalog.GetAllPageFormats | lib/page-formats.ts:91-93 | six entries, one per id in table order; a format is listed iff it is in the table |
| PageBreaks.Ceil | hooks/use-page-breaks.ts:59 | `Math.ceil`: the least integer not below its argument |
| PageBreaks.NumPages | hooks/use-page-breaks.ts:59 | `max(1, ceil(h / c))` for a positive page height; no contract of its own, `NumPagesBounds` below states what it means |
| PageBreaks.NumPagesBounds | hooks/use-page-breaks.ts:59 | at least one page; height 0 gives one page; otherwise the pages cover the height with less than one page to spare |
| PageBreaks.ThreeAndAHalfPages | hooks/use-page-breaks.ts:59 | content of 3.5 page heights takes 4 pages |
| PageBreaks.PageBreaksFor | hooks/use-page-breaks.ts:62-68 | the break list as a value, one entry per page after the first; no contract of its own, `BreaksInsideContent` and `CalculateBreaks` state its shape |
| PageBreaks.BreaksInsideContent | hooks/use-page-breaks.ts:62-68 | break k is on page k+2 at offset (k+1)·c, below the top and above the content's end; page numbers and offsets strictly increase |
| PageBreaks.CalculateBreaks | hooks/use-page-breaks.ts:56-68 | the loop returns `max(1, ceil(h/c))` pages and exactly pages−1 breaks, break k being `{k+2, (k+1)·c}` |
| PageBreaks.PageBreakTracker.Recalculate | hooks/use-page-breaks.ts:47-72 | without an editor element nothing changes; otherwise the stored pages and breaks are those of the scroll height and the format's content height |
| Html.Attribute | lib/export-utils.ts:438 | `getAttribute(name) || ""`: the attribute as written, or the empty string when absent; no contract of its own |
| Html.TextContent | lib/export-utils.ts:109 | `textContent`: the text of every text node below, in document order; no contract of its own, `Runs.ExtractRunsText` ties the runs to it |
| Html.ElementChildren | lib/export-utils.ts:187 | `children`: a node is returned iff it is a child node that is an element, and there are no more of them than child nodes |
| Html.SelectAll | lib/export-utils.ts:325-326 | `querySelectorAll` over all descendants: every node it returns is an element with one of the tags |
| Html.SelectAllFinds | lib/export-utils.ts:188 | `querySelector` finds something iff some node below the starting nodes has one of the tags |
| Html.SelectAllIff | lib/export-utils.ts:325-326 | a node is selected iff it lies below the starting nodes and has one of the tags: no descendant at any depth is skipped, and nothing else is returned |
| Html.SelectChildren | lib/export-utils.ts:311 | `:scope > li`: every node it returns is a child with the tag, and there are no more of them than children |
| Html.SelectAllAppend | lib/export-utils.ts:325 | a descendant query over a concatenation is the concatenation of the queries, so document order is kept |
| Html.SelectChildrenMembers | lib/export-utils.ts:311 | a `:scope >` query returns exactly the direct children with the tag |
| Html.NestedSelection | lib/export-utils.ts:161 | an `li` one level down is found by the descendant query but not by the direct-children query |
| Text.Contains | lib/export-utils.ts:416-441 | `includes`: true iff the pattern occurs at some index |
| Text.FindFirst | lib/export-utils.ts:227 | `indexOf`: the index found is an occurrence and no earlier index is one; nothing is found iff there is no occurrence |
| Text.ReplaceFirst | lib/export-utils.ts:227 | with no `{page}`, the text is unchanged; otherwise only the first occurrence is replaced |
| Text.Split | lib/export-utils.ts:499 | a split has at least one part and no part contains the separator |
| Text.JoinSplit | lib/export-utils.ts:499 | joining the parts of a split with the separator gives back the text |
| Text.Trim | lib/export-utils.ts:264 | `trim`: leading then trailing JavaScript white space removed; no contract of its own, `TrimSlice` and `TrimEmptyIff` state what it keeps |
| Text.TrimSlice | lib/export-utils.ts:264 | a trimmed text is one contiguous slice of the input with only white space cut on either side, and it neither starts nor ends with white space |
| Text.TrimEmptyIff | lib/export-utils.ts:264-265 | a trimmed text is empty iff every character is JavaScript whitespace |
| Text.ToLower | lib/export-utils.ts:415 | `toLowerCase`: the same length, each character lowered on its own (ASCII letters only) |
| Text.NatToString | lib/export-utils.ts:227 | `String(p)`: at least one character, decimal digits only, no leading zero |
| Text.NatToStringRoundTrip | lib/export-utils.ts:227 | the decimal string of a page number reads back as that number |
| Docx.GetDocxHighlightColor | lib/export-utils.ts:414-435 | case-insensitive first match in the order yellow, green, cyan, magenta/pink, blue, red, each iff its test holds and no earlier one does; yellow also when none holds |
| Docx.HighlightIgnoresCase | lib/export-utils.ts:415 | the classification of a colour and of its lower-cased form agree |
| Docx.DefaultMarkColorIsYellow | lib/export-utils.ts:403 | the default mark colour `#fef08a` maps to yellow |
| Docx.GetAlignment | lib/export-utils.ts:437-443 | center iff the style contains `text-align: center`; right iff not center and it contains `text-align: right`; justified likewise; left otherwise |
| Docx.AlignmentNeedsExactSpacing | lib/export-utils.ts:439 | `text-align:center` without the space is left-aligned |
| Docx.PixelsToTwips | lib/export-utils.ts:456-461 | 15 twips per pixel: the length in inches is the same in both units |
| Runs.MarkColor | lib/export-utils.ts:402-404 | the contract: the highlight of a `mark` is never empty. The fallback chain (`data-color`, else the inline background colour, else `#fef08a`) is the body |
| Runs.Descend | lib/export-utils.ts:396-404 | the formatting inside an element: each flag is the inherited one or set by the tag, and a `mark` sets the highlight; no contract of its own, `DescendInherited` states that nothing is cleared |
| Runs.RunOf | lib/export-utils.ts:374-386 | the run for a non-empty text node: the text, the four flags, and the highlight mapped to the palette when one is in force; no contract of its own, `ExtractRunsLeaves` uses it per leaf |
| Runs.GetTextRuns | lib/export-utils.ts:367-412 | never empty; every run is a text run; the runs' texts concatenate to the element's `textContent` |
| Runs.ExtractRuns | lib/export-utils.ts:370-407 | the runs `extractRuns` pushes for one node under the inherited formatting; no contract of its own, the three lemmas below characterise it |
| Runs.ExtractRunsSeq | lib/export-utils.ts:406 | the runs of sibling nodes, one after the other, under the same formatting |
| Runs.ExtractRunsText | lib/export-utils.ts:370-407 | the runs of a subtree spell its `textContent`, in order |
| Runs.ExtractRunsNonEmpty | lib/export-utils.ts:371-373 | no run has empty text |
| Runs.ExtractRunsLeaves | lib/export-utils.ts:370-407 | one run per non-empty text node, in document order; each flag holds iff some ancestor on its path sets it; the highlight comes from the nearest enclosing `mark` |
| Runs.GetTextRunsByLeaves | lib/export-utils.ts:409-411 | the runs of an element are those of its text leaves, or one empty run when there are none |
| Runs.DescendInherited | lib/export-utils.ts:396-404 | descending into an element adds its formatting to the inherited formatting, which is never cleared |
| Runs.NestedFormattingExample | lib/export-utils.ts:396-406 | `<p><strong>a<em>b</em>c</strong></p>` gives bold "a", bold italic "b", bold "c" |
| Runs.EmptyParagraphExample | lib/export-utils.ts:411 | an empty paragraph gives one empty run |
| Normalize.ProcessNode | lib/export-utils.ts:257-269 | the blocks of one node; every table among them has a row, every row a cell, and the empty spacing paragraph directly after the table |
| Normalize.ProcessElement | lib/export-utils.ts:276-361 | the `switch` on the tag keeps the same table shape; `TextElementParagraph` states the h1/h2/h3/p/blockquote cases, `ListItems` the lists, `TableBlocks` the table and `TransparentWrapper` every other element |
| Normalize.ProcessSeq | lib/export-utils.ts:357-361 | sibling nodes contribute their blocks in order, and the table shape survives the concatenation |
| Normalize.ListPrefix | lib/export-utils.ts:314 | "• " for `ul`, the 1-based number and ". " for `ol`; no contract of its own, `OrderedPrefix` states the numbering |
| Normalize.ListItemParagraph | lib/export-utils.ts:312-319 | one list item: the prefix run, then the item's runs, spacing 100, indent 720; no contract of its own, `ListItems` states it per item |
| Normalize.ListParagraphs | lib/export-utils.ts:311-320 | one paragraph per list item |
| Normalize.TableRows | lib/export-utils.ts:325-339 | at most one row per `tr`, and no kept row is empty |
| Normalize.ParseHtmlToDocxElements | lib/export-utils.ts:445-453 | never empty; an empty conversion gives the one empty paragraph; otherwise the blocks of the body's nodes in order |
| Normalize.ProcessSeqAppend | lib/export-utils.ts:445-447 | the blocks of a concatenation are the concatenation of the blocks |
| Normalize.TransparentWrapper | lib/export-utils.ts:357-361 | any tag other than the eight block tags is transparent: replacing it by its children changes nothing |
| Normalize.BareText | lib/export-utils.ts:263-269 | a text node gives one plain paragraph of its trimmed text, or nothing iff it is all whitespace |
| Normalize.BlankBody | lib/export-utils.ts:449-451 | a body of whitespace text and other nodes exports as the one empty paragraph |
| Normalize.ListItems | lib/export-utils.ts:309-321 | one paragraph per direct `li` child: its prefix run, then its runs, indented 720 twips |
| Normalize.OrderedPrefix | lib/export-utils.ts:314 | the k-th ordered prefix is the decimal of k+1 and ". " |
| Normalize.ListIgnoresOtherChildren | lib/export-utils.ts:311 | removing every child that is not an `li` leaves the list's output unchanged |
| Normalize.RowCells | lib/export-utils.ts:326-335 | one cell per `th`/`td` below the row, in order; a cell is shaded iff it is a `th` |
| Normalize.TableBlocks | lib/export-utils.ts:323-347 | a table gives the table and exactly one empty paragraph when a row survives, and nothing otherwise; no kept row is empty |
| Normalize.TextElementParagraph | lib/export-utils.ts:276-356 | an h1, h2, h3, p or blockquote element gives one paragraph of its text runs (reading as its text content), with heading level and spacing 200/160/120 for the headings, the alignment of its `style` and spacing 200 for `p`, and spacing 200 with a 720-twip indent for `blockquote` |
| Normalize.TableRowsAppend | lib/export-utils.ts:325-339 | the rows of two consecutive `tr` lists are the rows of the first followed by the rows of the second, so rows keep document order |
| Normalize.TableRowsKept | lib/export-utils.ts:336-338 | a row is kept iff it has a `th` or `td` below it |
| Normalize.HeadingParagraphTableExample | lib/export-utils.ts:276-347 | a heading, a paragraph with underlined text and a table export to the expected blocks |
| Templates.FormatId | lib/export-utils.ts:59 | the page format id is never empty and is the option when one is given |
| Templates.PdfExpand | lib/export-utils.ts:227 | the PDF text of a template on page p; no contract of its own, `PdfDocxAgree`, `PageTemplateExample` and `TwoTokensExample` state what it gives |
| Templates.DocxHeaderLeftRun | lib/export-utils.ts:487-491 | the left header as one plain run with its first `{page}` deleted and no page field; no contract of its own, `HeaderFieldOnlyOnRight` places it |
| Templates.DocxTemplateRuns | lib/export-utils.ts:498-511 | the DOCX runs of a template; no contract of its own, `DocxTemplateShape` states their shape |
| Templates.DocxTemplateShape | lib/export-utils.ts:498-511 | a template with `{page}` gets exactly one page field, and its text is the part before it and the part up to a second `{page}` (the rest is lost); without `{page}` it is one literal run |
| Templates.PdfDocxAgree | lib/export-utils.ts:227 | the PDF text and the DOCX runs show the same on a page iff the template has at most one `{page}` |
| Templates.PageTemplateExample | lib/export-utils.ts:227 | "Page {page}" on page 3 reads "Page 3" |
| Templates.TwoTokensExample | lib/export-utils.ts:227 | "{page}/{page}" on page 2 reads "2/{page}" |
| Templates.HeaderFieldOnlyOnRight | lib/export-utils.ts:484-512 | the header has a page field iff the right template contains `{page}`; when the left side is set, the header starts with one plain run of the left template with its first `{page}` deleted |
| Templates.FooterFields | lib/export-utils.ts:526-565 | the footer has one page field per side whose template contains `{page}` |
| Templates.HeaderRuns | lib/export-utils.ts:483-522 | the header as a value; no contract of its own, `HeaderFieldOnlyOnRight` counts its page fields |
| Templates.FooterRuns | lib/export-utils.ts:524-575 | the footer as a value; no contract of its own, `FooterFields` counts its page fields |
| Templates.TabBetweenSides | lib/export-utils.ts:483-575 | in the header and the footer the tab run sits between the two sides exactly when both are set; a lone side is the whole header or footer |
| Templates.BuildHeader | lib/export-utils.ts:483-522 | the pushes give no header when neither side is set; otherwise the left run, a tab run when both sides are set, then the right runs |
| Templates.BuildFooter | lib/export-utils.ts:524-575 | the pushes give no footer when neither side is set; otherwise the left runs, a tab run when both sides are set, then the right runs |
| Templates.DefaultSettingsExport | components/ui/rich-text-editor/header-footer-dialog.tsx:20-25 | with the dialog's default settings the DOCX export has no header and a footer of "Page " and one page field; the PDF writes "Page p" on page p, which is what that footer shows there |
| Templates.PushTemplate | lib/export-utils.ts:529-543 | the pushes append exactly the template's runs |
| Pdf.PixelsToMM | lib/export-utils.ts:44-47 | NaN in, NaN out; otherwise the result times 3.779528 is the input |
| Pdf.GetJsPDFFormat | lib/export-utils.ts:31-42 | a known id maps to itself; any other id to `letter` |
| Pdf.JsPdfFormatMatchesPageFormat | lib/export-utils.ts:59-61 | the jsPDF format always names the same page as the page format that is looked up |
| Pdf.MakeLayout | lib/export-utils.ts:63-79 | the page height is jsPDF's, the top and bottom margins are the pixel margins in millimetres, and the content width is the page width minus the left and right margins |
| Pdf.TopY | lib/export-utils.ts:81 | the cursor at the start of a page: 5 mm below the top margin; no contract of its own |
| Pdf.Limit | lib/export-utils.ts:97 | the lowest a block may reach: page height − bottom margin − 5; no contract of its own, `PageChecked` uses it |
| Pdf.PageChecked | lib/export-utils.ts:96-102 | a new page, counter advanced and cursor at top margin + 5, exactly when y + h exceeds page height − bottom margin − 5; otherwise no change |
| Pdf.TextBlock | lib/export-utils.ts:105-155 | a heading or paragraph: page check, font, lines × line height, gap; no contract of its own, `StepPages` bounds its pages |
| Pdf.Bullet | lib/export-utils.ts:163 | "•" for `ul`, the item's number and "." for `ol`; no contract of its own |
| Pdf.ListItemsFrom | lib/export-utils.ts:161-170 | the items of a list in order, numbered from the given index, with no page check between them; `ListItemsKeepPages` states that they add no page |
| Pdf.ListItemsKeepPages | lib/export-utils.ts:161-170 | a list's items add no page, keep the page counter and the inherited font, and keep a NaN cursor NaN |
| Pdf.Start | lib/export-utils.ts:81-82 | the cursor before the body: `y` at the layout's top, `pageNum` 1, one page and the default font; no contract of its own, `AsWrittenSinglePage` and `OverflowStartsPageTwo` start from it |
| Pdf.IsHeaderRow | lib/export-utils.ts:188 | `row.querySelector("th") !== null`: true iff the row is an element with a `th` somewhere below it |
| Pdf.TableRow | lib/export-utils.ts:181-210 | one table row: the 8 mm overflow check without `pageNum`, the cell font, then 8 mm; `TableRowsPageCount` states its pages |
| Pdf.TableRows | lib/export-utils.ts:180-211 | the rows of a table in order; `TableRowsPageCount` states its pages |
| Pdf.Step | lib/export-utils.ts:89-215 | one top-level node of the body; `SkippedNodes` and `StepPages` state its effect |
| Pdf.Flow | lib/export-utils.ts:89-215 | the body node by node; `FlowPages` and `NaNMarginsNeverBreak` state its effect |
| Pdf.SkippedNodes | lib/export-utils.ts:89-104 | a node that is not an element with one of the seven drawn tags leaves the state unchanged |
| Pdf.StepPages | lib/export-utils.ts:104-213 | a block other than a table adds at most one page, however many lines it has; a table adds at most one page per row plus one; only table rows add pages without advancing `pageNum` |
| Pdf.TableRowsPageCount | lib/export-utils.ts:181-185 | table rows never advance `pageNum` and add at most one page each |
| Pdf.FlowPages | lib/export-utils.ts:81-102 | over a body, `pageNum` never runs ahead of the page count; without tables the two advance together, at most one per block |
| Pdf.PdfWriter.CheckNewPage | lib/export-utils.ts:96-102 | the closure's state change is `PageChecked` |
| Pdf.PdfWriter.WriteLines | lib/export-utils.ts:150-153 | one line after another moves the cursor by lines × line height |
| Pdf.PdfWriter.WriteTextBlock | lib/export-utils.ts:105-155 | check, font, lines, gap, as the heading and paragraph cases do |
| Pdf.PdfWriter.WriteList | lib/export-utils.ts:157-172 | each item, numbered from 1, takes the lines of its prefixed text at content width − 5, in the inherited font |
| Pdf.PdfWriter.WriteTable | lib/export-utils.ts:174-213 | per row: a new page when the 8 mm row would cross the limit, the font weight of a header row, then 8 mm |
| Pdf.PdfWriter.WriteNode | lib/export-utils.ts:89-215 | the state after a node is `Step`'s |
| Pdf.PdfWriter.WriteBody | lib/export-utils.ts:89-215 | the state after the body is `Flow`'s |
| Pdf.SlotY | lib/export-utils.ts:228-242 | headers 2 mm above the top margin, footers 2 mm below the bottom margin; no contract of its own, `PageStampsMembers` places the stamps with it |
| Pdf.PageStamps | lib/export-utils.ts:226-243 | one stamp per set template of a page |
| Pdf.StampsUpTo | lib/export-utils.ts:219-244 | the pass as a value, pages 1 to n; `StampsUpToMembers` and `StampsUpToLength` state its contents |
| Pdf.StampPages | lib/export-utils.ts:219-244 | the `for` loop over pages 1 to the page count yields exactly `StampsUpTo` |
| Pdf.PageStampsMembers | lib/export-utils.ts:220-244 | a page's stamps are exactly the set templates, each with its first `{page}` replaced by that page's number |
| Pdf.StampsUpToMembers | lib/export-utils.ts:218-245 | the pass stamps each page from 1 to the page count with each set template, and nothing else |
| Pdf.StampsUpToLength | lib/export-utils.ts:218-245 | the pass writes pages × (number of set templates) stamps |
| Pdf.HeaderFooterPass | lib/export-utils.ts:217-245 | the loop produces the stamps of pages 1 to the page count in order, and none when no template is set |
| Pdf.StampPage | lib/export-utils.ts:226-243 | one page's stamps in the order header left, header right, footer left, footer right |
| Pdf.ExportToPdf | lib/export-utils.ts:50-247 | the jsPDF format is the looked-up format; the page count is the layout's; the stamps are those of every page |
| Pdf.NaNMarginsNeverBreak | lib/export-utils.ts:97 | with a NaN bottom margin no check fires and no page is ever added |
| Pdf.AsWrittenSinglePage | lib/export-utils.ts:64-67 | as written, every body is laid out on one page and the headers and footers sit at a NaN baseline |
| Pdf.FiniteMarginsKeepBlockOnPage | lib/export-utils.ts:96-102 | with finite margins, a block that fits on an empty page ends above the limit after the check; a page is added iff it would have crossed |
| Pdf.OverflowStartsPageTwo | lib/export-utils.ts:144-155 | with finite margins, a paragraph that overflows the page pushes the next one onto page two |
| Pdf.FormatMarginsBreakLetterPages | lib/export-utils.ts:64-67 | with the format's own margins, a 45-line paragraph on a letter page pushes the next paragraph onto page two |
| DocxExport.TwipsOf | lib/export-utils.ts:477-480 | NaN in, NaN out; otherwise the length in inches is kept |
| DocxExport.MarginsInTwips | lib/export-utils.ts:477-480 | each side's margin through `TwipsOf`; no contract of its own |
| DocxExport.ExportToDocx | lib/export-utils.ts:464-593 | the body is the normalised blocks; the margins are in twips; header and footer are present iff a side is set, and are the built runs |
| JsNumber.SourceMargins | lib/export-utils.ts:64-67 | the margins as the exporters read them: all four are NaN, because the page format has no such fields |
| JsNumber.FormatMargins | lib/page-formats.ts:71-75 | the margins as intended: the format's one margin in pixels on every side |
| DocxExport.AsWrittenMarginsAreNaN | lib/export-utils.ts:477-480 | as written, all four margins in twips are NaN |
| DocxExport.FormatMarginsInTwips | lib/export-utils.ts:477-480 | with the format's margins, every side is 1440 twips per inch of margin; the default letter has 1440 twips |

## Left out

- Foreign libraries are not modelled. The model takes their results as inputs or produces records:
  - the browser's `DOMParser` and its inline-style parser;
  - jsPDF drawing: positions, borders, fills, text colour, and the 20-character cell truncation;
  - jsPDF's `splitTextToSize` and page size, which are inputs;
  - the `docx` package's `Packer`, table width and tab stops;
  - file saving.
- The horizontal position of right-aligned headers and footers depends on jsPDF's `getTextWidth`. It is not modelled.
- Floating-point rounding: lengths are `real`, so pixel, millimetre and twip arithmetic is exact.
- `exportToPDF` catches any error and reports it through `console.error` and `alert`. That is I/O and is not modelled.
- The hook's observers, event wiring and `requestAnimationFrame` debouncing are scheduling, not logic. `PageBreakTracker.Recalculate` models one recalculation.
- `toLowerCase` is modelled for ASCII letters only. Other characters are left as they are.
- `getPageFormat` and `getJsPDFFormat` use a JavaScript object lookup with a `||` fallback, so an id naming an inherited property (`"constructor"`) would not fall back to `letter` in either. The model treats every id outside the six as unknown in both.
- The print path, the menu bar, the dialogs and the editor configuration are user interface. Only the dialog's default header/footer settings are kept (`Templates.DefaultSettings`), with what both exports make of them.
- Pdf.ExportToPdf: takes the page margins as an input rather than reading them from the format. The code reads fields that do not exist (Findings).
- DocxExport.ExportToDocx: takes the page margins as an input, for the same reason.

## Findings

| source | as written | input that shows it | evidently intended | confidence | as-written member | corrected member |
|---|---|---|---|---|---|---|
| lib/export-utils.ts:64-67 | the PDF margins are `pixelsToMM(pageFormat.marginTop)` and so on; a page format has only `margin`, so each is `undefined` and every margin in millimetres is NaN; `y + h > NaN` is always false | a letter export whose first paragraph takes 45 lines, followed by a second paragraph: no page check can fire, so the export has one page; the cursor, every body line and every header/footer baseline are NaN; what jsPDF draws at NaN is not modelled | each margin is the format's one margin, 96 pixels per inch | high, not executed | Pdf.AsWrittenSinglePage | Pdf.FormatMarginsBreakLetterPages |
| lib/export-utils.ts:477-480 | the DOCX margins are `pixelsToTwips(pageFormat.marginTop)` and so on, the same missing fields, so every margin in twips is NaN | any DOCX export | each margin is 1440 twips per inch of the format's margin | high, not executed | DocxExport.AsWrittenMarginsAreNaN | DocxExport.FormatMarginsInTwips |

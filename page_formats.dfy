/**
 * The page geometry catalog: six named page formats (sizes and one margin in
 * inches), a total lookup that falls back to Letter, and the conversion of a
 * format to pixels at 96 dots per inch.
 */
module PageFormatCatalog {

  /** One catalog entry; width, height and margin are in inches. */
  datatype PageFormat = PageFormat(id: string, name: string, width: real, height: real, margin: real)

  /** A format converted to pixels, with the area left inside the margins. */
  datatype PageDimensions = PageDimensions(
    width: real, height: real, margin: real, contentWidth: real, contentHeight: real)

  /** The catalog, keyed by format id. */
  const PageFormats: map<string, PageFormat> := map[
    "letter" := PageFormat("letter", "Letter", 8.5, 11.0, 1.0),
    "legal" := PageFormat("legal", "Legal", 8.5, 14.0, 1.0),
    "tabloid" := PageFormat("tabloid", "Tabloid", 11.0, 17.0, 1.0),
    "a3" := PageFormat("a3", "A3", 11.69, 16.54, 1.0),
    "a4" := PageFormat("a4", "A4", 8.27, 11.69, 1.0),
    "a5" := PageFormat("a5", "A5", 5.83, 8.27, 0.75)
  ]

  /** The catalog's ids in declaration order. */
  const PageFormatIds: seq<string> := ["letter", "legal", "tabloid", "a3", "a4", "a5"]

  const DefaultPageFormat: string := "letter"

  /** Pixels per inch. */
  const InchesToPixels: real := 96.0

  /** Every entry is filed under its own id, and the id list names exactly the catalog's keys. */
  lemma CatalogWellFormed()
    ensures forall k :: k in PageFormats ==> PageFormats[k].id == k
    ensures forall k :: k in PageFormats <==> k in PageFormatIds
    ensures forall i, j :: 0 <= i < j < |PageFormatIds| ==> PageFormatIds[i] != PageFormatIds[j]
  {
  }

  /** Every format leaves a positive area inside its margins. */
  lemma CatalogMarginsFit()
    ensures forall k :: k in PageFormats ==>
      PageFormats[k].margin > 0.0
      && PageFormats[k].width - 2.0 * PageFormats[k].margin > 0.0
      && PageFormats[k].height - 2.0 * PageFormats[k].margin > 0.0
  {
  }

  /** `getPageFormat`: the entry for `id`, or the default entry for an unknown id. */
  function GetPageFormat(id: string): (f: PageFormat)
    ensures id in PageFormats ==> f == PageFormats[id]
    ensures id !in PageFormats ==> f == PageFormats[DefaultPageFormat]
    ensures f.id == if id in PageFormats then id else DefaultPageFormat
    ensures f in PageFormats.Values
  {
    if id in PageFormats then PageFormats[id] else PageFormats[DefaultPageFormat]
  }

  /** `getPageDimensionsInPixels`. */
  function GetPageDimensionsInPixels(f: PageFormat): (d: PageDimensions)
    ensures d.width == f.width * InchesToPixels
    ensures d.height == f.height * InchesToPixels
    ensures d.margin == f.margin * InchesToPixels
    ensures d.contentWidth == d.width - 2.0 * d.margin
    ensures d.contentHeight == d.height - 2.0 * d.margin
  {
    PageDimensions(
      f.width * InchesToPixels,
      f.height * InchesToPixels,
      f.margin * InchesToPixels,
      (f.width - f.margin * 2.0) * InchesToPixels,
      (f.height - f.margin * 2.0) * InchesToPixels)
  }

  /** Whatever id is asked for, the resolved format has a positive content area in pixels. */
  lemma {:induction false} ContentAreaPositive(id: string)
    ensures GetPageDimensionsInPixels(GetPageFormat(id)).contentWidth > 0.0
    ensures GetPageDimensionsInPixels(GetPageFormat(id)).contentHeight > 0.0
  {
    CatalogMarginsFit();
    var f := GetPageFormat(id);
    assert f.width - 2.0 * f.margin > 0.0 && f.height - 2.0 * f.margin > 0.0;
  }

  /** `getAllPageFormats`: the six entries in declaration order, one per id. */
  function GetAllPageFormats(): (r: seq<PageFormat>)
    ensures |r| == |PageFormatIds|
    ensures forall i :: 0 <= i < |r| ==> r[i].id == PageFormatIds[i] && r[i] == PageFormats[PageFormatIds[i]]
    ensures forall f :: f in PageFormats.Values <==> f in r
  {
    CatalogWellFormed();
    seq(|PageFormatIds|, i requires 0 <= i < |PageFormatIds| => PageFormats[PageFormatIds[i]])
  }

  /** Letter resolves to 8.5 by 11 inches with a one-inch margin: 864 pixels of content height. */
  lemma LetterDimensions()
    ensures GetPageDimensionsInPixels(GetPageFormat("letter"))
      == PageDimensions(816.0, 1056.0, 96.0, 624.0, 864.0)
  {
  }
}

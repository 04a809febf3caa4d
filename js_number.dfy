/**
 * The few JavaScript number semantics the exporters depend on, and the page
 * margins they read. Arithmetic on `undefined` yields NaN, NaN absorbs every
 * further operation, and every comparison with NaN is false.
 */
module JsNumber {
  import opened PageFormatCatalog

  /** A JavaScript number: a finite value, or NaN. */
  datatype Num = NaN | Fin(value: real)

  /** `a + b`. */
  function Add(a: Num, b: Num): (r: Num)
    ensures r.Fin? <==> a.Fin? && b.Fin?
    ensures r.Fin? ==> r.value == a.value + b.value
  {
    if a.Fin? && b.Fin? then Fin(a.value + b.value) else NaN
  }

  /** `a - b`. */
  function Sub(a: Num, b: Num): (r: Num)
    ensures r.Fin? <==> a.Fin? && b.Fin?
    ensures r.Fin? ==> r.value == a.value - b.value
  {
    if a.Fin? && b.Fin? then Fin(a.value - b.value) else NaN
  }

  /** `a > b`: false whenever either side is NaN. */
  predicate Greater(a: Num, b: Num) {
    a.Fin? && b.Fin? && a.value > b.value
  }

  /** Page margins in pixels, as the exporters read them from the page format. */
  datatype Margins = Margins(top: Num, bottom: Num, left: Num, right: Num)

  /**
   * The margins as the exporters actually read them: `marginTop`,
   * `marginBottom`, `marginLeft` and `marginRight` are not fields of a page
   * format, so each reads as `undefined` and every number computed from it is NaN.
   */
  function SourceMargins(f: PageFormat): (m: Margins)
    ensures !m.top.Fin? && !m.bottom.Fin? && !m.left.Fin? && !m.right.Fin?
  {
    Margins(NaN, NaN, NaN, NaN)
  }

  /** The margins evidently intended: the format's one margin on every side, in pixels. */
  function FormatMargins(f: PageFormat): (m: Margins)
    ensures var px := GetPageDimensionsInPixels(f).margin;
      m.top == m.bottom == m.left == m.right == Fin(px)
  {
    var px := Fin(f.margin * InchesToPixels);
    Margins(px, px, px, px)
  }
}

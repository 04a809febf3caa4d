/**
 * On-screen pagination: the page count and the page-break positions computed
 * from the editor's measured content height, and the hook state they are
 * written into.
 */
module PageBreaks {
  import opened Wrappers
  import opened PageFormatCatalog

  /** A break before page `pageNumber`, `topOffset` pixels from the top of the content. */
  datatype PageBreakInfo = PageBreakInfo(pageNumber: int, topOffset: real)

  /** `Math.ceil`: the least integer not below `x`. */
  function Ceil(x: real): (n: int)
    ensures n as real >= x
    ensures (n - 1) as real < x
  {
    if x.Floor as real == x then x.Floor else x.Floor + 1
  }

  function Max(a: int, b: int): int {
    if a >= b then a else b
  }

  /** `max(1, ceil(h / c))`: the pages needed for `h` pixels at `c` pixels per page. */
  function NumPages(h: nat, c: real): int
    requires c > 0.0
  {
    Max(1, Ceil(h as real / c))
  }

  /** There is always a page, and the pages cover the content with less than one page to spare. */
  lemma {:induction false} NumPagesBounds(h: nat, c: real)
    requires c > 0.0
    ensures NumPages(h, c) >= 1
    ensures h == 0 ==> NumPages(h, c) == 1
    ensures h > 0 ==> (NumPages(h, c) - 1) as real * c < h as real <= NumPages(h, c) as real * c
  {
    var n := NumPages(h, c);
    var q := h as real / c;
    if h > 0 {
      assert q > 0.0;
      assert n == Ceil(q);
      assert (n - 1) as real < q <= n as real;
      assert q * c == h as real;
      MulMonotone(q, (n - 1) as real, c);
      MulMonotone(n as real, q, c);
      calc {
        (n - 1) as real * c;
      <  q * c;
      == h as real;
      }
      calc {
        h as real;
      == q * c;
      <= n as real * c;
      }
    }
  }

  lemma MulMonotone(a: real, b: real, c: real)
    requires c > 0.0 && a >= b
    ensures a * c >= b * c
    ensures a > b ==> a * c > b * c
  {
  }

  /** The `i`-th multiple of a positive page height is positive and no larger than the `m`-th, for `i <= m`. */
  lemma OffsetWithin(i: nat, m: nat, c: real)
    requires c > 0.0 && 1 <= i <= m
    ensures 0.0 < i as real * c <= m as real * c
  {
    MulMonotone(i as real, 0.0, c);
    MulMonotone(m as real, i as real, c);
  }

  /** Content three and a half pages tall takes four pages. */
  lemma ThreeAndAHalfPages(h: nat, c: real)
    requires c > 0.0 && h as real == 3.5 * c
    ensures NumPages(h, c) == 4
  {
    assert h as real / c == 3.5;
  }

  /** The break list the loop builds: one entry per page after the first. */
  function PageBreaksFor(h: nat, c: real): seq<PageBreakInfo>
    requires c > 0.0
  {
    NumPagesBounds(h, c);
    seq(NumPages(h, c) - 1, k => PageBreakInfo(k + 2, (k + 1) as real * c))
  }

  /**
   * Breaks are numbered from page 2 upwards, their offsets rise strictly, and
   * every break lies inside the content, so no break is ever placed at or past its end.
   */
  lemma {:induction false} BreaksInsideContent(h: nat, c: real)
    requires c > 0.0
    ensures forall k :: 0 <= k < |PageBreaksFor(h, c)| ==>
      PageBreaksFor(h, c)[k].pageNumber == k + 2
      && PageBreaksFor(h, c)[k].topOffset == (k + 1) as real * c
      && 0.0 < PageBreaksFor(h, c)[k].topOffset < h as real
    ensures forall j, k :: 0 <= j < k < |PageBreaksFor(h, c)| ==>
      PageBreaksFor(h, c)[j].pageNumber < PageBreaksFor(h, c)[k].pageNumber
      && PageBreaksFor(h, c)[j].topOffset < PageBreaksFor(h, c)[k].topOffset
  {
    forall k | 0 <= k < |PageBreaksFor(h, c)|
      ensures 0.0 < PageBreaksFor(h, c)[k].topOffset < h as real
    {
      BreakInside(h, c, k);
    }
    forall j, k | 0 <= j < k < |PageBreaksFor(h, c)|
      ensures PageBreaksFor(h, c)[j].topOffset < PageBreaksFor(h, c)[k].topOffset
    {
      BreaksRise(h, c, j, k);
    }
  }

  /** Break `k` lies strictly inside the content. */
  lemma BreakInside(h: nat, c: real, k: nat)
    requires c > 0.0 && k < |PageBreaksFor(h, c)|
    ensures 0.0 < PageBreaksFor(h, c)[k].topOffset < h as real
  {
    NumPagesBounds(h, c);
    var n := NumPages(h, c);
    assert PageBreaksFor(h, c)[k].topOffset == (k + 1) as real * c;
    assert h > 0;
    OffsetWithin(k + 1, n - 1, c);
  }

  /** A later break lies further down. */
  lemma BreaksRise(h: nat, c: real, j: nat, k: nat)
    requires c > 0.0 && j < k < |PageBreaksFor(h, c)|
    ensures PageBreaksFor(h, c)[j].topOffset < PageBreaksFor(h, c)[k].topOffset
  {
    var b := PageBreaksFor(h, c);
    assert b[j].topOffset == (j + 1) as real * c && b[k].topOffset == (k + 1) as real * c;
    MulMonotone((k + 1) as real, (j + 1) as real, c);
  }

  /**
   * The arithmetic and loop of `calculatePageBreaks`: `numPages` and one break
   * for each page after the first, in order.
   */
  method CalculateBreaks(h: nat, c: real) returns (numPages: int, breaks: seq<PageBreakInfo>)
    requires c > 0.0
    ensures numPages == Max(1, Ceil(h as real / c))
    ensures |breaks| == numPages - 1
    ensures forall k :: 0 <= k < |breaks| ==> breaks[k] == PageBreakInfo(k + 2, (k + 1) as real * c)
    ensures numPages == NumPages(h, c) && breaks == PageBreaksFor(h, c)
  {
    numPages := Max(1, Ceil(h as real / c));
    breaks := [];
    var i := 1;
    while i < numPages
      invariant 1 <= i <= numPages
      invariant |breaks| == i - 1
      invariant forall k :: 0 <= k < |breaks| ==> breaks[k] == PageBreakInfo(k + 2, (k + 1) as real * c)
    {
      breaks := breaks + [PageBreakInfo(i + 1, i as real * c)];
      i := i + 1;
    }
    assert |breaks| == |PageBreaksFor(h, c)|;
    assert forall k :: 0 <= k < |breaks| ==> breaks[k] == PageBreaksFor(h, c)[k];
  }

  /**
   * The hook's state: the break list and page count last written by
   * `calculatePageBreaks`, starting from no breaks and one page.
   */
  class PageBreakTracker {
    var pageBreaks: seq<PageBreakInfo>
    var totalPages: int

    /** The breaks always describe the page count: one per page after the first, numbered from 2. */
    ghost predicate Valid()
      reads this
    {
      totalPages >= 1 && |pageBreaks| == totalPages - 1
      && forall k :: 0 <= k < |pageBreaks| ==> pageBreaks[k].pageNumber == k + 2
    }

    constructor ()
      ensures Valid() && pageBreaks == [] && totalPages == 1
    {
      pageBreaks := [];
      totalPages := 1;
    }

    /**
     * `calculatePageBreaks` for the format `formatId`. `scrollHeight` is the
     * editor element's measured height, `None` when there is no editor or no
     * element yet, in which case nothing is recomputed.
     */
    method Recalculate(scrollHeight: Option<nat>, formatId: string)
      requires Valid()
      modifies this
      ensures Valid()
      ensures scrollHeight.None? ==> pageBreaks == old(pageBreaks) && totalPages == old(totalPages)
      ensures scrollHeight.Some? ==>
        var c := GetPageDimensionsInPixels(GetPageFormat(formatId)).contentHeight;
        c > 0.0 && totalPages == NumPages(scrollHeight.value, c)
        && pageBreaks == PageBreaksFor(scrollHeight.value, c)
    {
      if scrollHeight.None? {
        return;
      }
      ContentAreaPositive(formatId);
      var c := GetPageDimensionsInPixels(GetPageFormat(formatId)).contentHeight;
      var numPages, breaks := CalculateBreaks(scrollHeight.value, c);
      pageBreaks := breaks;
      totalPages := numPages;
    }
  }
}

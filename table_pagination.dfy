/** The page links under the orders table (`TablePagination`): which page numbers and ellipses
    appear for a current page and a page count, and where the arrows lead. */
module TablePagination {
  import opened Common

  /** One entry between the arrows: a link to a page, marked when it is the current page, or an
      ellipsis. */
  datatype Item = PageLink(page: int, active: bool) | Ellipsis

  /** The entries before the current page: page 1 when `current > 2`, an ellipsis when
      `current > 3`, and `current - 1` when `current > 1`. */
  function Leading(current: int): seq<Item> {
    (if current > 2 then [PageLink(1, false)] else [])
    + (if current > 3 then [Ellipsis] else [])
    + (if current > 1 then [PageLink(current - 1, false)] else [])
  }

  /** The entries after the current page: `current + 1` when `current < total`, an ellipsis when
      `current < total - 2`, and the last page when `current < total - 1`. */
  function Trailing(current: int, total: int): seq<Item> {
    (if current < total then [PageLink(current + 1, false)] else [])
    + (if current < total - 2 then [Ellipsis] else [])
    + (if current < total - 1 then [PageLink(total, false)] else [])
  }

  /** The entries between the arrows, or nothing at all while loading or with one page. */
  function Render(current: int, total: int, isLoading: bool): (items: Option<seq<Item>>)
    ensures items.None? <==> isLoading || total <= 1
    ensures items.Some? ==> PageLink(current, true) in items.value
  {
    if isLoading || total <= 1 then None
    else Some(Leading(current) + [PageLink(current, true)] + Trailing(current, total))
  }

  /** Neighbouring page links are consecutive pages, and an ellipsis sits between two page
      links that are not: the ellipses mark exactly the gaps. */
  ghost predicate GapsMarked(items: seq<Item>) {
    && (forall i :: 0 < i < |items| && items[i - 1].PageLink? && items[i].PageLink? ==>
          items[i].page == items[i - 1].page + 1)
    && (forall i :: 0 <= i < |items| && items[i].Ellipsis? ==>
          && 0 < i < |items| - 1 && items[i - 1].PageLink? && items[i + 1].PageLink?
          && items[i + 1].page > items[i - 1].page + 1)
  }

  /** The entries run from page 1 to the last page, the gaps are marked, and only the current
      page is active. */
  ghost predicate WellFormed(items: seq<Item>, current: int, total: int) {
    && |items| > 0
    && items[0] == PageLink(1, current == 1)
    && items[|items| - 1] == PageLink(total, current == total)
    && GapsMarked(items)
    && forall i :: 0 <= i < |items| && items[i].PageLink? ==>
         1 <= items[i].page <= total && (items[i].active <==> items[i].page == current)
  }

  /** For a current page within the page count the entries are well formed. */
  lemma RenderShape(current: int, total: int)
    requires 1 <= current <= total && total > 1
    ensures WellFormed(Render(current, total, false).value, current, total)
  {
    var front := Leading(current) + [PageLink(current, true)];
    var back := [PageLink(current, true)] + Trailing(current, total);
    LeadingShape(current, total);
    TrailingShape(current, total);
    JoinAtCurrent(front, back);
    assert Render(current, total, false).value == front + back[1..];
    var items := front + back[1..];
    forall i | 0 <= i < |items| && items[i].PageLink?
      ensures 1 <= items[i].page <= total && (items[i].active <==> items[i].page == current)
    {
      if i >= |front| {
        assert items[i] == back[i - |front| + 1];
      }
    }
  }

  /** The entries up to the current page. */
  lemma LeadingShape(current: int, total: int)
    requires 1 <= current <= total
    ensures var front := Leading(current) + [PageLink(current, true)];
      && front[0] == PageLink(1, current == 1)
      && GapsMarked(front)
      && forall i :: 0 <= i < |front| && front[i].PageLink? ==>
           1 <= front[i].page <= current && (front[i].active <==> front[i].page == current)
  {
    if current <= 3 {
      LeadingShapeNear(current);
    } else {
      LeadingShapeFar(current);
    }
  }

  /** The entries up to a current page among the first three: no ellipsis. */
  lemma LeadingShapeNear(current: int)
    requires 1 <= current <= 3
    ensures var front := Leading(current) + [PageLink(current, true)];
      && front[0] == PageLink(1, current == 1)
      && GapsMarked(front)
      && forall i :: 0 <= i < |front| && front[i].PageLink? ==>
           1 <= front[i].page <= current && (front[i].active <==> front[i].page == current)
  {
    var front := Leading(current) + [PageLink(current, true)];
    if current == 1 {
      assert front == [PageLink(1, true)];
    } else if current == 2 {
      assert front == [PageLink(1, false), PageLink(2, true)];
    } else {
      assert front == [PageLink(1, false), PageLink(2, false), PageLink(3, true)];
    }
  }

  /** The entries up to a current page past the third: page 1, an ellipsis, the previous page. */
  lemma LeadingShapeFar(current: int)
    requires current > 3
    ensures var front := Leading(current) + [PageLink(current, true)];
      && front[0] == PageLink(1, current == 1)
      && GapsMarked(front)
      && forall i :: 0 <= i < |front| && front[i].PageLink? ==>
           1 <= front[i].page <= current && (front[i].active <==> front[i].page == current)
  {
    var front := Leading(current) + [PageLink(current, true)];
    assert front == [PageLink(1, false), Ellipsis, PageLink(current - 1, false), PageLink(current, true)];
    FourWithGap(front);
  }

  /** A page link, an ellipsis, and two consecutive page links past the gap. */
  lemma FourWithGap(items: seq<Item>)
    requires |items| == 4 && items[0].PageLink? && items[1].Ellipsis?
    requires items[2].PageLink? && items[3].PageLink?
    requires items[2].page > items[0].page + 1 && items[3].page == items[2].page + 1
    ensures GapsMarked(items)
  {
  }

  /** The entries from the current page on. */
  lemma TrailingShape(current: int, total: int)
    requires 1 <= current <= total
    ensures var back := [PageLink(current, true)] + Trailing(current, total);
      && back[|back| - 1] == PageLink(total, current == total)
      && GapsMarked(back)
      && forall i :: 0 <= i < |back| && back[i].PageLink? ==>
           current <= back[i].page <= total && (back[i].active <==> back[i].page == current)
  {
    if current == total {
      assert Trailing(current, total) == [];
    } else if current == total - 1 {
      assert Trailing(current, total) == [PageLink(total, false)];
    } else if current == total - 2 {
      assert Trailing(current, total) == [PageLink(current + 1, false), PageLink(total, false)];
    } else {
      assert Trailing(current, total) == [PageLink(current + 1, false), Ellipsis, PageLink(total, false)];
    }
  }

  /** Two runs with marked gaps that share their meeting page link make one such run. */
  lemma JoinAtCurrent(front: seq<Item>, back: seq<Item>)
    requires front != [] && back != [] && front[|front| - 1] == back[0] && back[0].PageLink?
    requires GapsMarked(front) && GapsMarked(back)
    ensures GapsMarked(front + back[1..])
  {
    var items := front + back[1..];
    forall i | 0 <= i < |items|
      ensures i < |front| ==> items[i] == front[i]
      ensures i >= |front| - 1 ==> items[i] == back[i - |front| + 1]
    {
    }
  }

  /** Gaps marked as above make the page numbers strictly increasing from left to right, so no
      page appears twice. */
  lemma {:induction false} MarkedPagesIncrease(items: seq<Item>, i: nat, j: nat)
    requires GapsMarked(items)
    requires i < j < |items| && items[i].PageLink? && items[j].PageLink?
    ensures items[i].page < items[j].page
    decreases j - i
  {
    if items[i + 1].PageLink? {
      if i + 1 < j {
        MarkedPagesIncrease(items, i + 1, j);
      }
    } else {
      assert items[i + 2].PageLink?;
      if i + 2 < j {
        MarkedPagesIncrease(items, i + 2, j);
      }
    }
  }

  /** The page numbers shown strictly increase from left to right: none appears twice. */
  lemma RenderedPagesIncrease(current: int, total: int, i: nat, j: nat)
    requires 1 <= current <= total && total > 1
    requires var items := Render(current, total, false).value;
      i < j < |items| && items[i].PageLink? && items[j].PageLink?
    ensures var items := Render(current, total, false).value;
      items[i].page < items[j].page
  {
    RenderShape(current, total);
    MarkedPagesIncrease(Render(current, total, false).value, i, j);
  }

  /** Where the previous arrow leads: nowhere on the first page. */
  function PreviousTarget(current: int): (target: Option<int>)
    ensures target.Some? <==> current > 1
    ensures target.Some? ==> target.value == current - 1
  {
    if current > 1 then Some(current - 1) else None
  }

  /** Where the next arrow leads: nowhere on the last page. */
  function NextTarget(current: int, total: int): (target: Option<int>)
    ensures target.Some? <==> current < total
    ensures target.Some? ==> target.value == current + 1
  {
    if current < total then Some(current + 1) else None
  }

  /** From a page within the count, both arrows stay within the count, and each arrow leads
      where the neighbouring page link does. */
  lemma ArrowsStayInRange(current: int, total: int)
    requires 1 <= current <= total && total > 1
    ensures PreviousTarget(current).Some? ==> 1 <= PreviousTarget(current).value <= total
    ensures NextTarget(current, total).Some? ==> 1 <= NextTarget(current, total).value <= total
    ensures PreviousTarget(current).Some? ==>
      PageLink(PreviousTarget(current).value, false) in Render(current, total, false).value
    ensures NextTarget(current, total).Some? ==>
      PageLink(NextTarget(current, total).value, false) in Render(current, total, false).value
  {
    var items := Render(current, total, false).value;
    if current > 1 {
      assert Leading(current)[|Leading(current)| - 1] == PageLink(current - 1, false);
      assert items[|Leading(current)| - 1] == PageLink(current - 1, false);
    }
    if current < total {
      assert items[|Leading(current)| + 1] == PageLink(current + 1, false);
    }
  }
}

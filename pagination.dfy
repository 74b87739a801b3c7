/** The stand-alone pagination bar: previous and next buttons guarded by the
    current page, and a compact "current, next, ..., last" list of page links. */
module Pagination {
  import opened Records

  /** A page link: a page number, or the `'...'` string pushed as a gap marker. */
  datatype Entry = Num(n: int) | Ellipsis

  /** Every numbered entry holds a page between 1 and `totalPages`. */
  ghost predicate InRange(entries: seq<Entry>, totalPages: int)
  {
    forall i :: 0 <= i < |entries| && entries[i].Num? ==> 1 <= entries[i].n <= totalPages
  }

  /** Numbered entries strictly increase from left to right. */
  ghost predicate Ascending(entries: seq<Entry>)
  {
    forall i, j :: 0 <= i < j < |entries| && entries[i].Num? && entries[j].Num? ==>
      entries[i].n < entries[j].n
  }

  /** `handlePreviousClick`: the page it passes to `onPageChange`, if any. */
  function PreviousTarget(currentPage: int): (r: Option<int>)
    ensures r.Some? <==> currentPage > 1
    ensures r.Some? ==> r.value == currentPage - 1 && r.value >= 1
  {
    if currentPage > 1 then Some(currentPage - 1) else None
  }

  /** `handleNextClick`: the page it passes to `onPageChange`, if any. */
  function NextTarget(currentPage: int, totalPages: int): (r: Option<int>)
    ensures r.Some? <==> currentPage < totalPages
    ensures r.Some? ==> r.value == currentPage + 1 && r.value <= totalPages
  {
    if currentPage < totalPages then Some(currentPage + 1) else None
  }

  /** The `active` class of a link button: its entry equals the current page. */
  predicate Active(e: Entry, currentPage: int)
  {
    e == Num(currentPage)
  }

  /** `getPageNumbers`: with at most two pages every page is listed; otherwise the
      list is the current page, the next page unless it is the last, a gap marker
      when more than one page lies between the current and the last, and the last
      page, which is listed even when it is the current page. */
  method PageNumbers(currentPage: int, totalPages: int) returns (entries: seq<Entry>)
    ensures totalPages <= 2 ==>
              |entries| == (if totalPages < 0 then 0 else totalPages) &&
              forall i :: 0 <= i < |entries| ==> entries[i] == Num(i + 1)
    ensures totalPages >= 3 ==>
              2 <= |entries| <= 4 &&
              entries[0] == Num(currentPage) && entries[|entries| - 1] == Num(totalPages)
    ensures totalPages >= 3 ==> (|entries| >= 3 && entries[1] == Num(currentPage + 1) <==> currentPage < totalPages - 1)
    ensures totalPages >= 3 ==> (Ellipsis in entries <==> currentPage < totalPages - 2)
    ensures totalPages >= 3 ==>
              forall i :: 0 <= i < |entries| ==>
                (entries[i] == Ellipsis <==> currentPage < totalPages - 2 && i == |entries| - 2)
    ensures totalPages >= 3 && currentPage < totalPages - 2 ==>
              entries == [Num(currentPage), Num(currentPage + 1), Ellipsis, Num(totalPages)]
    ensures totalPages >= 3 && currentPage == totalPages - 2 ==>
              entries == [Num(currentPage), Num(currentPage + 1), Num(totalPages)]
    ensures totalPages >= 3 && currentPage >= totalPages - 1 ==> entries == [Num(currentPage), Num(totalPages)]
    ensures totalPages >= 3 && currentPage == totalPages ==> entries == [Num(totalPages), Num(totalPages)]
    ensures 1 <= currentPage <= totalPages ==> InRange(entries, totalPages)
    ensures currentPage < totalPages ==> Ascending(entries)
    ensures totalPages >= 3 ==>
              Active(entries[0], currentPage) &&
              forall i :: 0 < i < |entries| ==> (Active(entries[i], currentPage) <==> currentPage == totalPages)
  {
    entries := [];
    if totalPages <= 2 {
      var i := 1;
      while i <= totalPages
        invariant 1 <= i <= (if totalPages < 1 then 1 else totalPages + 1)
        invariant |entries| == i - 1
        invariant forall k :: 0 <= k < |entries| ==> entries[k] == Num(k + 1)
      {
        entries := entries + [Num(i)];
        i := i + 1;
      }
    } else {
      entries := entries + [Num(currentPage)];
      if currentPage < totalPages - 1 {
        entries := entries + [Num(currentPage + 1)];
      }
      if currentPage < totalPages - 2 {
        entries := entries + [Ellipsis];
      }
      entries := entries + [Num(totalPages)];
      if currentPage < totalPages - 2 {
        assert entries == [Num(currentPage), Num(currentPage + 1), Ellipsis, Num(totalPages)];
      } else if currentPage == totalPages - 2 {
        assert entries == [Num(currentPage), Num(currentPage + 1), Num(totalPages)];
      } else {
        assert entries == [Num(currentPage), Num(totalPages)];
      }
    }
  }

  /** The component as its parent sees it: the props it was rendered with, and
      every value its buttons have passed to `onPageChange`, oldest first. */
  class Pager {
    const currentPage: int
    const totalPages: int
    var requested: seq<Entry>

    constructor (currentPage: int, totalPages: int)
      ensures this.currentPage == currentPage && this.totalPages == totalPages
      ensures requested == []
    {
      this.currentPage := currentPage;
      this.totalPages := totalPages;
      requested := [];
    }

    /** The `<` button. */
    method PreviousClick()
      modifies this
      ensures requested == old(requested) + (if currentPage > 1 then [Num(currentPage - 1)] else [])
    {
      var target := PreviousTarget(currentPage);
      if target.Some? {
        requested := requested + [Num(target.value)];
      }
    }

    /** The `>` button. */
    method NextClick()
      modifies this
      ensures requested == old(requested) + (if currentPage < totalPages then [Num(currentPage + 1)] else [])
    {
      var target := NextTarget(currentPage, totalPages);
      if target.Some? {
        requested := requested + [Num(target.value)];
      }
    }

    /** A page-link button passes its entry through unchanged, the gap marker
        included. */
    method PageClick(e: Entry)
      modifies this
      ensures requested == old(requested) + [e]
    {
      requested := requested + [e];
    }
  }
}

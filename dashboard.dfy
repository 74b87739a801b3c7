/** The dashboard component: the category filter over the fetched launches, the
    fixed twelve-per-page slice, its own table and pagination bar, and the state
    that the fetch, the filter menu and the page buttons update. */
module Dashboard {
  import opened Records
  import LaunchTable
  import Pagination

  const ItemsPerPage: nat := 12

  function Min(a: int, b: int): int
  {
    if a <= b then a else b
  }

  // ---------------------------------------------------------------------------
  // Category filter

  /** The predicate passed to `launches.filter`: the `filter` state is compared
      with `'upcoming'` and `'past'`; any other value keeps every launch. */
  predicate Keep(filter: string, launch: Launch)
  {
    if filter == "upcoming" then launch.upcoming
    else if filter == "past" then !launch.upcoming
    else true
  }

  /** `Array.prototype.filter` with `Keep`, walking the launches front to back. */
  function FilterLaunches(launches: seq<Launch>, filter: string): (r: seq<Launch>)
    ensures |r| <= |launches|
    ensures forall x :: x in r <==> x in launches && Keep(filter, x)
    decreases |launches|
  {
    if launches == [] then []
    else if Keep(filter, launches[0]) then [launches[0]] + FilterLaunches(launches[1..], filter)
    else FilterLaunches(launches[1..], filter)
  }

  /** `sub` is obtained from `s` by deleting elements, keeping the order of the rest. */
  ghost predicate IsSubsequence<T>(sub: seq<T>, s: seq<T>)
    decreases |s|
  {
    if sub == [] then true
    else if s == [] then false
    else (sub[0] == s[0] && IsSubsequence(sub[1..], s[1..])) || IsSubsequence(sub, s[1..])
  }

  /** The filter only deletes launches: the rest keep the server's order. */
  lemma {:induction false} FilterIsSubsequence(launches: seq<Launch>, filter: string)
    ensures IsSubsequence(FilterLaunches(launches, filter), launches)
    decreases |launches|
  {
    if launches != [] {
      FilterIsSubsequence(launches[1..], filter);
    }
  }

  /** `'upcoming'` and `'past'` split the launches between them: every launch is
      kept by exactly one of the two. */
  lemma {:induction false} FilterPartition(launches: seq<Launch>)
    ensures multiset(FilterLaunches(launches, "upcoming")) + multiset(FilterLaunches(launches, "past"))
            == multiset(launches)
    ensures |FilterLaunches(launches, "upcoming")| + |FilterLaunches(launches, "past")| == |launches|
    decreases |launches|
  {
    if launches != [] {
      FilterPartition(launches[1..]);
      assert launches == [launches[0]] + launches[1..];
    }
  }

  /** Filtering an already filtered list with the same value changes nothing. */
  lemma {:induction false} FilterIdempotent(launches: seq<Launch>, filter: string)
    ensures FilterLaunches(FilterLaunches(launches, filter), filter) == FilterLaunches(launches, filter)
    decreases |launches|
  {
    if launches != [] {
      FilterIdempotent(launches[1..], filter);
    }
  }

  /** Any filter value other than `'upcoming'` and `'past'` (the menu's `'all'`
      among them) keeps the list exactly as fetched. */
  lemma {:induction false} FilterOtherKeepsAll(launches: seq<Launch>, filter: string)
    requires filter != "upcoming" && filter != "past"
    ensures FilterLaunches(launches, filter) == launches
    decreases |launches|
  {
    if launches != [] {
      FilterOtherKeepsAll(launches[1..], filter);
    }
  }

  // ---------------------------------------------------------------------------
  // Pagination arithmetic

  /** `Math.ceil(filteredLaunches.length / itemsPerPage)`. */
  function PageCount(n: nat): (r: nat)
    ensures r == 0 <==> n == 0
    ensures (r - 1) * ItemsPerPage < n <= r * ItemsPerPage
  {
    (n + ItemsPerPage - 1) / ItemsPerPage
  }

  /** Where `Array.prototype.slice` puts a start or end argument `k` in a list of
      length `len`: a negative `k` counts back from the end, and the result is
      clamped to `0 .. len`. */
  function SliceIndex(k: int, len: nat): (r: nat)
    ensures r <= len
    ensures 0 <= k ==> r == Min(k, len)
    ensures k < 0 ==> r == if len + k < 0 then 0 else len + k
  {
    if k < 0 then (if len + k < 0 then 0 else len + k)
    else if k < len then k
    else len
  }

  /** `Array.prototype.slice(start, end)`. */
  function JsSlice<T>(s: seq<T>, start: int, end: int): seq<T>
  {
    var from := SliceIndex(start, |s|);
    var to := SliceIndex(end, |s|);
    if from < to then s[from..to] else []
  }

  /** `currentItems`: `filteredLaunches.slice(indexOfFirstItem, indexOfLastItem)`
      with `indexOfLastItem = currentPage * 12` and `indexOfFirstItem` twelve less.
      For a page from 1 on it is the page's run of the list, at most twelve long,
      and it is empty exactly when the page lies past the last one. */
  function PageItems(items: seq<Launch>, page: int): (r: seq<Launch>)
    ensures page >= 1 ==> r == items[Min((page - 1) * ItemsPerPage, |items|)..Min(page * ItemsPerPage, |items|)]
    ensures page >= 1 ==> |r| <= ItemsPerPage
    ensures page >= 1 ==> (r != [] <==> page <= PageCount(|items|))
  {
    var indexOfLastItem := page * ItemsPerPage;
    var indexOfFirstItem := indexOfLastItem - ItemsPerPage;
    JsSlice(items, indexOfFirstItem, indexOfLastItem)
  }

  /** Pages 1 to `k`, one after the other. */
  function PagesUpTo(items: seq<Launch>, k: nat): seq<Launch>
  {
    if k == 0 then [] else PagesUpTo(items, k - 1) + PageItems(items, k)
  }

  lemma {:induction false} PagesUpToIsPrefix(items: seq<Launch>, k: nat)
    ensures PagesUpTo(items, k) == items[..Min(k * ItemsPerPage, |items|)]
  {
    if k > 0 {
      PagesUpToIsPrefix(items, k - 1);
      var a := Min((k - 1) * ItemsPerPage, |items|);
      var b := Min(k * ItemsPerPage, |items|);
      assert items[..a] + items[a..b] == items[..b];
    }
  }

  /** The pages tile the filtered list: pages 1 to `totalPages` put together give
      the list back, every page before the last holds twelve launches, and the
      last holds from one to twelve. */
  lemma PagesTile(items: seq<Launch>)
    ensures PagesUpTo(items, PageCount(|items|)) == items
    ensures forall p :: 1 <= p < PageCount(|items|) ==> |PageItems(items, p)| == ItemsPerPage
    ensures PageCount(|items|) > 0 ==> 1 <= |PageItems(items, PageCount(|items|))| <= ItemsPerPage
  {
    PagesUpToIsPrefix(items, PageCount(|items|));
  }

  // ---------------------------------------------------------------------------
  // The dashboard's own pagination bar

  /** The dashboard's page window in closed form: pages `1..totalPages` when
      there are at most three; otherwise three consecutive pages starting at the
      current one on page 1, ending at it on the last page, and centred on it
      anywhere else. */
  function Window(currentPage: int, totalPages: int): (w: seq<int>)
    ensures |w| == if totalPages > 3 then 3 else if totalPages < 0 then 0 else totalPages
  {
    if totalPages <= 3 then seq(if totalPages < 0 then 0 else totalPages, i => i + 1)
    else if currentPage == 1 then [1, 2, 3]
    else if currentPage == totalPages then [totalPages - 2, totalPages - 1, totalPages]
    else [currentPage - 1, currentPage, currentPage + 1]
  }

  /** `getPageNumbers` of the dashboard's pagination bar: every page when there
      are at most three, otherwise a window of three consecutive pages around the
      current one, pushed against the first or the last page at the ends. */
  method PageNumbers(currentPage: int, totalPages: int) returns (pages: seq<int>)
    ensures pages == Window(currentPage, totalPages)
    ensures totalPages <= 3 ==>
              |pages| == (if totalPages < 0 then 0 else totalPages) &&
              forall i :: 0 <= i < |pages| ==> pages[i] == i + 1
    ensures totalPages > 3 ==>
              |pages| == 3 && pages[1] == pages[0] + 1 && pages[2] == pages[1] + 1
    ensures totalPages > 3 && 1 <= currentPage <= totalPages ==>
              currentPage in pages && 1 <= pages[0] && pages[2] <= totalPages
    ensures totalPages > 3 && 1 < currentPage < totalPages ==> pages[1] == currentPage
    ensures 1 <= currentPage <= totalPages ==>
              forall i :: 0 <= i < |pages| ==>
                1 <= pages[i] <= totalPages && currentPage - 2 <= pages[i] <= currentPage + 2
  {
    pages := [];
    if totalPages <= 3 {
      var i := 1;
      while i <= totalPages
        invariant 1 <= i <= (if totalPages < 1 then 1 else totalPages + 1)
        invariant |pages| == i - 1
        invariant forall k :: 0 <= k < |pages| ==> pages[k] == k + 1
      {
        pages := pages + [i];
        i := i + 1;
      }
    } else {
      if currentPage == 1 {
        pages := pages + [currentPage, currentPage + 1, currentPage + 2];
      } else if currentPage == totalPages {
        pages := pages + [currentPage - 2, currentPage - 1, currentPage];
      } else {
        pages := pages + [currentPage - 1, currentPage, currentPage + 1];
      }
    }
  }

  // ---------------------------------------------------------------------------
  // The dashboard's own launch table

  /** The dashboard's `getStatusColor`: like the launch table's, except that a
      pending launch (`null`) is drawn yellow. */
  function StatusColor(s: Status): (r: string)
    ensures r == "yellow" <==> s == Null
    ensures r == "#DEF7EC" <==> LooselyTrue(s)
    ensures r == "#FDE2E1" <==> s == False
    ensures r == "transparent" <==> s.Other? && !s.looseTrue
  {
    if s == Null then "yellow"
    else if LooselyTrue(s) then "#DEF7EC"
    else if s == False then "#FDE2E1"
    else "transparent"
  }

  /** `launch.launch_success ? 'Success' : 'Failed'`. */
  function StatusText(s: Status): (r: string)
    ensures r == "Success" <==> Truthy(s)
    ensures r == "Failed" <==> !Truthy(s)
  {
    if Truthy(s) then "Success" else "Failed"
  }

  /** The two tables agree on colour for every status but `null`, and on text
      for `true` and `false`: the dashboard shows a pending launch as `'Failed'`
      on yellow, the launch table as `'Upcoming'` on `#FEF3C7`, and any other
      value gets `'Success'` or `'Failed'` here but an empty text there. */
  lemma TableStatusDifferences(s: Status)
    ensures s != Null ==> StatusColor(s) == LaunchTable.StatusColor(s)
    ensures s == True || s == False ==> StatusText(s) == LaunchTable.StatusText(s)
    ensures s.Other? ==> StatusText(s) != LaunchTable.StatusText(s)
    ensures StatusText(Null) == "Failed" && LaunchTable.StatusText(Null) == "Upcoming"
    ensures StatusColor(Null) != LaunchTable.StatusColor(Null)
  {
  }

  // ---------------------------------------------------------------------------
  // What the dashboard renders

  datatype Screen =
    | LoadingMessage
    | NoLaunchesFound
    | LaunchList(rows: seq<Row>, currentPage: int, totalPages: nat)

  /** The component's output for a given state: the loading message, the
      "No launches found." message when the current page's slice is empty, or
      the table of that slice with the pagination bar. */
  function View(launches: seq<Launch>, filter: string, loading: bool, currentPage: int): (s: Screen)
    ensures s == LoadingMessage <==> loading
    ensures !loading ==>
              (s == NoLaunchesFound <==> PageItems(FilterLaunches(launches, filter), currentPage) == [])
    ensures s.LaunchList? ==>
              s.currentPage == currentPage &&
              s.totalPages == PageCount(|FilterLaunches(launches, filter)|) &&
              |s.rows| == |PageItems(FilterLaunches(launches, filter), currentPage)|
    ensures s.LaunchList? ==>
              forall i :: 0 <= i < |s.rows| ==>
                s.rows[i].statusText == StatusText(s.rows[i].launch.success) &&
                s.rows[i].statusColor == StatusColor(s.rows[i].launch.success)
  {
    if loading then LoadingMessage
    else
      var filtered := FilterLaunches(launches, filter);
      var items := PageItems(filtered, currentPage);
      if |items| > 0 then LaunchList(Rows(items, StatusText, StatusColor), currentPage, PageCount(|filtered|))
      else NoLaunchesFound
  }

  /** Once loaded, the dashboard shows "No launches found." exactly when the
      current page lies past the last page of the filtered list (which includes
      an empty list); otherwise it shows that page numbered from 1 again, row
      `i` being launch `(currentPage - 1) * 12 + i` of the filtered list. */
  lemma ViewCases(launches: seq<Launch>, filter: string, loading: bool, currentPage: int)
    requires currentPage >= 1
    ensures View(launches, filter, loading, currentPage) == LoadingMessage <==> loading
    ensures View(launches, filter, loading, currentPage) == NoLaunchesFound <==>
              !loading && currentPage > PageCount(|FilterLaunches(launches, filter)|)
    ensures View(launches, filter, loading, currentPage).LaunchList? ==>
              var filtered := FilterLaunches(launches, filter);
              var rows := View(launches, filter, loading, currentPage).rows;
              1 <= currentPage <= PageCount(|filtered|) &&
              1 <= |rows| <= ItemsPerPage &&
              forall i :: 0 <= i < |rows| ==>
                rows[i].no == i + 1 &&
                (currentPage - 1) * ItemsPerPage + i < |filtered| &&
                rows[i].launch == filtered[(currentPage - 1) * ItemsPerPage + i] &&
                rows[i].statusText == StatusText(rows[i].launch.success) &&
                rows[i].statusColor == StatusColor(rows[i].launch.success)
  {
  }

  /** A menu change keeps the page: a dashboard showing page 2 of all launches
      shows "No launches found." once the choice narrows the list to one page,
      although that page is not empty. */
  lemma FilterChangeCanStrandPage()
    ensures var past := Launch(1, false, True);
            var next := Launch(2, true, Null);
            var launches := seq(12, i => past) + [next];
            View(launches, "all", false, 2).LaunchList? &&
            View(launches, "past", false, 2) == NoLaunchesFound &&
            View(launches, "past", false, 1).LaunchList?
  {
    var past := Launch(1, false, True);
    var next := Launch(2, true, Null);
    var launches := seq(12, i => past) + [next];
    FilterOtherKeepsAll(launches, "all");
    FilterPartition(launches);
    assert past in FilterLaunches(launches, "past");
    assert next in FilterLaunches(launches, "upcoming");
    assert next !in FilterLaunches(launches, "past");
    assert |FilterLaunches(launches, "past")| <= ItemsPerPage;
  }

  // ---------------------------------------------------------------------------
  // The component's state

  /** The four `useState` cells of the dashboard and the events that set them. */
  class DashboardState {
    var launches: seq<Launch>
    var filter: string
    var loading: bool
    var currentPage: int

    /** The page is never below 1, and nothing is stored before the fetch ends. */
    ghost predicate Valid()
      reads this
    {
      currentPage >= 1 && (loading ==> launches == [])
    }

    function Filtered(): seq<Launch>
      reads this
    {
      FilterLaunches(launches, filter)
    }

    function TotalPages(): nat
      reads this
    {
      PageCount(|Filtered()|)
    }

    function Screen(): Screen
      reads this
    {
      View(launches, filter, loading, currentPage)
    }

    /** The initial values: no launches, `'all'`, loading, page 1. */
    constructor ()
      ensures Valid()
      ensures launches == [] && filter == "all" && loading && currentPage == 1
      ensures Screen() == LoadingMessage
    {
      launches := [];
      filter := "all";
      loading := true;
      currentPage := 1;
    }

    /** The fetch resolved with `data`: store it and stop loading. */
    method FetchSucceeded(data: seq<Launch>)
      requires Valid() && loading
      modifies this`launches, this`loading
      ensures Valid()
      ensures launches == data && !loading
    {
      launches := data;
      loading := false;
    }

    /** The fetch or the JSON decoding failed: stop loading, with no launches. */
    method FetchFailed()
      requires Valid() && loading
      modifies this`loading
      ensures Valid()
      ensures launches == [] && !loading
      ensures Screen() == NoLaunchesFound
    {
      loading := false;
      assert FilterLaunches([], filter) == [];
    }

    /** `setFilter` from the menu, which is shown once loading has ended;
        `currentPage` is left as it was. */
    method SelectFilter(f: string)
      requires Valid() && !loading
      modifies this`filter
      ensures Valid()
      ensures filter == f && currentPage == old(currentPage)
    {
      filter := f;
    }

    /** The Previous button: `handlePreviousClick` through `handlePageChange`.
        The button belongs to the pagination bar, so it exists only while the
        table is shown, and the page it leads to is shown as well. */
    method PreviousClick()
      requires Valid() && Screen().LaunchList?
      modifies this`currentPage
      ensures Valid() && Screen().LaunchList?
      ensures 1 <= currentPage <= TotalPages()
      ensures currentPage == if old(currentPage) > 1 then old(currentPage) - 1 else old(currentPage)
    {
      ViewCases(launches, filter, loading, currentPage);
      var target := Pagination.PreviousTarget(currentPage);
      if target.Some? {
        currentPage := target.value;
      }
      ViewCases(launches, filter, loading, currentPage);
    }

    /** The Next button: `handleNextClick` through `handlePageChange`, against
        the page count of the current filtered list.  Like Previous, it exists
        only while the table is shown, and the page it leads to is shown. */
    method NextClick()
      requires Valid() && Screen().LaunchList?
      modifies this`currentPage
      ensures Valid() && Screen().LaunchList?
      ensures 1 <= currentPage <= TotalPages()
      ensures currentPage == if old(currentPage) < TotalPages() then old(currentPage) + 1 else old(currentPage)
    {
      ViewCases(launches, filter, loading, currentPage);
      var target := Pagination.NextTarget(currentPage, TotalPages());
      if target.Some? {
        currentPage := target.value;
      }
      ViewCases(launches, filter, loading, currentPage);
    }

    /** The `k`-th page-number button, which exists only while the table and its
        pagination bar are shown: it sets entry `k` of the window, a real page,
        still shown, at most two away from the one before. */
    method ClickPageButton(k: nat)
      requires Valid() && Screen().LaunchList?
      requires k < (if TotalPages() <= 3 then TotalPages() else 3)
      modifies this`currentPage
      ensures Valid() && Screen().LaunchList?
      ensures currentPage == Window(old(currentPage), TotalPages())[k]
      ensures 1 <= currentPage <= TotalPages()
      ensures old(currentPage) - 2 <= currentPage <= old(currentPage) + 2
    {
      ViewCases(launches, filter, loading, currentPage);
      var pages := PageNumbers(currentPage, TotalPages());
      currentPage := pages[k];
      ViewCases(launches, filter, loading, currentPage);
    }
  }
}

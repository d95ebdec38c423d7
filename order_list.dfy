/** The orders list: search and status filter, eight orders per page,
    and the pagination bar of at most five numbered buttons with ellipses
    and first/last page shortcuts. */
module OrderList {
  import opened Base
  import opened Text
  import opened Lists
  import opened Entities

  const OrdersPerPage := 8

  /** The search matches the id, the status or the customer's name,
      ignoring case (an order without a customer matches on id and status
      only); the status filter is 'All' or the status itself, ignoring
      case. */
  predicate OrderMatches(o: Order, query: string, statusQuery: string)
  {
    && (|| Contains(Lower(o.id), Lower(query))
        || Contains(Lower(o.status), Lower(query))
        || (o.customerName.Some? && Contains(Lower(o.customerName.value), Lower(query))))
    && (statusQuery == "All" || Lower(o.status) == Lower(statusQuery))
  }

  function FilteredOrders(orders: seq<Order>, query: string, statusQuery: string): (r: seq<Order>)
    ensures forall o :: o in r <==> o in orders && OrderMatches(o, query, statusQuery)
    ensures |r| <= |orders|
  {
    Filter(orders, (o: Order) => OrderMatches(o, query, statusQuery))
  }

  /** The filter keeps the list order, and with an empty search and 'All'
      every order is listed. */
  lemma FilteredOrdersKeepOrder(orders: seq<Order>, query: string, statusQuery: string)
    ensures IsSubsequence(FilteredOrders(orders, query, statusQuery), orders)
    ensures query == "" && statusQuery == "All" ==> FilteredOrders(orders, query, statusQuery) == orders
  {
    FilterIsSubsequence(orders, (o: Order) => OrderMatches(o, query, statusQuery));
    if query == "" && statusQuery == "All" {
      forall i | 0 <= i < |orders|
        ensures OrderMatches(orders[i], query, statusQuery)
      {
        ContainsEmpty(Lower(orders[i].id));
      }
      FilterKeepsAll(orders, (o: Order) => OrderMatches(o, query, statusQuery));
    }
  }

  /** `Math.ceil(n / 8)`: the fewest pages of eight that hold n orders. */
  function TotalPages(n: nat): (t: nat)
    ensures t * OrdersPerPage >= n
    ensures t > 0 ==> (t - 1) * OrdersPerPage < n
    ensures t == 0 <==> n == 0
  {
    (n + OrdersPerPage - 1) / OrdersPerPage
  }

  /** `slice((page - 1) * 8, page * 8)`, clamped to the list. */
  function PageSlice<T>(list: seq<T>, page: int): (r: seq<T>)
    requires page >= 1
    ensures |r| <= OrdersPerPage
    ensures forall k :: 0 <= k < |r| ==>
              (page - 1) * OrdersPerPage + k < |list| && r[k] == list[(page - 1) * OrdersPerPage + k]
    ensures page <= TotalPages(|list|) ==> |r| > 0
    ensures page > TotalPages(|list|) ==> r == []
    ensures page < TotalPages(|list|) ==> |r| == OrdersPerPage
  {
    list[Min((page - 1) * OrdersPerPage, |list|)..Min(page * OrdersPerPage, |list|)]
  }

  /** Pages 1 to k, one after the other. */
  function PagesUpTo<T>(list: seq<T>, k: nat): seq<T>
  {
    if k == 0 then [] else PagesUpTo(list, k - 1) + PageSlice(list, k)
  }

  lemma {:induction false} PagesUpToIsPrefix<T>(list: seq<T>, k: nat)
    ensures PagesUpTo(list, k) == list[..Min(k * OrdersPerPage, |list|)]
  {
    if k > 0 {
      PagesUpToIsPrefix(list, k - 1);
      var a := Min((k - 1) * OrdersPerPage, |list|);
      var b := Min(k * OrdersPerPage, |list|);
      assert list[..a] + list[a..b] == list[..b];
    }
  }

  /** The pages together show the whole filtered list, in order. */
  lemma PagesCoverList<T>(list: seq<T>)
    ensures PagesUpTo(list, TotalPages(|list|)) == list
  {
    PagesUpToIsPrefix(list, TotalPages(|list|));
    assert list[..|list|] == list;
  }

  // ---------------------------------------------------------------------
  // The pagination bar

  /** A numbered button or an ellipsis. */
  datatype PageEntry = Page(n: int) | Gap

  const MaxButtons := 5

  /** The first numbered button. */
  function WindowStart(current: int, total: int): int
  {
    var start := Max(1, current - MaxButtons / 2);
    var end := Min(total, start + MaxButtons - 1);
    if end - start + 1 < MaxButtons then Max(1, end - MaxButtons + 1) else start
  }

  /** The last numbered button (computed before the start is moved). */
  function WindowEnd(current: int, total: int): int
  {
    Min(total, Max(1, current - MaxButtons / 2) + MaxButtons - 1)
  }

  /** Pages a..b. */
  function PageRange(a: int, b: int): seq<PageEntry>
    decreases if b < a then 0 else b - a + 1
  {
    if b < a then [] else PageRange(a, b - 1) + [Page(b)]
  }

  lemma {:induction false} PageRangeAt(a: int, b: int)
    ensures |PageRange(a, b)| == if b < a then 0 else b - a + 1
    ensures forall k :: 0 <= k < |PageRange(a, b)| ==> PageRange(a, b)[k] == Page(a + k)
    decreases if b < a then 0 else b - a + 1
  {
    if a <= b {
      PageRangeAt(a, b - 1);
    }
  }

  /** Page 1 and, if the window starts later than page 2, an ellipsis. */
  function Leading(start: int): seq<PageEntry>
  {
    if start > 1 then [Page(1)] + (if start > 2 then [Gap] else []) else []
  }

  /** An ellipsis if the window ends before the second-to-last page, then
      the last page. */
  function Trailing(end: int, total: int): seq<PageEntry>
  {
    if end < total then (if end < total - 1 then [Gap] else []) + [Page(total)] else []
  }

  /** The entries of the pagination bar. */
  function PageNumbers(current: int, total: int): seq<PageEntry>
  {
    var start := WindowStart(current, total);
    var end := WindowEnd(current, total);
    Leading(start) + PageRange(start, end) + Trailing(end, total)
  }

  /** getPageNumbers. */
  method GetPageNumbers(currentPage: int, totalPages: int) returns (pageNumbers: seq<PageEntry>)
    ensures pageNumbers == PageNumbers(currentPage, totalPages)
  {
    pageNumbers := [];
    var start := Max(1, currentPage - MaxButtons / 2);
    var end := Min(totalPages, start + MaxButtons - 1);
    if end - start + 1 < MaxButtons {
      start := Max(1, end - MaxButtons + 1);
    }
    assert start == WindowStart(currentPage, totalPages) && end == WindowEnd(currentPage, totalPages);
    if start > 1 {
      pageNumbers := pageNumbers + [Page(1)];
      if start > 2 {
        pageNumbers := pageNumbers + [Gap];
      }
    }
    var i := start;
    while i <= end
      invariant start <= i && (i <= end + 1 || i == start)
      invariant pageNumbers == Leading(start) + PageRange(start, i - 1)
    {
      pageNumbers := pageNumbers + [Page(i)];
      i := i + 1;
    }
    assert PageRange(start, i - 1) == PageRange(start, end);
    ghost var front := pageNumbers;
    if end < totalPages {
      if end < totalPages - 1 {
        pageNumbers := pageNumbers + [Gap];
      }
      pageNumbers := pageNumbers + [Page(totalPages)];
    }
    assert pageNumbers == front + Trailing(end, totalPages);
  }

  /** For a current page within 1..total, the numbered window holds
      min(5, total) consecutive pages around the current one. */
  lemma WindowAroundCurrent(current: int, total: int)
    requires 1 <= current <= total
    ensures var start, end := WindowStart(current, total), WindowEnd(current, total);
            && 1 <= start <= current <= end <= total
            && end - start + 1 == Min(MaxButtons, total)
  {
  }

  /** Where each entry of the bar comes from: page 1 and an ellipsis
      before the window, the window's pages, an ellipsis and the last page
      after it. */
  lemma PageNumbersAt(current: int, total: int)
    requires 1 <= current <= total
    ensures var r := PageNumbers(current, total);
            var start, end := WindowStart(current, total), WindowEnd(current, total);
            var h := |Leading(start)|;
            && |r| == h + (end - start + 1) + |Trailing(end, total)|
            && (forall k :: 0 <= k < h ==> r[k] == if k == 0 then Page(1) else Gap)
            && (forall k :: h <= k < h + (end - start + 1) ==> r[k] == Page(start + k - h))
            && (forall k :: h + (end - start + 1) <= k < |r| ==> r[k] == if k == |r| - 1 then Page(total) else Gap)
  {
    var start, end := WindowStart(current, total), WindowEnd(current, total);
    WindowAroundCurrent(current, total);
    PageRangeAt(start, end);
    var l, m, t := Leading(start), PageRange(start, end), Trailing(end, total);
    var r := PageNumbers(current, total);
    assert r == l + m + t;
    assert forall k :: 0 <= k < |l| ==> r[k] == l[k];
    assert forall k :: |l| <= k < |l| + |m| ==> r[k] == m[k - |l|];
    assert forall k :: |l| + |m| <= k < |r| ==> r[k] == t[k - |l| - |m|];
  }

  /** The bar starts at page 1, ends at the last page, and shows the
      current page. */
  lemma PageNumbersEnds(current: int, total: int)
    requires 1 <= current <= total
    ensures var r := PageNumbers(current, total);
            |r| >= 1 && r[0] == Page(1) && r[|r| - 1] == Page(total) && Page(current) in r
  {
    PageNumbersAt(current, total);
    WindowAroundCurrent(current, total);
    var r := PageNumbers(current, total);
    var start := WindowStart(current, total);
    var h := |Leading(start)|;
    assert r[h + current - start] == Page(current);
  }

  /** Neighbouring numbered buttons are consecutive pages, and an ellipsis
      always sits between two numbered buttons and hides at least one page;
      so the numbers are strictly increasing and lie in 1..total. */
  lemma PageNumbersOrdered(current: int, total: int)
    requires 1 <= current <= total
    ensures var r := PageNumbers(current, total);
            && (forall k :: 0 <= k < |r| - 1 && r[k].Page? && r[k + 1].Page? ==> r[k + 1].n == r[k].n + 1)
            && (forall k :: 0 <= k < |r| && r[k].Gap? ==>
                  0 < k < |r| - 1 && r[k - 1].Page? && r[k + 1].Page? && r[k + 1].n >= r[k - 1].n + 2)
            && (forall k :: 0 <= k < |r| && r[k].Page? ==> 1 <= r[k].n <= total)
  {
    PageNumbersAt(current, total);
    WindowAroundCurrent(current, total);
  }

  lemma {:induction false} PageNumbersIncreasing(current: int, total: int)
    requires 1 <= current <= total
    ensures var r := PageNumbers(current, total);
            forall i, j :: 0 <= i < j < |r| && r[i].Page? && r[j].Page? ==> r[i].n < r[j].n
  {
    PageNumbersOrdered(current, total);
    var r := PageNumbers(current, total);
    forall i, j | 0 <= i < j < |r| && r[i].Page? && r[j].Page?
      ensures r[i].n < r[j].n
    {
      IncreasingStep(r, i, j);
    }
  }

  /** From one numbered entry, every later numbered entry is larger. */
  lemma {:induction false} IncreasingStep(r: seq<PageEntry>, i: int, j: int)
    requires forall k :: 0 <= k < |r| - 1 && r[k].Page? && r[k + 1].Page? ==> r[k + 1].n == r[k].n + 1
    requires forall k :: 0 <= k < |r| && r[k].Gap? ==>
               0 < k < |r| - 1 && r[k - 1].Page? && r[k + 1].Page? && r[k + 1].n >= r[k - 1].n + 2
    requires 0 <= i < j < |r| && r[i].Page? && r[j].Page?
    ensures r[i].n < r[j].n
    decreases j - i
  {
    if r[i + 1].Page? {
      if i + 1 < j {
        IncreasingStep(r, i + 1, j);
      }
    } else {
      assert r[i + 2].Page?;
      if i + 2 < j {
        IncreasingStep(r, i + 2, j);
      }
    }
  }

  /** An ellipsis follows page 1 exactly when the window starts after
      page 2, and precedes the last page exactly when the window ends
      before the second-to-last page. */
  lemma EllipsisRules(current: int, total: int)
    requires 1 <= current <= total
    ensures var r := PageNumbers(current, total);
            && (|r| > 1 && r[1].Gap? <==> WindowStart(current, total) > 2)
            && (|r| > 1 && r[|r| - 2].Gap? <==> WindowEnd(current, total) < total - 1)
  {
    PageNumbersAt(current, total);
    WindowAroundCurrent(current, total);
  }

  /** "Previous" is disabled on page 1, "next" on the last page. */
  predicate PreviousEnabled(currentPage: int)
  {
    currentPage != 1
  }

  predicate NextEnabled(currentPage: int, totalPages: int)
  {
    currentPage != totalPages
  }

  /** A click on an entry: a numbered button selects its page, an
      ellipsis does nothing. */
  function PageAfterClick(currentPage: int, entry: PageEntry): (p: int)
    ensures entry.Gap? ==> p == currentPage
    ensures entry.Page? ==> p == entry.n
  {
    if entry.Page? then entry.n else currentPage
  }

  /** Whatever is clicked on the bar, the page stays within 1..total. */
  lemma ClickKeepsPageInRange(current: int, total: int, entry: PageEntry)
    requires 1 <= current <= total && entry in PageNumbers(current, total)
    ensures 1 <= PageAfterClick(current, entry) <= total
  {
    PageNumbersOrdered(current, total);
    var r := PageNumbers(current, total);
    var k :| 0 <= k < |r| && r[k] == entry;
  }

  // ---------------------------------------------------------------------
  // The page state

  /** The current page is kept when the search, the status filter or the
      date filter change: once the filtered list has fewer pages than the
      page shown, the table is empty although orders match, and "next"
      stays enabled. */
  lemma StalePageShowsNoOrders(filtered: seq<Order>, currentPage: int)
    requires |filtered| > 0 && currentPage > TotalPages(|filtered|)
    ensures PageSlice(filtered, currentPage) == []
    ensures NextEnabled(currentPage, TotalPages(|filtered|)) && PreviousEnabled(currentPage)
  {
  }

  /** The situation arises: nine orders, one of them shipped; on page 2
      of all nine, choosing the 'shipped' filter leaves one page. */
  lemma StalePageReachable()
    ensures var shipped := Order("a1", "shipped", None, false, 0, []);
            var pending := Order("b2", "pending", None, false, 0, []);
            var orders := [shipped] + seq(8, _ => pending);
            && 2 <= TotalPages(|FilteredOrders(orders, "", "All")|)
            && |FilteredOrders(orders, "", "shipped")| > 0
            && PageSlice(FilteredOrders(orders, "", "shipped"), 2) == []
  {
    var shipped := Order("a1", "shipped", None, false, 0, []);
    var pending := Order("b2", "pending", None, false, 0, []);
    var rest := seq(8, _ => pending);
    var orders := [shipped] + rest;
    FilteredOrdersKeepOrder(orders, "", "All");
    ContainsEmpty(Lower(shipped.id));
    assert Lower("shipped") == "shipped";
    assert Lower("pending") == "pending";
    assert OrderMatches(shipped, "", "shipped");
    var p := (o: Order) => OrderMatches(o, "", "shipped");
    FilterAppend([shipped], rest, p);
    assert !p(pending);
    FilterDropsAll(rest, p);
    assert Filter([shipped], p) == [shipped];
    assert Filter(orders, p) == [shipped];
    assert FilteredOrders(orders, "", "shipped") == [shipped];
  }

  class OrderListPage {
    var orders: seq<Order>
    var searchQuery: string
    var statusQuery: string
    var currentPage: int

    function Filtered(): seq<Order>
      reads this
    {
      FilteredOrders(orders, searchQuery, statusQuery)
    }

    function Pages(): nat
      reads this
    {
      TotalPages(|Filtered()|)
    }

    /** The page shown is always one the filtered list has (page 1 when
        it is empty). */
    ghost predicate Valid()
      reads this
    {
      1 <= currentPage <= Max(1, Pages())
    }

    constructor ()
      ensures Valid() && orders == [] && searchQuery == "" && statusQuery == "All" && currentPage == 1
    {
      orders := [];
      searchQuery := "";
      statusQuery := "All";
      currentPage := 1;
    }

    /** A new list (the fetch or the date filter); back to page 1. */
    method SetOrders(list: seq<Order>)
      modifies this
      ensures Valid() && orders == list && currentPage == 1
      ensures searchQuery == old(searchQuery) && statusQuery == old(statusQuery)
    {
      orders := list;
      currentPage := 1;
    }

    /** A new search; back to page 1. */
    method SetSearchQuery(query: string)
      modifies this
      ensures Valid() && searchQuery == query && currentPage == 1
      ensures orders == old(orders) && statusQuery == old(statusQuery)
    {
      searchQuery := query;
      currentPage := 1;
    }

    /** A new status filter; back to page 1. */
    method SetStatusQuery(query: string)
      modifies this
      ensures Valid() && statusQuery == query && currentPage == 1
      ensures orders == old(orders) && searchQuery == old(searchQuery)
    {
      statusQuery := query;
      currentPage := 1;
    }

    /** The orders of the current page. */
    method CurrentOrders() returns (r: seq<Order>)
      requires Valid()
      ensures r == PageSlice(Filtered(), currentPage)
      ensures |Filtered()| > 0 ==> 0 < |r| <= OrdersPerPage
    {
      r := PageSlice(Filtered(), currentPage);
    }

    /** The bar is shown when some order matches. */
    method PreviousPage()
      requires Valid() && |Filtered()| > 0 && PreviousEnabled(currentPage)
      modifies this
      ensures Valid() && currentPage == old(currentPage) - 1
      ensures orders == old(orders) && searchQuery == old(searchQuery) && statusQuery == old(statusQuery)
    {
      currentPage := currentPage - 1;
    }

    method NextPage()
      requires Valid() && |Filtered()| > 0 && NextEnabled(currentPage, Pages())
      modifies this
      ensures Valid() && currentPage == old(currentPage) + 1
      ensures orders == old(orders) && searchQuery == old(searchQuery) && statusQuery == old(statusQuery)
    {
      currentPage := currentPage + 1;
    }

    method ClickEntry(entry: PageEntry)
      requires Valid() && |Filtered()| > 0 && entry in PageNumbers(currentPage, Pages())
      modifies this
      ensures Valid() && currentPage == PageAfterClick(old(currentPage), entry)
      ensures orders == old(orders) && searchQuery == old(searchQuery) && statusQuery == old(statusQuery)
    {
      ClickKeepsPageInRange(currentPage, Pages(), entry);
      currentPage := PageAfterClick(currentPage, entry);
    }
  }
}

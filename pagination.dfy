/** The page arithmetic of the two list views: the dashboard's order table
    shows ten orders a page, the shop's product grid six products a page.
    Both cut the current page out of the whole list with `slice`, count the
    pages with `Math.ceil`, and show the page controls only when there is
    more than one page. */
module Pagination {
  import opened Js

  /** `PAGE_SIZE` of the order table. */
  const OrdersPageSize: nat := 10

  /** `PRODUCTS_PER_PAGE` of the product grid. */
  const ProductsPerPage: nat := 6

  /** `items.slice((page - 1) * size, (page - 1) * size + size)` */
  function PageItems<T>(items: seq<T>, page: int, size: nat): (r: seq<T>) {
    Slice(items, (page - 1) * size, (page - 1) * size + size)
  }

  /** `Math.ceil(items.length / size)` */
  function TotalPages(n: nat, size: nat): (r: nat)
    requires size > 0
    ensures (r - 1) * size < n <= r * size
    ensures n == 0 <==> r == 0
  {
    CeilDivPositive(n, size);
    CeilDivNat(n, size);
    CeilDiv(n, size)
  }

  function Min(a: int, b: int): (r: int) {
    if a <= b then a else b
  }

  /** A page from the first on is the run of at most `size` items that
      starts after the earlier pages. */
  lemma PageItemsWindow<T>(items: seq<T>, page: int, size: nat)
    requires page >= 1 && size > 0
    ensures var start := (page - 1) * size;
      PageItems(items, page, size) == items[Min(start, |items|)..Min(start + size, |items|)]
    ensures |PageItems(items, page, size)| <= size
  {
    var start := (page - 1) * size;
    assert start >= 0 by {
      assert page - 1 >= 0;
    }
    assert RelativeIndex(start, |items|) == Min(start, |items|);
    assert RelativeIndex(start + size, |items|) == Min(start + size, |items|);
  }

  /** A page holds items exactly up to the last page. */
  lemma PageNonEmpty<T>(items: seq<T>, page: int, size: nat)
    requires page >= 1 && size > 0
    ensures page <= TotalPages(|items|, size) <==> PageItems(items, page, size) != []
  {
    var n := TotalPages(|items|, size);
    PageStartBound(page, n, size, |items|);
    var start := (page - 1) * size;
    MulLe(0, page - 1, size);
    PageItemsWindow(items, page, size);
    WindowNonEmpty(items, start, size);
  }

  /** A page starts inside a list of `len` items split into `n` pages
      exactly when it is one of those pages. */
  lemma PageStartBound(page: int, n: int, size: nat, len: nat)
    requires page >= 1 && size > 0 && (n - 1) * size < len <= n * size
    ensures page <= n <==> (page - 1) * size < len
  {
    if page <= n {
      MulLe(page - 1, n - 1, size);
    } else {
      MulLe(n, page - 1, size);
    }
  }

  lemma WindowNonEmpty<T>(items: seq<T>, start: nat, size: nat)
    requires size > 0
    ensures items[Min(start, |items|)..Min(start + size, |items|)] != [] <==> start < |items|
  {
  }

  lemma MulLe(a: int, b: int, c: nat)
    requires a <= b
    ensures a * c <= b * c
  {
    assert b * c - a * c == (b - a) * c;
  }

  lemma MulSucc(k: nat, size: nat)
    ensures k * size >= 0 && k * size + size == (k + 1) * size
  {
  }

  /** Pages 1 to `count` one after the other. */
  function FirstPages<T>(items: seq<T>, size: nat, count: nat): (r: seq<T>) {
    if count == 0 then [] else FirstPages(items, size, count - 1) + PageItems(items, count, size)
  }

  /** The first `count` pages hold the first `count * size` items. */
  lemma {:induction false} FirstPagesPrefix<T>(items: seq<T>, size: nat, count: nat)
    requires size > 0
    ensures FirstPages(items, size, count) == items[..Min(count * size, |items|)]
  {
    if count > 0 {
      MulSucc(count - 1, size);
      var prev: nat := (count - 1) * size;
      FirstPagesPrefix(items, size, count - 1);
      PageWindowAt(items, count, size, prev);
      JoinWindows(items, prev, size);
      assert count * size == prev + size;
    }
  }

  /** The page `page` as the window that starts at `start`. */
  lemma PageWindowAt<T>(items: seq<T>, page: int, size: nat, start: nat)
    requires page >= 1 && size > 0 && start == (page - 1) * size
    ensures PageItems(items, page, size) == items[Min(start, |items|)..Min(start + size, |items|)]
  {
    PageItemsWindow(items, page, size);
  }

  /** The items before `p` followed by the window after it are the items
      before `p + size`. */
  lemma JoinWindows<T>(items: seq<T>, p: nat, size: nat)
    ensures items[..Min(p, |items|)] + items[Min(p, |items|)..Min(p + size, |items|)] == items[..Min(p + size, |items|)]
  {
  }

  /** Paging through every page shows every item once, in list order. */
  lemma PagesCoverList<T>(items: seq<T>, size: nat)
    requires size > 0
    ensures FirstPages(items, size, TotalPages(|items|, size)) == items
  {
    FirstPagesPrefix(items, size, TotalPages(|items|, size));
  }

  /** `setCurrentPage(p => Math.max(1, p - 1))` */
  function PreviousPage(p: int): (r: int)
    ensures r >= 1 && r >= p - 1
  {
    if 1 >= p - 1 then 1 else p - 1
  }

  /** `setCurrentPage(p => Math.min(totalPages, p + 1))` */
  function NextPage(p: int, totalPages: int): (r: int)
    ensures r <= totalPages && r <= p + 1
  {
    if totalPages <= p + 1 then totalPages else p + 1
  }

  /** The controls are rendered only when there is more than one page. */
  predicate ControlsShown(totalPages: int) {
    totalPages > 1
  }

  /** Previous is disabled on the first page, Next on the last. */
  predicate PreviousDisabled(p: int) {
    p == 1
  }

  predicate NextDisabled(p: int, totalPages: int) {
    p == totalPages
  }

  /** From a page in range, Previous and Next stay in range and move by one;
      the button that would not move the page is exactly the disabled one. */
  lemma PageStepsStayInRange(p: int, totalPages: int)
    requires 1 <= p <= totalPages
    ensures 1 <= PreviousPage(p) <= totalPages && 1 <= NextPage(p, totalPages) <= totalPages
    ensures PreviousPage(p) == p <==> PreviousDisabled(p)
    ensures NextPage(p, totalPages) == p <==> NextDisabled(p, totalPages)
    ensures !PreviousDisabled(p) ==> PreviousPage(p) == p - 1
    ensures !NextDisabled(p, totalPages) ==> NextPage(p, totalPages) == p + 1
  {
  }

  /** Next then Previous comes back, away from the last page. */
  lemma NextThenPrevious(p: int, totalPages: int)
    requires 1 <= p < totalPages
    ensures PreviousPage(NextPage(p, totalPages)) == p
  {
  }

  /** The order table's visible orders. */
  function OrdersOnPage<T>(orders: seq<T>, currentPage: int): (r: seq<T>)
    ensures currentPage >= 1 ==> |r| <= OrdersPageSize
    ensures currentPage >= 1 ==> r == orders[Min((currentPage - 1) * 10, |orders|)..Min((currentPage - 1) * 10 + 10, |orders|)]
  {
    if currentPage >= 1 then PageItemsWindow(orders, currentPage, OrdersPageSize); PageItems(orders, currentPage, OrdersPageSize)
    else PageItems(orders, currentPage, OrdersPageSize)
  }

  /** The order table's page count and whether its controls appear. */
  lemma OrderTablePages<T>(orders: seq<T>)
    ensures var n := TotalPages(|orders|, OrdersPageSize);
      (ControlsShown(n) <==> |orders| > 10) && (n - 1) * 10 < |orders| <= n * 10
  {
  }

  /** The product grid's visible products. */
  function ProductsOnPage<T>(products: seq<T>, currentPage: int): (r: seq<T>)
    ensures currentPage >= 1 ==> |r| <= ProductsPerPage
    ensures currentPage >= 1 ==> r == products[Min((currentPage - 1) * 6, |products|)..Min((currentPage - 1) * 6 + 6, |products|)]
  {
    if currentPage >= 1 then PageItemsWindow(products, currentPage, ProductsPerPage); PageItems(products, currentPage, ProductsPerPage)
    else PageItems(products, currentPage, ProductsPerPage)
  }

  /** The product grid's pagination is rendered only past six products. */
  lemma ProductGridPages<T>(products: seq<T>)
    ensures var n := TotalPages(|products|, ProductsPerPage);
      (ControlsShown(n) <==> |products| > 6) && (n - 1) * 6 < |products| <= n * 6
  {
  }
}

/**
 * The point-of-sale product listings: `search_products_for_sale` and the
 * paginated `get_all_products_for_sale`. Both report a product's stock as
 * the sum over all of its Inventory rows.
 *
 * The product table is passed as a sequence in the order the query returns
 * it: the search query sets no order, the listing orders by name.
 */
module ProductQueries {
  import opened Wrappers
  import opened Seqs
  import opened Text
  import opened Inventory

  /** At most this many search results. */
  const SearchLimit: nat := 10

  /** Shorter queries return no results without touching the store. */
  const MinQueryLength: nat := 2

  /** One product as both endpoints list it: the price defaults to 0, the stock is the all-rows total. */
  datatype ProductListing = ProductListing(id: ProductId, name: string, sku: string, price: int, stock: int)

  function Listing(ledger: Ledger, zones: seq<Zone>, p: Product): ProductListing {
    ProductListing(p.id, p.name, p.sku, PriceOrZero(p), TotalStock(ledger, zones, p.id))
  }

  /** The search text: the `q` parameter when non-empty, else the `query` parameter, else "". */
  function QueryText(q: Option<string>, query: Option<string>): (r: string)
    ensures q.Some? && q.value != "" ==> r == q.value
    ensures (q.None? || q.value == "") && query.Some? ==> r == query.value
    ensures (q.None? || q.value == "") && query.None? ==> r == ""
  {
    if q.Some? && q.value != "" then q.value else query.GetOr("")
  }

  /** An active product whose name or SKU contains the query, ignoring case. */
  predicate MatchesQuery(query: string, p: Product) {
    p.active && (ContainsIgnoreCase(p.name, query) || ContainsIgnoreCase(p.sku, query))
  }

  function Min(a: int, b: int): int {
    if a <= b then a else b
  }

  /** The products the search filter keeps, in query order. */
  function Matching(products: seq<Product>, query: string): seq<Product> {
    Filter(products, (p: Product) => MatchesQuery(query, p))
  }

  /** The listing of each product, in order. */
  function Listings(ledger: Ledger, zones: seq<Zone>, ps: seq<Product>): (r: seq<ProductListing>)
    ensures |r| == |ps|
    ensures forall i :: 0 <= i < |r| ==> r[i] == Listing(ledger, zones, ps[i])
  {
    seq(|ps|, i requires 0 <= i < |ps| => Listing(ledger, zones, ps[i]))
  }

  /** `search_products_for_sale`: the first ten matching products, in query order. */
  function Search(products: seq<Product>, ledger: Ledger, zones: seq<Zone>, query: string): (r: seq<ProductListing>)
    ensures |query| < MinQueryLength ==> r == []
    ensures |r| <= SearchLimit
    ensures |query| >= MinQueryLength ==>
      |r| == Min(SearchLimit, |Matching(products, query)|) &&
      forall i :: 0 <= i < |r| ==> r[i] == Listing(ledger, zones, Matching(products, query)[i])
  {
    if |query| < MinQueryLength then []
    else
      var found := Matching(products, query);
      Listings(ledger, zones, if |found| <= SearchLimit then found else found[..SearchLimit])
  }

  /** Every search result lists a product of the table that matches the query. */
  lemma SearchResultsMatch(products: seq<Product>, ledger: Ledger, zones: seq<Zone>, query: string)
    ensures var r := Search(products, ledger, zones, query);
            forall i :: 0 <= i < |r| ==>
              exists j :: 0 <= j < |products| && MatchesQuery(query, products[j]) && r[i] == Listing(ledger, zones, products[j])
  {
    var r := Search(products, ledger, zones, query);
    var found := Matching(products, query);
    forall i | 0 <= i < |r|
      ensures exists j :: 0 <= j < |products| && MatchesQuery(query, products[j]) && r[i] == Listing(ledger, zones, products[j])
    {
      assert found[i] in products && MatchesQuery(query, found[i]);
      var j :| 0 <= j < |products| && products[j] == found[i];
    }
  }

  /** A search with fewer than ten results lists every matching product. */
  lemma SearchComplete(products: seq<Product>, ledger: Ledger, zones: seq<Zone>, query: string)
    ensures var r := Search(products, ledger, zones, query);
            |query| >= MinQueryLength && |r| < SearchLimit ==>
              forall j :: 0 <= j < |products| && MatchesQuery(query, products[j]) ==> Listing(ledger, zones, products[j]) in r
  {
    var r := Search(products, ledger, zones, query);
    var found := Matching(products, query);
    if |query| >= MinQueryLength && |r| < SearchLimit {
      forall j | 0 <= j < |products| && MatchesQuery(query, products[j])
        ensures Listing(ledger, zones, products[j]) in r
      {
        var k :| 0 <= k < |found| && found[k] == products[j];
        assert r[k] == Listing(ledger, zones, products[j]);
      }
    }
  }

  /** Dafny's division by a positive divisor already rounds down. */
  lemma DivBounds(a: int, b: int)
    requires b > 0
    ensures (a / b) * b <= a < (a / b) * b + b
  {
    assert a == (a / b) * b + a % b;
  }

  lemma NegateProduct(q: int, b: int)
    ensures q * (-b) == -(q * b)
  {
  }

  /** Python's `a // b`: division rounding toward negative infinity. */
  function FloorDiv(a: int, b: int): int
    requires b != 0
  {
    if b > 0 then a / b else (-a) / (-b)
  }

  /** `FloorDiv` is the quotient rounded toward negative infinity, for either sign of divisor. */
  lemma FloorDivRoundsDown(a: int, b: int)
    requires b != 0
    ensures b > 0 ==> FloorDiv(a, b) * b <= a < FloorDiv(a, b) * b + b
    ensures b < 0 ==> FloorDiv(a, b) * b >= a > FloorDiv(a, b) * b + b
  {
    if b > 0 {
      DivBounds(a, b);
    } else {
      DivBounds(-a, -b);
      NegateProduct((-a) / (-b), b);
    }
  }

  lemma {:induction false} MulMonotone(a: int, b: int, c: int)
    requires a <= b && c > 0
    ensures a * c <= b * c
    decreases b - a
  {
    if a < b {
      MulMonotone(a, b - 1, c);
      assert (b - 1) * c == b * c - c;
    }
  }

  /** The bounds of a floor quotient of `total + size - 1` make it the ceiling of `total / size`. */
  lemma CeilingBounds(total: int, size: int, r: int)
    requires total >= 0 && size > 0
    requires r * size <= total + size - 1 < r * size + size
    ensures r >= 0 && (r - 1) * size < total <= r * size
  {
    assert (r - 1) * size == r * size - size;
    if r < 0 {
      MulMonotone(r, -1, size);
    }
  }

  /** `total_pages = (total + page_size - 1) // page_size`. */
  function TotalPages(total: int, pageSize: int): int
    requires pageSize != 0
  {
    FloorDiv(total + pageSize - 1, pageSize)
  }

  /** For a positive page size, `total_pages` is the ceiling of `total / page_size`. */
  lemma TotalPagesIsCeiling(total: int, pageSize: int)
    requires total >= 0 && pageSize > 0
    ensures TotalPages(total, pageSize) >= 0
    ensures (TotalPages(total, pageSize) - 1) * pageSize < total <= TotalPages(total, pageSize) * pageSize
  {
    FloorDivRoundsDown(total + pageSize - 1, pageSize);
    CeilingBounds(total, pageSize, TotalPages(total, pageSize));
  }

  /** Index of the first product of a page: `(page - 1) * page_size`. */
  function Offset(page: int, pageSize: int): int {
    (page - 1) * pageSize
  }

  predicate IsActiveProduct(p: Product) {
    p.active
  }

  function ActiveProducts(products: seq<Product>): seq<Product> {
    Filter(products, IsActiveProduct)
  }

  datatype Page = Page(listings: seq<ProductListing>, count: nat, page: int, pageSize: int, totalPages: int)

  /** The two ways the listing fails: a negative slice bound, and a page size of zero in the page count. */
  datatype PageError = NegativeIndex | ZeroPageSize

  /**
   * The queryset slice `[start:stop]` with both bounds non-negative: clamped
   * to the sequence, and empty when `stop` is not after `start`.
   */
  function Window(active: seq<Product>, start: nat, stop: nat): (w: seq<Product>)
    ensures |w| == if stop <= start || start >= |active| then 0 else Min(stop, |active|) - start
    ensures forall i :: 0 <= i < |w| ==> start + i < |active| && w[i] == active[start + i]
  {
    if stop <= start then []
    else active[Min(start, |active|)..Min(stop, |active|)]
  }

  /**
   * The page of `active` that starts at index `start`: the slice
   * `[start, start + pageSize)` listed, with the count and page count. A
   * negative bound is refused by the ORM, an empty or reversed range gives an
   * empty page, and a zero page size fails when the page count is computed.
   */
  function PageAt(active: seq<Product>, ledger: Ledger, zones: seq<Zone>, start: int, page: int, pageSize: int): (r: Result<Page, PageError>)
    ensures r.Failure? <==> start < 0 || start + pageSize < 0 || pageSize == 0
    ensures r.Success? ==>
      && r.value.count == |active|
      && r.value.page == page && r.value.pageSize == pageSize
      && r.value.totalPages == TotalPages(|active|, pageSize)
      && (forall i :: 0 <= i < |r.value.listings| ==>
            start + i < |active| && r.value.listings[i] == Listing(ledger, zones, active[start + i]))
      && (pageSize > 0 ==> |r.value.listings| == if start >= |active| then 0 else Min(pageSize, |active| - start))
      && (pageSize < 0 ==> r.value.listings == [])
  {
    if start < 0 || start + pageSize < 0 then Failure(NegativeIndex)
    else if pageSize == 0 then Failure(ZeroPageSize)
    else
      var listings := Listings(ledger, zones, Window(active, start, start + pageSize));
      Success(Page(listings, |active|, page, pageSize, TotalPages(|active|, pageSize)))
  }

  /** `get_all_products_for_sale`: the page of the active products that starts at `(page - 1) * page_size`. */
  function ListPage(products: seq<Product>, ledger: Ledger, zones: seq<Zone>, page: int, pageSize: int): (r: Result<Page, PageError>)
    ensures r.Failure? <==> Offset(page, pageSize) < 0 || Offset(page, pageSize) + pageSize < 0 || pageSize == 0
    ensures r.Success? ==> r.value.count == |ActiveProducts(products)| && r.value.totalPages == TotalPages(r.value.count, pageSize)
  {
    PageAt(ActiveProducts(products), ledger, zones, Offset(page, pageSize), page, pageSize)
  }

  /** A page `page >= 1` starts inside `n` items exactly when it is within the ceiling `t` of `n / size`. */
  lemma OffsetWithinIff(page: int, size: int, n: int, t: int)
    requires page >= 1 && size > 0 && (t - 1) * size < n <= t * size
    ensures Offset(page, size) >= 0
    ensures Offset(page, size) < n <==> page <= t
  {
    MulMonotone(0, page - 1, size);
    if page <= t {
      MulMonotone(page - 1, t - 1, size);
    } else {
      MulMonotone(t, page - 1, size);
    }
  }

  /** With a positive page size, page `page >= 1` is non-empty exactly when it is within `total_pages`. */
  lemma PageNonEmptyIffWithinTotalPages(products: seq<Product>, ledger: Ledger, zones: seq<Zone>, page: int, pageSize: int)
    requires page >= 1 && pageSize > 0
    ensures ListPage(products, ledger, zones, page, pageSize).Success?
    ensures var p := ListPage(products, ledger, zones, page, pageSize).value;
            |p.listings| > 0 <==> page <= p.totalPages
  {
    var n := |ActiveProducts(products)|;
    TotalPagesIsCeiling(n, pageSize);
    OffsetWithinIff(page, pageSize, n, TotalPages(n, pageSize));
  }

  /** Item `j` sits on page `j / size + 1`, at position `j % size` of it. */
  lemma PagePosition(j: nat, size: int)
    requires size > 0
    ensures Offset(j / size + 1, size) >= 0
    ensures Offset(j / size + 1, size) + j % size == j
    ensures 0 <= j % size < size
  {
    assert Offset(j / size + 1, size) == (j / size) * size;
    MulMonotone(0, j / size, size);
  }

  /** A product whose index lies within a page's window is listed there, at its offset from the page start. */
  lemma ListedAt(active: seq<Product>, ledger: Ledger, zones: seq<Zone>, start: int, page: int, pageSize: int, pos: int)
    requires pageSize > 0 && start >= 0 && 0 <= pos < pageSize && start + pos < |active|
    ensures var p := PageAt(active, ledger, zones, start, page, pageSize);
            p.Success? && pos < |p.value.listings| &&
            p.value.listings[pos] == Listing(ledger, zones, active[start + pos])
  {
    var r := PageAt(active, ledger, zones, start, page, pageSize);
    assert |r.value.listings| == Min(pageSize, |active| - start);
  }

  /** The listing endpoint is the page of the active products that starts at the offset. */
  lemma ListPageIsPageAt(products: seq<Product>, ledger: Ledger, zones: seq<Zone>, page: int, pageSize: int, start: int)
    requires start == Offset(page, pageSize)
    ensures ListPage(products, ledger, zones, page, pageSize) == PageAt(ActiveProducts(products), ledger, zones, start, page, pageSize)
  {
  }

  /** Every active product is listed on page `j / page_size + 1`, at position `j % page_size`. */
  lemma EveryProductOnItsPage(products: seq<Product>, ledger: Ledger, zones: seq<Zone>, pageSize: int, j: nat)
    requires pageSize > 0 && j < |ActiveProducts(products)|
    ensures var p := ListPage(products, ledger, zones, j / pageSize + 1, pageSize);
            p.Success? && j % pageSize < |p.value.listings| &&
            p.value.listings[j % pageSize] == Listing(ledger, zones, ActiveProducts(products)[j])
  {
    var page, pos := j / pageSize + 1, j % pageSize;
    var start := Offset(page, pageSize);
    PagePosition(j, pageSize);
    ListPageIsPageAt(products, ledger, zones, page, pageSize, start);
    ListedAt(ActiveProducts(products), ledger, zones, start, page, pageSize, pos);
  }
}

/** The mock product backend (`ProductList/src/mock/product.ts`): the generated catalogue and
    its cache, the list query (filter, sort, page), and the detail enrichment that adds specs,
    SKUs and detail images. Every Mock.js random draw is an argument. */
module Catalogue {
  import opened Base
  import opened Text
  import opened ProductTypes
  import Pagination

  const CatalogueSize: nat := 150
  const ColourSpec: string := "颜色"
  const SizeSpec: string := "尺寸"
  const Colours: seq<string> := ["红色", "蓝色", "绿色", "黑色", "白色", "灰色"]
  const Sizes: seq<string> := ["S", "M", "L", "XL", "XXL"]
  const SkuPriceFloor: int := 50
  const NotFound: string := "Product not found"

  // ---------------------------------------------------------------------------------------
  // Generating the catalogue

  /** One record of the Mock.js list template before post-processing. */
  datatype MockItem = MockItem(
    name: string,
    price: int,
    originalPrice: int,
    image: string,
    category: string,
    sales: int,
    description: string,
    stock: int)

  /** The id of the `n`-th generated product (`'id|+1': 1` numbers them from 1). */
  function ProductId(n: nat): string {
    "product_" + NatToString(n)
  }

  lemma ProductIdInjective(m: nat, n: nat)
    requires ProductId(m) == ProductId(n)
    ensures m == n
  {
    assert ProductId(m)[8..] == NatToString(m);
    assert ProductId(n)[8..] == NatToString(n);
    IntToStringInjective(m, n);
  }

  /** The post-processing of the `n`-th record; `bump` is the `integer(10, 100)` draw. */
  function Finish(n: nat, item: MockItem, bump: int): Product {
    var original := if item.originalPrice > item.price then item.originalPrice else item.price + bump;
    Product(ProductId(n), item.name, item.price, Some(original), item.image, None, item.category,
      item.sales, Some(item.description), None, item.stock, None, None)
  }

  predicate BumpsDrawn(items: seq<MockItem>, bumps: seq<int>) {
    |bumps| == |items| && forall k | 0 <= k < |bumps| :: 10 <= bumps[k] <= 100
  }

  /** `generateProducts(|items|)`: the records keep their data, are numbered from 1, and get an
      original price above the price. */
  function GenerateProducts(items: seq<MockItem>, bumps: seq<int>): (ps: seq<Product>)
    requires BumpsDrawn(items, bumps)
    ensures |ps| == |items|
    ensures forall k | 0 <= k < |ps| :: ps[k].id == ProductId(k + 1)
    ensures forall k | 0 <= k < |ps| :: ps[k].originalPrice.Some? && ps[k].originalPrice.value > ps[k].price
    ensures forall k | 0 <= k < |ps| :: items[k].originalPrice > items[k].price ==> ps[k].originalPrice == Some(items[k].originalPrice)
    ensures forall k | 0 <= k < |ps| ::
      ps[k].name == items[k].name && ps[k].price == items[k].price && ps[k].category == items[k].category &&
      ps[k].sales == items[k].sales && ps[k].stock == items[k].stock && ps[k].image == items[k].image
  {
    seq(|items|, k requires 0 <= k < |items| => Finish(k + 1, items[k], bumps[k]))
  }

  /** No two generated products share an id. */
  lemma GeneratedIdsDistinct(items: seq<MockItem>, bumps: seq<int>, i: nat, j: nat)
    requires BumpsDrawn(items, bumps) && i < |items| && j < |items| && i != j
    ensures GenerateProducts(items, bumps)[i].id != GenerateProducts(items, bumps)[j].id
  {
    var ps := GenerateProducts(items, bumps);
    if ps[i].id == ps[j].id {
      ProductIdInjective(i + 1, j + 1);
    }
  }

  /** What every cached catalogue looks like. */
  predicate IsCatalogue(ps: seq<Product>) {
    |ps| == CatalogueSize &&
    (forall k | 0 <= k < |ps| :: ps[k].id == ProductId(k + 1)) &&
    forall k | 0 <= k < |ps| :: ps[k].originalPrice.Some? && ps[k].originalPrice.value > ps[k].price
  }

  // ---------------------------------------------------------------------------------------
  // The list query

  /** The arguments of `mockGetProductList`; an absent field is `undefined`. */
  datatype ListQuery = ListQuery(
    page: int,
    pageSize: int,
    category: Option<string>,
    minPrice: Option<Num>,
    maxPrice: Option<Num>,
    sort: Option<string>)

  datatype ProductPage = ProductPage(list: seq<Product>, total: int, page: int, pageSize: int)

  /** `price >= bound`; every comparison with `NaN` is false. */
  predicate AtLeast(price: int, bound: Num) {
    bound.Finite? && price >= bound.value
  }

  predicate AtMost(price: int, bound: Num) {
    bound.Finite? && price <= bound.value
  }

  /** `Array.prototype.filter`. */
  function Keep(s: seq<Product>, f: Product -> bool): (r: seq<Product>)
    ensures |r| <= |s|
    ensures forall x :: x in r <==> x in s && f(x)
    decreases |s|
  {
    if s == [] then []
    else Keep(s[..|s| - 1], f) + (if f(s[|s| - 1]) then [s[|s| - 1]] else [])
  }

  /** `filter` keeps order: filtering a concatenation concatenates the filtered parts. */
  lemma {:induction false} KeepAppend(a: seq<Product>, b: seq<Product>, f: Product -> bool)
    ensures Keep(a + b, f) == Keep(a, f) + Keep(b, f)
    decreases |b|
  {
    if b == [] {
      assert a + b == a;
    } else {
      var b' := b[..|b| - 1];
      assert (a + b)[..|a + b| - 1] == a + b';
      assert (a + b)[|a + b| - 1] == b[|b| - 1];
      KeepAppend(a, b', f);
    }
  }

  /** `filter` keeps multiplicity: a kept product occurs as often as before, a dropped one not
      at all. */
  lemma {:induction false} KeepCount(s: seq<Product>, f: Product -> bool, x: Product)
    ensures multiset(Keep(s, f))[x] == if f(x) then multiset(s)[x] else 0
    decreases |s|
  {
    if s != [] {
      var init := s[..|s| - 1];
      KeepCount(init, f, x);
      assert s == init + [s[|s| - 1]];
    }
  }

  /** The three filter steps, each applied only when its parameter is given (the category only
      when it is also non-empty). */
  function Filtered(ps: seq<Product>, q: ListQuery): seq<Product> {
    var a := if q.category.Some? && q.category.value != [] then Keep(ps, InCategory(q.category.value)) else ps;
    var b := if q.minPrice.Some? then Keep(a, PricedFrom(q.minPrice.value)) else a;
    if q.maxPrice.Some? then Keep(b, PricedUpTo(q.maxPrice.value)) else b
  }

  /** The callbacks of the three `filter` calls. */
  function InCategory(category: string): Product -> bool {
    (p: Product) => p.category == category
  }

  function PricedFrom(bound: Num): Product -> bool {
    (p: Product) => AtLeast(p.price, bound)
  }

  function PricedUpTo(bound: Num): Product -> bool {
    (p: Product) => AtMost(p.price, bound)
  }

  /** A product passes the query's filters. */
  predicate Matches(p: Product, q: ListQuery) {
    (q.category.None? || q.category.value == [] || p.category == q.category.value) &&
    (q.minPrice.None? || AtLeast(p.price, q.minPrice.value)) &&
    (q.maxPrice.None? || AtMost(p.price, q.maxPrice.value))
  }

  /** The filtered list holds exactly the products that match, both bounds inclusive. */
  lemma FilteredExactly(ps: seq<Product>, q: ListQuery)
    ensures |Filtered(ps, q)| <= |ps|
    ensures forall p :: p in Filtered(ps, q) <==> p in ps && Matches(p, q)
  {
  }

  /** The filtered list keeps the catalogue's order: filtering a concatenation concatenates
      the filtered parts. */
  lemma FilteredAppend(a: seq<Product>, b: seq<Product>, q: ListQuery)
    ensures Filtered(a + b, q) == Filtered(a, q) + Filtered(b, q)
  {
    var a1, b1 := a, b;
    if q.category.Some? && q.category.value != [] {
      KeepAppend(a, b, InCategory(q.category.value));
      a1, b1 := Keep(a, InCategory(q.category.value)), Keep(b, InCategory(q.category.value));
    }
    var a2, b2 := a1, b1;
    if q.minPrice.Some? {
      KeepAppend(a1, b1, PricedFrom(q.minPrice.value));
      a2, b2 := Keep(a1, PricedFrom(q.minPrice.value)), Keep(b1, PricedFrom(q.minPrice.value));
    }
    if q.maxPrice.Some? {
      KeepAppend(a2, b2, PricedUpTo(q.maxPrice.value));
    }
  }

  /** The filtered list keeps multiplicity: a matching product occurs as often as in the
      catalogue, any other not at all. */
  lemma FilteredCount(ps: seq<Product>, q: ListQuery, x: Product)
    ensures multiset(Filtered(ps, q))[x] == if Matches(x, q) then multiset(ps)[x] else 0
  {
    var a := ps;
    if q.category.Some? && q.category.value != [] {
      KeepCount(ps, InCategory(q.category.value), x);
      a := Keep(ps, InCategory(q.category.value));
    }
    var b := a;
    if q.minPrice.Some? {
      KeepCount(a, PricedFrom(q.minPrice.value), x);
      b := Keep(a, PricedFrom(q.minPrice.value));
    }
    if q.maxPrice.Some? {
      KeepCount(b, PricedUpTo(q.maxPrice.value), x);
    }
  }

  /** A query without filters keeps the whole catalogue in its order. */
  lemma UnfilteredKeepsAll(ps: seq<Product>, q: ListQuery)
    requires q.category.None? || q.category == Some([])
    requires q.minPrice.None? && q.maxPrice.None?
    ensures Filtered(ps, q) == ps
  {
  }

  /** The orders `sort` can ask for; any other value leaves the list as filtered. */
  datatype Order = ByPriceAsc | ByPriceDesc | BySalesDesc | Unsorted

  function OrderOf(sort: Option<string>): Order {
    match sort
    case None => Unsorted
    case Some(s) =>
      if s == "price_asc" then ByPriceAsc
      else if s == "price_desc" then ByPriceDesc
      else if s == "sales_desc" then BySalesDesc
      else Unsorted
  }

  /** The comparator `(a, b) => key(a) - key(b)` of each order. */
  function Key(o: Order, p: Product): int {
    match o
    case ByPriceAsc => p.price
    case ByPriceDesc => -p.price
    case BySalesDesc => -p.sales
    case Unsorted => 0
  }

  predicate SortedFor(s: seq<Product>, o: Order) {
    forall x, y | 0 <= x < y < |s| :: Key(o, s[x]) <= Key(o, s[y])
  }

  /** The first `i` entries are in order. */
  predicate SortedPrefix(s: seq<Product>, o: Order, i: nat) {
    i <= |s| && forall x, y | 0 <= x < y < i :: Key(o, s[x]) <= Key(o, s[y])
  }

  /** While entry `i` moves down to `j`: `s[..i + 1]` is in order apart from the entry at `j`,
      which is no greater than anything after it. */
  predicate Sifting(s: seq<Product>, o: Order, i: nat, j: nat) {
    j <= i < |s| &&
    (forall x, y | 0 <= x < y <= i && x != j && y != j :: Key(o, s[x]) <= Key(o, s[y])) &&
    (forall y | j < y <= i :: Key(o, s[j]) <= Key(o, s[y]))
  }

  lemma SiftStart(s: seq<Product>, o: Order, i: nat)
    requires SortedPrefix(s, o, i) && i < |s|
    ensures Sifting(s, o, i, i)
  {
  }

  /** Swapping the moving entry with a greater left neighbour keeps the sifting shape and the
      multiset of entries. */
  lemma SiftSwap(s: seq<Product>, o: Order, i: nat, j: nat)
    requires Sifting(s, o, i, j) && 0 < j && Key(o, s[j - 1]) > Key(o, s[j])
    ensures Sifting(s[j - 1 := s[j]][j := s[j - 1]], o, i, j - 1)
    ensures multiset(s[j - 1 := s[j]][j := s[j - 1]]) == multiset(s)
  {
    var t := s[j - 1 := s[j]][j := s[j - 1]];
    forall x, y | 0 <= x < y <= i && x != j - 1 && y != j - 1
      ensures Key(o, t[x]) <= Key(o, t[y])
    {
      if x == j {
        assert t[x] == s[j - 1] && t[y] == s[y];
      } else if y == j {
        assert t[x] == s[x] && t[y] == s[j - 1];
      } else {
        assert t[x] == s[x] && t[y] == s[y];
      }
    }
  }

  /** Once the moving entry has stopped, `s[..i + 1]` is in order. */
  lemma SiftDone(s: seq<Product>, o: Order, i: nat, j: nat)
    requires Sifting(s, o, i, j) && (j == 0 || Key(o, s[j - 1]) <= Key(o, s[j]))
    ensures SortedPrefix(s, o, i + 1)
  {
    forall x, y | 0 <= x < y < i + 1
      ensures Key(o, s[x]) <= Key(o, s[y])
    {
      if y == j && x < j - 1 {
        assert Key(o, s[x]) <= Key(o, s[j - 1]);
      }
    }
  }

  /** `Array.prototype.sort` with the order's comparator, in place (by adjacent swaps). */
  method SortInPlace(a: array<Product>, o: Order)
    modifies a
    ensures SortedFor(a[..], o)
    ensures multiset(a[..]) == multiset(old(a[..]))
  {
    var i := 0;
    while i < a.Length
      invariant 0 <= i <= a.Length
      invariant SortedPrefix(a[..], o, i)
      invariant multiset(a[..]) == multiset(old(a[..]))
    {
      Sift(a, o, i);
      i := i + 1;
    }
  }

  /** One insertion step: entry `i` moves left past every greater entry. */
  method Sift(a: array<Product>, o: Order, i: nat)
    requires i < a.Length && SortedPrefix(a[..], o, i)
    modifies a
    ensures SortedPrefix(a[..], o, i + 1)
    ensures multiset(a[..]) == multiset(old(a[..]))
  {
    SiftStart(a[..], o, i);
    var j := i;
    while j > 0 && Key(o, a[j - 1]) > Key(o, a[j])
      invariant 0 <= j <= i
      invariant Sifting(a[..], o, i, j)
      invariant multiset(a[..]) == multiset(old(a[..]))
    {
      SiftSwap(a[..], o, i, j);
      SwapDown(a, j);
      j := j - 1;
    }
    SiftDone(a[..], o, i, j);
  }

  /** Exchanges entry `j` with its left neighbour. */
  method SwapDown(a: array<Product>, j: nat)
    requires 0 < j < a.Length
    modifies a
    ensures a[..] == old(a[..])[j - 1 := old(a[j])][j := old(a[j - 1])]
  {
    a[j - 1], a[j] := a[j], a[j - 1];
  }

  /** The sort step of `mockGetProductList`, on the copy it works on. */
  method SortProducts(ps: seq<Product>, o: Order) returns (s: seq<Product>)
    ensures multiset(s) == multiset(ps) && |s| == |ps|
    ensures o == Unsorted ==> s == ps
    ensures o == ByPriceAsc ==> forall x, y | 0 <= x < y < |s| :: s[x].price <= s[y].price
    ensures o == ByPriceDesc ==> forall x, y | 0 <= x < y < |s| :: s[x].price >= s[y].price
    ensures o == BySalesDesc ==> forall x, y | 0 <= x < y < |s| :: s[x].sales >= s[y].sales
    ensures SortedFor(s, o)
  {
    if o == Unsorted {
      return ps;
    }
    var a := new Product[|ps|](k requires 0 <= k < |ps| => ps[k]);
    assert a[..] == ps;
    SortInPlace(a, o);
    s := a[..];
    assert |multiset(s)| == |multiset(ps)|;
  }

  /** Where `slice` puts an index: a negative one counts from the end, and both are clamped to
      the length. */
  function SliceIndex(i: int, len: nat): (r: nat)
    ensures r <= len
    ensures i >= 0 ==> r == Min(i, len)
    ensures i < 0 ==> r == Max(len + i, 0)
  {
    if i < 0 then (if len + i < 0 then 0 else len + i)
    else if i > len then len
    else i
  }

  /** The range `slice(start, end)` takes: never more than `end - start` entries, and for
      non-negative indices the usual clamped range. A negative `end` counts from the end, so
      `slice(0, -1)` drops only the last entry. */
  function SliceBounds(start: int, end: int, len: nat): (b: (nat, nat))
    ensures b.0 <= b.1 <= len
    ensures start <= end ==> b.1 - b.0 <= end - start
    ensures 0 <= start <= end ==> b == (Min(start, len), Min(end, len))
    ensures start >= 0 && end < 0 && start < len + end ==> b == (start, len + end)
  {
    var lo := SliceIndex(start, len);
    var hi := SliceIndex(end, len);
    (lo, if hi < lo then lo else hi)
  }

  function JsSlice(s: seq<Product>, start: int, end: int): seq<Product> {
    var b := SliceBounds(start, end, |s|);
    s[b.0..b.1]
  }

  /** The page `page` of size `pageSize`: `slice((page - 1) * pageSize, start + pageSize)`. */
  function Page(s: seq<Product>, page: int, pageSize: int): (r: seq<Product>)
    ensures pageSize >= 0 ==> |r| <= pageSize
    ensures multiset(r) <= multiset(s)
  {
    var start := (page - 1) * pageSize;
    var b := SliceBounds(start, start + pageSize, |s|);
    assert s == s[..b.0] + s[b.0..b.1] + s[b.1..];
    JsSlice(s, start, start + pageSize)
  }

  /** The number of entries on the first `n` pages. */
  function Upto(n: nat, pageSize: nat): nat {
    n * pageSize
  }

  /** From page 1 on, with a non-negative size, a page is the clamped range
      `[(page - 1) * pageSize, page * pageSize)`. */
  lemma PageRange(s: seq<Product>, page: nat, pageSize: nat)
    requires page >= 1
    ensures Upto(page - 1, pageSize) + pageSize == Upto(page, pageSize)
    ensures Page(s, page, pageSize) == s[Min(Upto(page - 1, pageSize), |s|)..Min(Upto(page, pageSize), |s|)]
  {
    var start := (page - 1) * pageSize;
    assert start == Upto(page - 1, pageSize);
    assert start + pageSize == page * pageSize;
  }

  function Pages(s: seq<Product>, pageSize: nat, n: nat): seq<Product>
    decreases n
  {
    if n == 0 then [] else Pages(s, pageSize, n - 1) + Page(s, n, pageSize)
  }

  /** Pages 1 to `n`, one after the other, are the first `n * pageSize` entries: paging neither
      skips nor repeats a product. */
  lemma {:induction false} PagesTile(s: seq<Product>, pageSize: nat, n: nat)
    ensures Pages(s, pageSize, n) == s[..Min(Upto(n, pageSize), |s|)]
    decreases n
  {
    if n == 0 {
      PagesNone(s, pageSize);
    } else {
      PagesTile(s, pageSize, n - 1);
      PagesStep(s, pageSize, n);
    }
  }

  lemma PagesNone(s: seq<Product>, pageSize: nat)
    ensures Pages(s, pageSize, 0) == s[..Min(Upto(0, pageSize), |s|)]
  {
    assert Upto(0, pageSize) == 0;
  }

  lemma PagesStep(s: seq<Product>, pageSize: nat, n: nat)
    requires n > 0 && Pages(s, pageSize, n - 1) == s[..Min(Upto(n - 1, pageSize), |s|)]
    ensures Pages(s, pageSize, n) == s[..Min(Upto(n, pageSize), |s|)]
  {
    PageRange(s, n, pageSize);
    PrefixThenSlice(s, Min(Upto(n - 1, pageSize), |s|), Min(Upto(n, pageSize), |s|));
  }

  lemma PrefixThenSlice(s: seq<Product>, lo: nat, hi: nat)
    requires lo <= hi <= |s|
    ensures s[..lo] + s[lo..hi] == s[..hi]
  {
  }

  /** The pager's page count pages through the whole list: pages 1 to `ceil(total / pageSize)`,
      one after the other, are the list itself. */
  lemma PagerPagesCoverList(s: seq<Product>, pageSize: nat)
    requires pageSize > 0
    ensures Pagination.TotalPages(|s|, pageSize) >= 0
    ensures Pages(s, pageSize, Pagination.TotalPages(|s|, pageSize)) == s
  {
    var n := Pagination.TotalPages(|s|, pageSize);
    PositiveFactor(n, pageSize);
    PagesTile(s, pageSize, n);
    assert Upto(n, pageSize) >= |s|;
    assert s[..|s|] == s;
  }

  lemma PositiveFactor(n: int, b: int)
    requires b > 0 && n * b >= 0
    ensures n >= 0
  {
  }

  /** One page of the query: the filtered list in some order the query allows, cut by `slice`.
      Stable sorting is not stated (see README). */
  ghost predicate ListedPage(f: seq<Product>, q: ListQuery, r: ProductPage) {
    r.total == |f| && r.page == q.page && r.pageSize == q.pageSize &&
    exists s :: multiset(s) == multiset(f) && SortedFor(s, OrderOf(q.sort)) &&
      (OrderOf(q.sort) == Unsorted ==> s == f) && r.list == Page(s, q.page, q.pageSize)
  }

  /** What a page promises: at most `pageSize` products, each matching the query, and `total`
      counts all matching products before paging. */
  lemma ListedPageFacts(ps: seq<Product>, q: ListQuery, r: ProductPage)
    requires ListedPage(Filtered(ps, q), q, r)
    ensures q.pageSize >= 0 ==> |r.list| <= q.pageSize
    ensures forall p | p in r.list :: p in ps && Matches(p, q)
    ensures r.total == |Filtered(ps, q)|
  {
    var f := Filtered(ps, q);
    var s :| multiset(s) == multiset(f) && SortedFor(s, OrderOf(q.sort)) &&
      (OrderOf(q.sort) == Unsorted ==> s == f) && r.list == Page(s, q.page, q.pageSize);
    assert multiset(r.list) <= multiset(f);
    FilteredExactly(ps, q);
    forall p | p in r.list ensures p in ps && Matches(p, q) {
      assert p in multiset(r.list);
      assert p in f;
    }
  }

  // ---------------------------------------------------------------------------------------
  // The detail enrichment

  /** The random draws of one `generateProductDetail` call: whether there are specs at all,
      the colour and size coins, the shuffled palettes and how many of each are offered, the
      price change and stock of the `k`-th SKU, the extra images and the description. */
  datatype DetailDraws = DetailDraws(
    hasSpecs: bool,
    hasColour: bool,
    colourOrder: seq<string>,
    colourCount: nat,
    hasSize: bool,
    sizeOrder: seq<string>,
    sizeCount: nat,
    priceDelta: nat -> int,
    skuStock: nat -> int,
    extraImages: seq<string>,
    detailDescription: string)

  /** The ranges Mock.js draws from. */
  ghost predicate WellDrawn(d: DetailDraws) {
    multiset(d.colourOrder) == multiset(Colours) && 2 <= d.colourCount <= 4 &&
    multiset(d.sizeOrder) == multiset(Sizes) && 2 <= d.sizeCount <= 4 &&
    (forall k: nat :: -50 <= d.priceDelta(k) <= 50) &&
    (forall k: nat :: 10 <= d.skuStock(k) <= 200) &&
    3 <= |d.extraImages| <= 6
  }

  lemma DrawnLengths(d: DetailDraws)
    requires WellDrawn(d)
    ensures |d.colourOrder| == 6 && |d.sizeOrder| == 5
  {
    assert |multiset(d.colourOrder)| == |multiset(Colours)|;
    assert |multiset(d.sizeOrder)| == |multiset(Sizes)|;
  }

  /** The specs pushed: a colour spec on heads, then a size spec on heads or when there is
      no colour spec. */
  function DrawnSpecs(d: DetailDraws): (specs: seq<ProductSpec>) {
    var colour := if d.hasColour then [ProductSpec(ColourSpec, OfferedColours(d))] else [];
    colour + (if d.hasSize || colour == [] then [ProductSpec(SizeSpec, OfferedSizes(d))] else [])
  }

  /** `values.slice(0, count)`. */
  function Offered(values: seq<string>, count: nat): seq<string> {
    values[..if count < |values| then count else |values|]
  }

  function OfferedColours(d: DetailDraws): seq<string> {
    Offered(d.colourOrder, d.colourCount)
  }

  function OfferedSizes(d: DetailDraws): seq<string> {
    Offered(d.sizeOrder, d.sizeCount)
  }

  /** `specs.find(s => s.name === name)?.values || ['']`. */
  function SpecValues(specs: seq<ProductSpec>, name: string): seq<string>
    decreases |specs|
  {
    if specs == [] then [""]
    else if specs[0].name == name then specs[0].values
    else SpecValues(specs[1..], name)
  }

  /** The record `{...(colour && {颜色: colour}), ...(size && {尺寸: size})}`. */
  function SkuSpecs(colour: string, size: string): map<string, string> {
    (if colour != [] then map[ColourSpec := colour] else map[]) +
    (if size != [] then map[SizeSpec := size] else map[])
  }

  function MakeSku(p: Product, colour: string, size: string, delta: int, stock: int): ProductSku {
    ProductSku("sku_" + p.id + "_" + colour + "_" + size, SkuSpecs(colour, size),
      Max(SkuPriceFloor, p.price + delta), stock, None)
  }

  /** The SKUs one colour contributes; `base` is the number of SKUs pushed before. */
  function Row(p: Product, colour: string, sv: seq<string>, base: nat, delta: nat -> int, stock: nat -> int): (r: seq<ProductSku>)
    ensures |r| == |sv|
    ensures forall j | 0 <= j < |sv| :: r[j] == MakeSku(p, colour, sv[j], delta(base + j), stock(base + j))
  {
    seq(|sv|, j requires 0 <= j < |sv| => MakeSku(p, colour, sv[j], delta(base + j), stock(base + j)))
  }

  /** The SKUs of the nested `forEach`, colour by colour. */
  function Skus(p: Product, cv: seq<string>, sv: seq<string>, delta: nat -> int, stock: nat -> int): (r: seq<ProductSku>)
    decreases |cv|
  {
    if cv == [] then []
    else Skus(p, cv[..|cv| - 1], sv, delta, stock) + Row(p, cv[|cv| - 1], sv, (|cv| - 1) * |sv|, delta, stock)
  }

  lemma {:induction false} SkusLength(p: Product, cv: seq<string>, sv: seq<string>, delta: nat -> int, stock: nat -> int)
    ensures |Skus(p, cv, sv, delta, stock)| == |cv| * |sv|
    decreases |cv|
  {
    if cv != [] {
      SkusLength(p, cv[..|cv| - 1], sv, delta, stock);
      assert (|cv| - 1) * |sv| + |sv| == |cv| * |sv|;
    }
  }

  lemma MulStep(i: nat, n: nat, m: nat, j: nat)
    requires i < n && j < m
    ensures i * m + j < n * m
  {
    assert i * m + j < i * m + m == (i + 1) * m;
    assert (i + 1) * m <= n * m;
  }

  /** The SKU of colour `i` and size `j` sits at position `i * |sv| + j`. */
  lemma {:induction false} SkuAt(p: Product, cv: seq<string>, sv: seq<string>, delta: nat -> int, stock: nat -> int, i: nat, j: nat)
    requires i < |cv| && j < |sv|
    ensures i * |sv| + j < |Skus(p, cv, sv, delta, stock)|
    ensures Skus(p, cv, sv, delta, stock)[i * |sv| + j] ==
      MakeSku(p, cv[i], sv[j], delta(i * |sv| + j), stock(i * |sv| + j))
    decreases |cv|
  {
    var n := |cv|;
    var m := |sv|;
    var init := cv[..n - 1];
    SkusLength(p, cv, sv, delta, stock);
    SkusLength(p, init, sv, delta, stock);
    MulStep(i, n, m, j);
    if i < n - 1 {
      SkuAt(p, init, sv, delta, stock, i, j);
      MulStep(i, n - 1, m, j);
    } else {
      assert i * m + j == (n - 1) * m + j;
    }
  }

  /** Every SKU is the one of some colour `i` and some size `j`: the SKUs are exactly the
      cartesian product. */
  lemma {:induction false} SkuIsPair(p: Product, cv: seq<string>, sv: seq<string>, delta: nat -> int, stock: nat -> int, k: nat)
      returns (i: nat, j: nat)
    requires k < |Skus(p, cv, sv, delta, stock)|
    ensures i < |cv| && j < |sv| && k == i * |sv| + j
    ensures Skus(p, cv, sv, delta, stock)[k] == MakeSku(p, cv[i], sv[j], delta(k), stock(k))
    decreases |cv|
  {
    var n := |cv|;
    var m := |sv|;
    var init := cv[..n - 1];
    var base := (n - 1) * m;
    SkusLength(p, init, sv, delta, stock);
    SkusLength(p, cv, sv, delta, stock);
    assert Skus(p, cv, sv, delta, stock) == Skus(p, init, sv, delta, stock) + Row(p, cv[n - 1], sv, base, delta, stock);
    if k < base {
      i, j := SkuIsPair(p, init, sv, delta, stock, k);
      assert init[i] == cv[i];
    } else {
      assert base + m == n * m;
      i, j := n - 1, k - base;
    }
  }

  /** The nested `forEach` that pushes the SKUs. */
  method BuildSkus(p: Product, cv: seq<string>, sv: seq<string>, delta: nat -> int, stock: nat -> int) returns (skus: seq<ProductSku>)
    ensures skus == Skus(p, cv, sv, delta, stock)
  {
    skus := [];
    var ci := 0;
    while ci < |cv|
      invariant 0 <= ci <= |cv|
      invariant skus == Skus(p, cv[..ci], sv, delta, stock)
    {
      skus := PushRow(skus, p, cv[ci], sv, ci * |sv|, delta, stock);
      assert cv[..ci + 1][..ci] == cv[..ci];
      ci := ci + 1;
    }
    assert cv[..ci] == cv;
  }

  /** The inner `forEach`: one SKU per size of the colour. */
  method PushRow(prefix: seq<ProductSku>, p: Product, colour: string, sv: seq<string>, base: nat,
                 delta: nat -> int, stock: nat -> int) returns (skus: seq<ProductSku>)
    ensures skus == prefix + Row(p, colour, sv, base, delta, stock)
  {
    ghost var row := Row(p, colour, sv, base, delta, stock);
    skus := prefix;
    var si := 0;
    while si < |sv|
      invariant 0 <= si <= |sv|
      invariant skus == prefix + row[..si]
    {
      assert row[..si + 1] == row[..si] + [row[si]];
      skus := skus + [MakeSku(p, colour, sv[si], delta(base + si), stock(base + si))];
      si := si + 1;
    }
    assert row[..si] == row;
  }

  /** The sum `skus.reduce((sum, sku) => sum + sku.stock, 0)`. */
  function StockSum(skus: seq<ProductSku>): int
    decreases |skus|
  {
    if skus == [] then 0 else StockSum(skus[..|skus| - 1]) + skus[|skus| - 1].stock
  }

  lemma {:induction false} StockSumBounds(skus: seq<ProductSku>, lo: int, hi: int)
    requires forall k | 0 <= k < |skus| :: lo <= skus[k].stock <= hi
    ensures lo * |skus| <= StockSum(skus) <= hi * |skus|
    decreases |skus|
  {
    if skus != [] {
      StockSumBounds(skus[..|skus| - 1], lo, hi);
    }
  }

  /** The values the SKU loops run over. */
  function ColourValuesOf(d: DetailDraws): seq<string>
  {
    SpecValues(DrawnSpecs(d), ColourSpec)
  }

  function SizeValuesOf(d: DetailDraws): seq<string>
  {
    SpecValues(DrawnSpecs(d), SizeSpec)
  }

  function DrawnSkus(p: Product, d: DetailDraws): seq<ProductSku>
  {
    Skus(p, ColourValuesOf(d), SizeValuesOf(d), d.priceDelta, d.skuStock)
  }

  /** The product `generateProductDetail` returns. */
  function Enriched(p: Product, d: DetailDraws): Product
  {
    var q := if d.hasSpecs then p.(stock := StockSum(DrawnSkus(p, d)), specs := Some(DrawnSpecs(d)), skus := Some(DrawnSkus(p, d))) else p;
    q.(images := Some([p.image] + d.extraImages), detailDescription := Some(d.detailDescription))
  }

  /** `generateProductDetail` on a copy of `p`: pushes the specs, fills the SKUs, and sets
      stock, specs, SKUs, images and description. */
  method GenerateProductDetail(p: Product, d: DetailDraws) returns (q: Product)
    ensures q == Enriched(p, d)
  {
    q := p;
    if d.hasSpecs {
      var specs: seq<ProductSpec> := [];
      if d.hasColour {
        specs := specs + [ProductSpec(ColourSpec, OfferedColours(d))];
      }
      if d.hasSize || |specs| == 0 {
        specs := specs + [ProductSpec(SizeSpec, OfferedSizes(d))];
      }
      assert specs == DrawnSpecs(d);
      var skus := BuildSkus(p, SpecValues(specs, ColourSpec), SpecValues(specs, SizeSpec), d.priceDelta, d.skuStock);
      q := q.(stock := StockSum(skus), specs := Some(specs), skus := Some(skus));
    }
    q := q.(images := Some([p.image] + d.extraImages), detailDescription := Some(d.detailDescription));
  }

  /** The images are the main image followed by the 3 to 6 drawn detail images. */
  lemma EnrichedImages(p: Product, d: DetailDraws)
    requires WellDrawn(d)
    ensures var q := Enriched(p, d);
      q.images.Some? && 4 <= |q.images.value| <= 7 && q.images.value[0] == p.image &&
      q.images.value[1..] == d.extraImages
  {
  }

  /** Without specs only the images and the description change. */
  lemma EnrichedWithoutSpecs(p: Product, d: DetailDraws)
    requires !d.hasSpecs
    ensures Enriched(p, d) == p.(images := Some([p.image] + d.extraImages), detailDescription := Some(d.detailDescription))
  {
  }

  /** With specs there are one or two of them, colour first, each offering two to four values
      of its palette. */
  lemma EnrichedSpecs(p: Product, d: DetailDraws)
    requires WellDrawn(d) && d.hasSpecs
    ensures var specs := Enriched(p, d).specs;
      specs.Some? && 1 <= |specs.value| <= 2 &&
      (d.hasColour <==> specs.value[0].name == ColourSpec) &&
      (forall s | s in specs.value :: s.name == ColourSpec || s.name == SizeSpec) &&
      (forall s | s in specs.value :: 2 <= |s.values| <= 4)
  {
    EnrichedParts(p, d);
    OfferedLengths(d);
    DrawnSpecsShape(d);
  }

  lemma OfferedLengths(d: DetailDraws)
    requires WellDrawn(d)
    ensures 2 <= |OfferedColours(d)| <= 4 && 2 <= |OfferedSizes(d)| <= 4
  {
    DrawnLengths(d);
    OfferedLength(d.colourOrder, d.colourCount);
    OfferedLength(d.sizeOrder, d.sizeCount);
  }

  lemma OfferedLength(values: seq<string>, count: nat)
    requires count <= |values|
    ensures |Offered(values, count)| == count
  {
  }

  lemma DrawnSpecsShape(d: DetailDraws)
    requires 2 <= |OfferedColours(d)| <= 4 && 2 <= |OfferedSizes(d)| <= 4
    ensures var specs := DrawnSpecs(d);
      1 <= |specs| <= 2 &&
      (d.hasColour <==> specs[0].name == ColourSpec) &&
      (forall s | s in specs :: s.name == ColourSpec || s.name == SizeSpec) &&
      (forall s | s in specs :: 2 <= |s.values| <= 4)
  {
    assert ColourSpec[0] != SizeSpec[0];
  }

  /** The values a spec offers are palette entries, so never empty. */
  lemma PaletteValues(d: DetailDraws)
    requires WellDrawn(d)
    ensures forall c | c in OfferedColours(d) :: c in Colours && c != []
    ensures forall s | s in OfferedSizes(d) :: s in Sizes && s != []
  {
    PalettesNonEmpty();
    OfferedFromPalette(d.colourOrder, d.colourCount, Colours);
    OfferedFromPalette(d.sizeOrder, d.sizeCount, Sizes);
  }

  lemma OfferedFromPalette(values: seq<string>, count: nat, palette: seq<string>)
    requires multiset(values) == multiset(palette)
    requires forall c | c in palette :: c != []
    ensures forall c | c in Offered(values, count) :: c in palette && c != []
  {
    forall c | c in Offered(values, count) ensures c in palette {
      assert c in values;
      assert c in multiset(values);
    }
  }

  lemma PalettesNonEmpty()
    ensures forall c | c in Colours :: c != []
    ensures forall s | s in Sizes :: s != []
  {
  }

  /** The colour values the SKU loops run over are the offered colours, or the one empty value;
      likewise the sizes. */
  lemma DimensionValues(d: DetailDraws)
    ensures ColourValuesOf(d) == if d.hasColour then OfferedColours(d) else [""]
    ensures SizeValuesOf(d) == if d.hasSize || !d.hasColour then OfferedSizes(d) else [""]
  {
    var specs := DrawnSpecs(d);
    assert ColourSpec[0] != SizeSpec[0];
    var colour := ProductSpec(ColourSpec, OfferedColours(d));
    var size := ProductSpec(SizeSpec, OfferedSizes(d));
    if d.hasColour && d.hasSize {
      assert specs == [colour, size];
      assert specs[1..] == [size];
      assert SpecValues(specs[1..], SizeSpec) == size.values;
    } else if d.hasColour {
      assert specs == [colour];
      assert SpecValues(specs[1..], SizeSpec) == [""];
    } else {
      assert specs == [size];
      assert SpecValues(specs[1..], ColourSpec) == [""];
    }
  }

  /** A SKU record has the colour key exactly for a non-empty colour, the size key exactly for
      a non-empty size, and no other key. */
  lemma SkuSpecsKeys(colour: string, size: string)
    ensures ColourSpec in SkuSpecs(colour, size) <==> colour != []
    ensures SizeSpec in SkuSpecs(colour, size) <==> size != []
    ensures SkuSpecs(colour, size).Keys <= {ColourSpec, SizeSpec}
  {
    assert ColourSpec[0] != SizeSpec[0];
  }

  /** The fields the enrichment sets when there are specs. */
  lemma EnrichedParts(p: Product, d: DetailDraws)
    requires WellDrawn(d) && d.hasSpecs
    ensures Enriched(p, d).skus == Some(DrawnSkus(p, d))
    ensures Enriched(p, d).specs == Some(DrawnSpecs(d))
    ensures Enriched(p, d).stock == StockSum(DrawnSkus(p, d))
  {
  }

  /** Each SKU's record names a dimension exactly when that dimension was drawn: an absent
      dimension contributes the empty value and no key. */
  lemma SkuKeys(p: Product, d: DetailDraws, k: nat)
    requires WellDrawn(d) && d.hasSpecs
    requires k < |DrawnSkus(p, d)|
    ensures var sku := DrawnSkus(p, d)[k];
      (ColourSpec in sku.specs <==> d.hasColour) && (SizeSpec in sku.specs <==> d.hasSize || !d.hasColour) &&
      sku.specs.Keys <= {ColourSpec, SizeSpec}
  {
    PaletteValues(d);
    SkuKeysOfOffers(p, d, k);
  }

  lemma SkuKeysOfOffers(p: Product, d: DetailDraws, k: nat)
    requires forall c | c in OfferedColours(d) :: c != []
    requires forall s | s in OfferedSizes(d) :: s != []
    requires k < |DrawnSkus(p, d)|
    ensures var sku := DrawnSkus(p, d)[k];
      (ColourSpec in sku.specs <==> d.hasColour) && (SizeSpec in sku.specs <==> d.hasSize || !d.hasColour) &&
      sku.specs.Keys <= {ColourSpec, SizeSpec}
  {
    var cv := ColourValuesOf(d);
    var sv := SizeValuesOf(d);
    DimensionValues(d);
    var i, j := SkuIsPair(p, cv, sv, d.priceDelta, d.skuStock, k);
    assert DrawnSkus(p, d)[k].specs == SkuSpecs(cv[i], sv[j]);
    SkuSpecsKeys(cv[i], sv[j]);
    assert cv[i] != [] <==> d.hasColour by {
      if d.hasColour {
        assert cv[i] in OfferedColours(d);
      }
    }
    assert sv[j] != [] <==> d.hasSize || !d.hasColour by {
      if d.hasSize || !d.hasColour {
        assert sv[j] in OfferedSizes(d);
      }
    }
  }

  /** The SKU grid has one SKU per colour and size, each priced at least the floor and within 50
      of the product price, with stock 10 to 200; the product stock is their sum. */
  lemma EnrichedSkus(p: Product, d: DetailDraws)
    requires WellDrawn(d) && d.hasSpecs
    ensures var q := Enriched(p, d);
      q.skus.Some? && |q.skus.value| == |ColourValuesOf(d)| * |SizeValuesOf(d)| &&
      (forall k | 0 <= k < |q.skus.value| ::
        SkuPriceFloor <= q.skus.value[k].price && p.price - 50 <= q.skus.value[k].price <= Max(SkuPriceFloor, p.price + 50)) &&
      (forall k | 0 <= k < |q.skus.value| :: 10 <= q.skus.value[k].stock <= 200) &&
      q.stock == StockSum(q.skus.value) && 10 * |q.skus.value| <= q.stock <= 200 * |q.skus.value|
  {
    var skus := DrawnSkus(p, d);
    EnrichedParts(p, d);
    SkusLength(p, ColourValuesOf(d), SizeValuesOf(d), d.priceDelta, d.skuStock);
    SkusBounds(p, ColourValuesOf(d), SizeValuesOf(d), d.priceDelta, d.skuStock);
    StockSumBounds(skus, 10, 200);
  }

  /** With price changes within 50 and stocks of 10 to 200, every SKU is priced at least the
      floor and within 50 of the product price, with stock 10 to 200. */
  lemma SkusBounds(p: Product, cv: seq<string>, sv: seq<string>, delta: nat -> int, stock: nat -> int)
    requires forall k: nat :: -50 <= delta(k) <= 50
    requires forall k: nat :: 10 <= stock(k) <= 200
    ensures var skus := Skus(p, cv, sv, delta, stock);
      (forall k | 0 <= k < |skus| ::
        SkuPriceFloor <= skus[k].price && p.price - 50 <= skus[k].price <= Max(SkuPriceFloor, p.price + 50)) &&
      (forall k | 0 <= k < |skus| :: 10 <= skus[k].stock <= 200)
  {
    var skus := Skus(p, cv, sv, delta, stock);
    forall k | 0 <= k < |skus|
      ensures SkuPriceFloor <= skus[k].price && p.price - 50 <= skus[k].price <= Max(SkuPriceFloor, p.price + 50)
      ensures 10 <= skus[k].stock <= 200
    {
      var i, j := SkuIsPair(p, cv, sv, delta, stock, k);
    }
  }

  /** For every colour `i` and size `j` there is a SKU, at `i * |sizes| + j`, with that id and
      record. */
  lemma EnrichedSkuOfPair(p: Product, d: DetailDraws, i: nat, j: nat)
    requires d.hasSpecs
    requires i < |ColourValuesOf(d)| && j < |SizeValuesOf(d)|
    ensures i * |SizeValuesOf(d)| + j < |DrawnSkus(p, d)|
    ensures DrawnSkus(p, d)[i * |SizeValuesOf(d)| + j].specs == SkuSpecs(ColourValuesOf(d)[i], SizeValuesOf(d)[j])
    ensures DrawnSkus(p, d)[i * |SizeValuesOf(d)| + j].id == "sku_" + p.id + "_" + ColourValuesOf(d)[i] + "_" + SizeValuesOf(d)[j]
  {
    SkuAt(p, ColourValuesOf(d), SizeValuesOf(d), d.priceDelta, d.skuStock, i, j);
  }

  /** The enrichment keeps the product's own data. */
  lemma EnrichedKeepsIdentity(p: Product, d: DetailDraws)
    ensures var q := Enriched(p, d);
      q.id == p.id && q.name == p.name && q.price == p.price && q.originalPrice == p.originalPrice &&
      q.image == p.image && q.category == p.category && q.sales == p.sales && q.description == p.description
  {
  }

  /** `allProducts.find(p => p.id === id)`, as the index of the first match. */
  function FindProduct(ps: seq<Product>, id: string): (r: Option<nat>)
    ensures r.Some? ==> r.value < |ps| && ps[r.value].id == id && forall k | 0 <= k < r.value :: ps[k].id != id
    ensures r.None? ==> forall k | 0 <= k < |ps| :: ps[k].id != id
    decreases |ps|
  {
    if ps == [] then None
    else if ps[0].id == id then Some(0)
    else
      match FindProduct(ps[1..], id)
      case None => None
      case Some(k) => Some(k + 1)
  }

  /** In the generated catalogue the product `product_<n>` is entry `n - 1`, for `n` from 1 to
      150 (`CatalogueMisses` covers every other id). */
  lemma CatalogueLookup(ps: seq<Product>, n: nat)
    requires IsCatalogue(ps) && 1 <= n <= CatalogueSize
    ensures FindProduct(ps, ProductId(n)) == Some(n - 1)
  {
    var r := FindProduct(ps, ProductId(n));
    assert ps[n - 1].id == ProductId(n);
    if r.Some? && r.value != n - 1 {
      ProductIdInjective(r.value + 1, n);
    }
  }

  /** In the generated catalogue an id that is not `product_<n>` for `n` from 1 to 150 is not
      found. */
  lemma CatalogueMisses(ps: seq<Product>, id: string)
    requires IsCatalogue(ps)
    requires forall n: nat | 1 <= n <= CatalogueSize :: ProductId(n) != id
    ensures FindProduct(ps, id).None?
  {
  }

  /** The module state `cachedProducts`, with the queries that read it. */
  class ProductStore {
    var cached: Option<seq<Product>>

    predicate Valid()
      reads this
    {
      cached.Some? ==> IsCatalogue(cached.value)
    }

    constructor()
      ensures cached == None && Valid()
    {
      cached := None;
    }

    /** `getAllProducts`: the catalogue is generated on the first call only. */
    method GetAllProducts(items: seq<MockItem>, bumps: seq<int>) returns (ps: seq<Product>)
      requires Valid() && |items| == CatalogueSize && BumpsDrawn(items, bumps)
      modifies this`cached
      ensures Valid() && cached == Some(ps)
      ensures old(cached).Some? ==> ps == old(cached).value
      ensures old(cached).None? ==> ps == GenerateProducts(items, bumps)
    {
      if cached.None? {
        cached := Some(GenerateProducts(items, bumps));
      }
      ps := cached.value;
    }

    /** `mockGetProductList` without the delay: filters, sorts and pages a copy, so the cached
        catalogue keeps its order. */
    method GetProductList(q: ListQuery, items: seq<MockItem>, bumps: seq<int>) returns (r: ProductPage)
      requires Valid() && |items| == CatalogueSize && BumpsDrawn(items, bumps)
      modifies this`cached
      ensures Valid() && cached.Some?
      ensures old(cached).Some? ==> cached == old(cached)
      ensures old(cached).None? ==> cached == Some(GenerateProducts(items, bumps))
      ensures ListedPage(Filtered(cached.value, q), q, r)
    {
      var all := GetAllProducts(items, bumps);
      var f := Filtered(all, q);
      var s := SortProducts(f, OrderOf(q.sort));
      r := ProductPage(Page(s, q.page, q.pageSize), |s|, q.page, q.pageSize);
    }

    /** `mockGetProductDetail` without the delay: an unknown id fails with `Product not found`;
        a known one is enriched on a copy, leaving the cache as it was. */
    method GetProductDetail(id: string, items: seq<MockItem>, bumps: seq<int>, d: DetailDraws) returns (r: Result<Product, string>)
      requires Valid() && |items| == CatalogueSize && BumpsDrawn(items, bumps)
      modifies this`cached
      ensures Valid() && cached.Some?
      ensures old(cached).Some? ==> cached == old(cached)
      ensures old(cached).None? ==> cached == Some(GenerateProducts(items, bumps))
      ensures FindProduct(cached.value, id).None? ==> r == Failure(NotFound)
      ensures FindProduct(cached.value, id).Some? ==> r == Success(Enriched(cached.value[FindProduct(cached.value, id).value], d))
    {
      var all := GetAllProducts(items, bumps);
      var found := FindProduct(all, id);
      if found.None? {
        return Failure(NotFound);
      }
      var p := GenerateProductDetail(all[found.value], d);
      r := Success(p);
    }
  }
}

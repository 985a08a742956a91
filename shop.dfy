/** The product listing of the shop page: the filter predicate, the five sort
    orders, the creation-time fallback read from an ObjectId, pagination, the
    derived price bounds, the category list, the active-filter count and the
    callback that merges a filter-panel update into the page's filters.
    Everything here is a pure function of the product list and the filters. */
module Shop {
  import opened Common
  import opened Catalog

  const PAGE_SIZE: int := 20
  const PRICE_CAP: int := 200000

  /** The page's filter state: `priceRange` is `[lo, hi]`. */
  datatype Filters = Filters(lo: real, hi: real, category: string, inStock: bool, sortBy: string)

  const INITIAL_FILTERS: Filters := Filters(0.0, 200000.0, "all", false, "name")

  // ===========================================================================
  // Filtering

  /** A missing price fails both range comparisons; `inStock` only excludes a
      product whose flag is literally `false`. */
  predicate Matches(f: Filters, p: Product)
  {
    && p.price.Some? && f.lo <= p.price.value <= f.hi
    && (f.category == "all" || p.category == Some(f.category))
    && (f.inStock ==> p.inStock != Some(false))
  }

  /** `products.filter(...)`: exactly the matching products, each as often as
      in the input, in input order. */
  function FilterProducts(f: Filters, ps: seq<Product>): (r: seq<Product>)
    ensures |r| <= |ps|
    ensures forall p :: p in r ==> Matches(f, p)
    ensures forall p :: multiset(r)[p] == if Matches(f, p) then multiset(ps)[p] else 0
  {
    if ps == [] then []
    else
      assert ps == [ps[0]] + ps[1..];
      (if Matches(f, ps[0]) then [ps[0]] else []) + FilterProducts(f, ps[1..])
  }

  // ===========================================================================
  // Sorting

  datatype SortKey = ByName | ByNameDesc | ByPriceAsc | ByPriceDesc | Newest | Unordered

  /** `filters.sortBy || 'name'` followed by the comparator's `switch`; an
      unknown key falls to the `default` case, which compares everything equal. */
  function KeyOf(sortBy: string): SortKey
  {
    if sortBy == "" || sortBy == "name" then ByName
    else if sortBy == "name-desc" then ByNameDesc
    else if sortBy == "price-asc" then ByPriceAsc
    else if sortBy == "price-desc" then ByPriceDesc
    else if sortBy == "newest" then Newest
    else Unordered
  }

  /** `p.price || 0`. */
  function PriceOrZero(p: Product): real
  {
    if p.price.Some? then p.price.value else 0.0
  }

  function SignOf(x: real): int
  {
    if x < 0.0 then -1 else if x > 0.0 then 1 else 0
  }

  /** The sign of the page's comparator: negative puts `a` first. */
  function Compare(k: SortKey, a: Product, b: Product): (r: int)
    ensures -1 <= r <= 1
  {
    match k
    case ByName => LexCompare(a.name, b.name)
    case ByNameDesc => LexCompare(b.name, a.name)
    case ByPriceAsc => SignOf(PriceOrZero(a) - PriceOrZero(b))
    case ByPriceDesc => SignOf(PriceOrZero(b) - PriceOrZero(a))
    case Newest => SignOf((CreatedTime(b) - CreatedTime(a)) as real)
    case Unordered => 0
  }

  /** Every comparator is antisymmetric in sign ... */
  lemma CompareFlip(k: SortKey, a: Product, b: Product)
    ensures Compare(k, a, b) == -Compare(k, b, a)
  {
    match k
    case ByName => LexCompareFlip(a.name, b.name);
    case ByNameDesc => LexCompareFlip(b.name, a.name);
    case _ =>
  }

  /** ... and transitive, so each key is a total preorder on products. */
  lemma CompareTransitive(k: SortKey, a: Product, b: Product, c: Product)
    requires Compare(k, a, b) <= 0 && Compare(k, b, c) <= 0
    ensures Compare(k, a, c) <= 0
  {
    match k
    case ByName => LexCompareTransitive(a.name, b.name, c.name);
    case ByNameDesc => LexCompareTransitive(c.name, b.name, a.name);
    case _ =>
  }

  /** A comparator as `Array.prototype.sort` takes one: a negative result
      puts the first argument first. */
  type Comparator = (Product, Product) -> int

  /** The page's comparator for a sort key. */
  function By(k: SortKey): Comparator
  {
    (a, b) => Compare(k, a, b)
  }

  /** A comparator that is antisymmetric in sign and transitive orders its
      arguments as a total preorder. */
  ghost predicate Preorder(cmp: Comparator)
  {
    && (forall a, b :: cmp(a, b) == -cmp(b, a))
    && (forall a, b, c :: cmp(a, b) <= 0 && cmp(b, c) <= 0 ==> cmp(a, c) <= 0)
  }

  /** Every key of the page gives such a comparator. */
  lemma ByPreorder(k: SortKey)
    ensures Preorder(By(k))
  {
    forall a, b ensures By(k)(a, b) == -By(k)(b, a) {
      CompareFlip(k, a, b);
    }
    forall a, b, c | By(k)(a, b) <= 0 && By(k)(b, c) <= 0 ensures By(k)(a, c) <= 0 {
      CompareTransitive(k, a, b, c);
    }
  }

  ghost predicate SortedBy(cmp: Comparator, s: seq<Product>)
  {
    forall i, j :: 0 <= i < j < |s| ==> cmp(s[i], s[j]) <= 0
  }

  /** One step of a stable insertion sort: `x` goes after every element that
      does not compare greater than it. */
  function Insert(cmp: Comparator, x: Product, s: seq<Product>): (r: seq<Product>)
    ensures |r| == |s| + 1
    ensures multiset(r) == multiset(s) + multiset{x}
  {
    if s == [] then [x]
    else if cmp(s[0], x) > 0 then [x] + s
    else
      assert s == [s[0]] + s[1..];
      [s[0]] + Insert(cmp, x, s[1..])
  }

  /** `[...list].sort(comparator)`: a stable sort of a copy, modelled as
      insertion of the elements in input order. */
  function Sort(cmp: Comparator, s: seq<Product>): (r: seq<Product>)
    ensures |r| == |s|
    ensures multiset(r) == multiset(s)
  {
    if s == [] then []
    else
      assert s == s[..|s| - 1] + [s[|s| - 1]];
      Insert(cmp, s[|s| - 1], Sort(cmp, s[..|s| - 1]))
  }

  /** The page's sort for a key. */
  function SortProducts(k: SortKey, s: seq<Product>): (r: seq<Product>)
  {
    Sort(By(k), s)
  }

  /** Inserting in front of a sorted list whose head compares greater. */
  lemma InsertFrontSorted(cmp: Comparator, x: Product, s: seq<Product>)
    requires Preorder(cmp) && SortedBy(cmp, s)
    requires s != [] && cmp(s[0], x) > 0
    ensures SortedBy(cmp, [x] + s)
  {
    var r := [x] + s;
    forall i, j | 0 <= i < j < |r| ensures cmp(r[i], r[j]) <= 0 {
      if i == 0 {
        assert cmp(x, s[0]) < 0;
        if j > 1 {
          assert cmp(s[0], s[j - 1]) <= 0;
        }
      } else {
        assert r[i] == s[i - 1] && r[j] == s[j - 1];
      }
    }
  }

  /** Keeping the head of a sorted list in front of an insertion into its tail. */
  lemma InsertBehindSorted(cmp: Comparator, x: Product, s: seq<Product>, tail: seq<Product>)
    requires SortedBy(cmp, s) && s != [] && cmp(s[0], x) <= 0
    requires SortedBy(cmp, tail) && multiset(tail) == multiset(s[1..]) + multiset{x}
    ensures SortedBy(cmp, [s[0]] + tail)
  {
    var r := [s[0]] + tail;
    forall i, j | 0 <= i < j < |r| ensures cmp(r[i], r[j]) <= 0 {
      if i == 0 {
        var y := r[j];
        assert y == tail[j - 1];
        assert y in multiset(tail);
        assert y == x || y in multiset(s[1..]);
        if y != x {
          var m :| 0 <= m < |s[1..]| && s[1..][m] == y;
          assert s[m + 1] == y;
        }
      } else {
        assert r[i] == tail[i - 1] && r[j] == tail[j - 1];
      }
    }
  }

  lemma {:induction false} InsertSorted(cmp: Comparator, x: Product, s: seq<Product>)
    requires Preorder(cmp) && SortedBy(cmp, s)
    ensures SortedBy(cmp, Insert(cmp, x, s))
  {
    if s == [] {
    } else if cmp(s[0], x) > 0 {
      InsertFrontSorted(cmp, x, s);
    } else {
      SortedTail(cmp, s);
      InsertSorted(cmp, x, s[1..]);
      InsertBehindSorted(cmp, x, s, Insert(cmp, x, s[1..]));
    }
  }

  /** The sorted copy is ordered by the comparator. */
  lemma {:induction false} SortSorted(cmp: Comparator, s: seq<Product>)
    requires Preorder(cmp)
    ensures SortedBy(cmp, Sort(cmp, s))
    decreases |s|
  {
    if s != [] {
      SortSorted(cmp, s[..|s| - 1]);
      InsertSorted(cmp, s[|s| - 1], Sort(cmp, s[..|s| - 1]));
    }
  }

  /** The page's sorted copy is ordered by the key. */
  lemma SortProductsSorted(k: SortKey, s: seq<Product>)
    ensures SortedBy(By(k), SortProducts(k, s))
  {
    ByPreorder(k);
    SortSorted(By(k), s);
  }

  lemma {:induction false} InsertAtEnd(cmp: Comparator, s: seq<Product>, x: Product)
    requires forall a, b :: cmp(a, b) == 0
    ensures Insert(cmp, x, s) == s + [x]
  {
    if s != [] {
      InsertAtEnd(cmp, s[1..], x);
      assert s + [x] == [s[0]] + (s[1..] + [x]);
    }
  }

  /** A comparator that finds everything equal leaves the order untouched
      (the sort is stable). */
  lemma {:induction false} AllEqualKeepsOrder(cmp: Comparator, s: seq<Product>)
    requires forall a, b :: cmp(a, b) == 0
    ensures Sort(cmp, s) == s
    decreases |s|
  {
    if s != [] {
      AllEqualKeepsOrder(cmp, s[..|s| - 1]);
      InsertAtEnd(cmp, s[..|s| - 1], s[|s| - 1]);
      assert s[..|s| - 1] + [s[|s| - 1]] == s;
    }
  }

  /** An unknown sort key leaves the filtered order untouched. */
  lemma UnorderedKeepsOrder(s: seq<Product>)
    ensures SortProducts(Unordered, s) == s
  {
    AllEqualKeepsOrder(By(Unordered), s);
  }

  /** No two distinct elements compare equal. */
  ghost predicate KeyInjective(cmp: Comparator, s: seq<Product>)
  {
    forall x, y :: x in s && y in s && cmp(x, y) == 0 ==> x == y
  }

  lemma SortedTail(cmp: Comparator, s: seq<Product>)
    requires s != [] && SortedBy(cmp, s)
    ensures SortedBy(cmp, s[1..])
  {
    forall i, j | 0 <= i < j < |s[1..]| ensures cmp(s[1..][i], s[1..][j]) <= 0 {
      assert s[1..][i] == s[i + 1] && s[1..][j] == s[j + 1];
    }
  }

  /** Two orderings of the same products by a separating comparator start alike. */
  lemma SortedSameHead(cmp: Comparator, a: seq<Product>, b: seq<Product>)
    requires Preorder(cmp)
    requires a != [] && b != [] && multiset(a) == multiset(b)
    requires SortedBy(cmp, a) && SortedBy(cmp, b) && KeyInjective(cmp, a)
    ensures a[0] == b[0]
  {
    assert a[0] in multiset(b) && b[0] in multiset(a);
    var m :| 0 <= m < |b| && b[m] == a[0];
    var n :| 0 <= n < |a| && a[n] == b[0];
  }

  /** Dropping equal heads keeps both lists the same products, and the first separated. */
  lemma DropEqualHeads(cmp: Comparator, a: seq<Product>, b: seq<Product>)
    requires a != [] && b != [] && a[0] == b[0] && multiset(a) == multiset(b)
    requires KeyInjective(cmp, a)
    ensures multiset(a[1..]) == multiset(b[1..]) && KeyInjective(cmp, a[1..])
  {
    assert a == [a[0]] + a[1..] && b == [b[0]] + b[1..];
    assert multiset(a[1..]) == multiset(a) - multiset{a[0]};
    assert multiset(b[1..]) == multiset(b) - multiset{b[0]};
    forall x, y | x in a[1..] && y in a[1..] && cmp(x, y) == 0 ensures x == y {
      assert x in a && y in a;
    }
  }

  /** Two orderings of the same products by a comparator that separates them
      are equal. */
  lemma {:induction false} SortedUnique(cmp: Comparator, a: seq<Product>, b: seq<Product>)
    requires Preorder(cmp)
    requires multiset(a) == multiset(b)
    requires SortedBy(cmp, a) && SortedBy(cmp, b) && KeyInjective(cmp, a)
    ensures a == b
    decreases |a|
  {
    assert |a| == |multiset(a)| == |multiset(b)| == |b|;
    if a != [] {
      SortedSameHead(cmp, a, b);
      DropEqualHeads(cmp, a, b);
      SortedTail(cmp, a);
      SortedTail(cmp, b);
      SortedUnique(cmp, a[1..], b[1..]);
      assert a == [a[0]] + a[1..] && b == [b[0]] + b[1..];
    }
  }

  function Reverse(s: seq<Product>): (r: seq<Product>)
    ensures |r| == |s|
    ensures forall i :: 0 <= i < |s| ==> r[i] == s[|s| - 1 - i]
    ensures multiset(r) == multiset(s)
  {
    if s == [] then []
    else
      assert s == [s[0]] + s[1..];
      Reverse(s[1..]) + [s[0]]
  }

  ghost predicate DistinctPrices(s: seq<Product>)
  {
    forall x, y :: x in s && y in s && x != y ==> PriceOrZero(x) != PriceOrZero(y)
  }

  ghost predicate DistinctNames(s: seq<Product>)
  {
    forall x, y :: x in s && y in s && x != y ==> x.name != y.name
  }

  /** Reversing a list ordered by one comparator orders it by the comparator
      that takes its arguments the other way round. */
  lemma ReverseFlipsOrder(cmp: Comparator, flipped: Comparator, s: seq<Product>)
    requires forall a, b :: flipped(a, b) == cmp(b, a)
    requires SortedBy(cmp, s)
    ensures SortedBy(flipped, Reverse(s))
  {
    var r := Reverse(s);
    forall i, j | 0 <= i < j < |r| ensures flipped(r[i], r[j]) <= 0 {
      assert cmp(s[|s| - 1 - j], s[|s| - 1 - i]) <= 0;
    }
  }

  /** Sorting by the flipped comparator gives the reverse of sorting by the
      original one, when the comparator separates the products. */
  lemma SortReversed(up: Comparator, down: Comparator, s: seq<Product>)
    requires Preorder(up) && Preorder(down)
    requires forall a, b :: down(a, b) == up(b, a)
    requires forall x, y :: x in s && y in s && down(x, y) == 0 ==> x == y
    ensures Sort(down, s) == Reverse(Sort(up, s))
  {
    var asc, desc := Sort(up, s), Sort(down, s);
    SortSorted(up, s);
    SortSorted(down, s);
    ReverseFlipsOrder(up, down, asc);
    assert KeyInjective(down, desc) by {
      forall x, y | x in desc && y in desc && down(x, y) == 0 ensures x == y {
        assert x in multiset(s) && y in multiset(s);
      }
    }
    SortedUnique(down, desc, Reverse(asc));
  }

  /** `price-desc` is the exact reverse of `price-asc` when no two products
      share a price. */
  lemma PriceDescReversesPriceAsc(s: seq<Product>)
    requires DistinctPrices(s)
    ensures SortProducts(ByPriceDesc, s) == Reverse(SortProducts(ByPriceAsc, s))
  {
    var up, down := By(ByPriceAsc), By(ByPriceDesc);
    ByPreorder(ByPriceAsc);
    ByPreorder(ByPriceDesc);
    assert forall a, b :: down(a, b) == up(b, a);
    assert forall x, y :: x in s && y in s && down(x, y) == 0 ==> PriceOrZero(x) == PriceOrZero(y);
    SortReversed(up, down, s);
  }

  /** `name-desc` is the exact reverse of `name` when no two products share a name. */
  lemma NameDescReversesName(s: seq<Product>)
    requires DistinctNames(s)
    ensures SortProducts(ByNameDesc, s) == Reverse(SortProducts(ByName, s))
  {
    var up, down := By(ByName), By(ByNameDesc);
    ByPreorder(ByName);
    ByPreorder(ByNameDesc);
    assert forall a, b :: down(a, b) == up(b, a);
    forall x, y | x in s && y in s && down(x, y) == 0 ensures x == y {
      LexCompareZero(y.name, x.name);
    }
    SortReversed(up, down, s);
  }

  /** `price-asc` puts cheaper products first, a missing price counting as 0. */
  lemma PriceAscending(s: seq<Product>)
    ensures var r := SortProducts(ByPriceAsc, s);
      forall i, j :: 0 <= i < j < |r| ==> PriceOrZero(r[i]) <= PriceOrZero(r[j])
  {
    SortProductsSorted(ByPriceAsc, s);
  }

  /** `newest` puts later creation times first. */
  lemma NewestFirst(s: seq<Product>)
    ensures var r := SortProducts(Newest, s);
      forall i, j :: 0 <= i < j < |r| ==> CreatedTime(r[i]) >= CreatedTime(r[j])
  {
    SortProductsSorted(Newest, s);
  }

  /** `filteredProducts`: the matching products, sorted by the selected key. */
  function FilteredProducts(ps: seq<Product>, f: Filters): seq<Product>
  {
    SortProducts(KeyOf(f.sortBy), FilterProducts(f, ps))
  }

  /** The listing holds exactly the matching products, as often as the input
      does, ordered by the selected key. */
  lemma FilteredProductsSpec(ps: seq<Product>, f: Filters)
    ensures var r := FilteredProducts(ps, f);
      && (forall p :: p in r <==> p in ps && Matches(f, p))
      && (forall p :: multiset(r)[p] == if Matches(f, p) then multiset(ps)[p] else 0)
      && SortedBy(By(KeyOf(f.sortBy)), r)
  {
    var r := FilteredProducts(ps, f);
    SortProductsSorted(KeyOf(f.sortBy), FilterProducts(f, ps));
    forall p ensures p in r <==> p in ps && Matches(f, p) {
      assert p in r <==> multiset(r)[p] > 0;
      assert p in ps <==> multiset(ps)[p] > 0;
    }
  }

  // ===========================================================================
  // Creation time: `createdAt`, else the timestamp field of a 24-character id

  /** The longest prefix made of hexadecimal digits. */
  function LeadingHex(s: string): (r: string)
    ensures AllHex(r)
  {
    if s != [] && IsHexDigit(s[0]) then [s[0]] + LeadingHex(s[1..]) else []
  }

  /** Big-endian value of a string of hexadecimal digits. */
  function HexValue(s: string): (v: nat)
    requires AllHex(s)
  {
    if s == [] then 0 else HexValue(s[..|s| - 1]) * 16 + HexDigitValue(s[|s| - 1])
  }

  /** `parseInt(s, 16)`: leading white space, an optional sign, an optional
      `0x`/`0X`, then the longest run of hexadecimal digits; `None` (NaN) when
      that run is empty. */
  function ParseIntHex(s: string): Option<int>
  {
    var t := TrimStart(s);
    var sign := if t != [] && t[0] == '-' then -1 else 1;
    var u := if t != [] && (t[0] == '-' || t[0] == '+') then t[1..] else t;
    var v := if |u| >= 2 && u[0] == '0' && (u[1] == 'x' || u[1] == 'X') then u[2..] else u;
    var digits := LeadingHex(v);
    if digits == [] then None else Some(sign * HexValue(digits))
  }

  /** `getCreatedTime`. */
  function CreatedTime(p: Product): int
  {
    if p.createdAt.Some? then p.createdAt.value
    else
      var id := Or(p.mongoId, p.id);
      if |id| == 24 then
        match ParseIntHex(id[..8])
        case Some(seconds) => seconds * 1000
        case None => 0
      else 0
  }

  /** A string of hexadecimal digits is its own longest such prefix. */
  lemma {:induction false} LeadingHexOfDigits(s: string)
    requires AllHex(s)
    ensures LeadingHex(s) == s
  {
    if s != [] {
      LeadingHexOfDigits(s[1..]);
      assert s == [s[0]] + s[1..];
    }
  }

  /** `parseInt` reads a string of hexadecimal digits as its value. */
  lemma ParseIntHexDigits(s: string)
    requires s != [] && AllHex(s)
    ensures ParseIntHex(s) == Some(HexValue(s))
  {
    assert !IsWs(s[0]);
    assert TrimStart(s) == s;
    assert |s| >= 2 ==> s[1] != 'x' && s[1] != 'X';
    LeadingHexOfDigits(s);
  }

  /** Without `createdAt`, a 24-character id whose first eight characters are
      hexadecimal dates the product at that many seconds since the epoch. */
  lemma ObjectIdTimestamp(p: Product)
    requires p.createdAt.None?
    requires |Or(p.mongoId, p.id)| == 24 && AllHex(Or(p.mongoId, p.id)[..8])
    ensures CreatedTime(p) == HexValue(Or(p.mongoId, p.id)[..8]) * 1000
    ensures CreatedTime(p) >= 0
  {
    ParseIntHexDigits(Or(p.mongoId, p.id)[..8]);
  }

  /** Without `createdAt`, an id of any other length gives time 0. */
  lemma NoTimestampWithoutObjectId(p: Product)
    requires p.createdAt.None? && |Or(p.mongoId, p.id)| != 24
    ensures CreatedTime(p) == 0
  {
  }

  // ===========================================================================
  // Pagination

  /** `Array.prototype.slice(start, end)`, negative positions counting from the end. */
  function JsSlice<T>(s: seq<T>, start: int, end: int): (r: seq<T>)
    ensures |r| <= |s|
  {
    var n := |s|;
    var from := if start < 0 then MaxInt(n + start, 0) else MinInt(start, n);
    var to := if end < 0 then MaxInt(n + end, 0) else MinInt(end, n);
    if from < to then s[from..to] else []
  }

  /** `paginatedProducts` for page number `page`. */
  function Page<T>(list: seq<T>, page: int): seq<T>
  {
    var start := (page - 1) * PAGE_SIZE;
    JsSlice(list, start, start + PAGE_SIZE)
  }

  /** Page p (from 1) is the window `[(p-1)*20, (p-1)*20+20)` cut to the list. */
  lemma PageWindow<T>(list: seq<T>, page: int)
    requires page >= 1
    ensures var start := (page - 1) * PAGE_SIZE;
      Page(list, page) == list[MinInt(start, |list|)..MinInt(start + PAGE_SIZE, |list|)]
    ensures |Page(list, page)| <= PAGE_SIZE
  {
  }

  function PageCount(n: nat): nat
  {
    (n + PAGE_SIZE - 1) / PAGE_SIZE
  }

  /** Pages 1 to k, one after the other. */
  function PagesUpTo<T>(list: seq<T>, k: nat): seq<T>
  {
    if k == 0 then [] else PagesUpTo(list, k - 1) + Page(list, k)
  }

  lemma {:induction false} PagesUpToPrefix<T>(list: seq<T>, k: nat)
    ensures PagesUpTo(list, k) == list[..MinInt(k * PAGE_SIZE, |list|)]
  {
    if k > 0 {
      PagesUpToPrefix(list, k - 1);
      PageWindow(list, k);
      var a, b := MinInt((k - 1) * PAGE_SIZE, |list|), MinInt(k * PAGE_SIZE, |list|);
      assert list[..a] + list[a..b] == list[..b];
    }
  }

  /** Concatenating pages 1 to ⌈n/20⌉ gives back the whole listing. */
  lemma PagesCoverList<T>(list: seq<T>)
    ensures PagesUpTo(list, PageCount(|list|)) == list
  {
    PagesUpToPrefix(list, PageCount(|list|));
    assert PageCount(|list|) * PAGE_SIZE >= |list|;
  }

  /** The listing of 45 products: 20 on page 1, 5 on page 3, none on page 4. */
  lemma FortyFiveProducts<T>(list: seq<T>)
    requires |list| == 45
    ensures |Page(list, 1)| == 20 && |Page(list, 3)| == 5 && Page(list, 4) == []
  {
    PageWindow(list, 1);
    PageWindow(list, 3);
    PageWindow(list, 4);
  }

  // ===========================================================================
  // Price bounds

  /** `products.map(p => Number(p.price)).filter(n => !isNaN(n))`. */
  function NumericPrices(ps: seq<Product>): (r: seq<real>)
    ensures r == [] <==> forall p :: p in ps ==> p.price.None?
    ensures forall p :: p in ps && p.price.Some? ==> p.price.value in r
    ensures forall x :: x in r ==> exists p :: p in ps && p.price == Some(x)
  {
    if ps == [] then []
    else (if ps[0].price.Some? then [ps[0].price.value] else []) + NumericPrices(ps[1..])
  }

  function MinOf(s: seq<real>): (m: real)
    requires s != []
    ensures m in s && forall x :: x in s ==> m <= x
  {
    if |s| == 1 then s[0]
    else
      assert s == [s[0]] + s[1..];
      MinReal(s[0], MinOf(s[1..]))
  }

  function MaxOf(s: seq<real>): (m: real)
    requires s != []
    ensures m in s && forall x :: x in s ==> x <= m
  {
    if |s| == 1 then s[0]
    else
      assert s == [s[0]] + s[1..];
      MaxReal(s[0], MaxOf(s[1..]))
  }

  function Ceil(x: real): (c: int)
    ensures x <= c as real < x + 1.0
  {
    -((-x).Floor)
  }

  /** `c` is a cheapest and `d` a dearest product with a numeric price. */
  ghost predicate Extremes(ps: seq<Product>, c: Product, d: Product)
  {
    && c in ps && d in ps && c.price.Some? && d.price.Some?
    && forall p :: p in ps && p.price.Some? ==> c.price.value <= p.price.value <= d.price.value
  }

  /** `priceBounds`, and the panel's derived range: `[0, 200000]` without any
      numeric price, else the floor of the cheapest price (at least 0) and the
      ceiling of the dearest (at most 200000), the upper end raised to the
      lower when they cross. */
  function PriceBounds(ps: seq<Product>): (r: (int, int))
    ensures 0 <= r.0 <= r.1
    ensures r.1 <= PRICE_CAP || r.1 == r.0
    ensures (forall p :: p in ps ==> p.price.None?) ==> r == (0, PRICE_CAP)
    ensures forall p :: p in ps && p.price.Some? && 0.0 <= p.price.value <= PRICE_CAP as real ==>
      r.0 as real <= p.price.value <= r.1 as real
    // with some numeric price, the ends come from a cheapest and a dearest product
    ensures (exists p :: p in ps && p.price.Some?) ==>
      exists c, d ::
        && Extremes(ps, c, d)
        && r.0 == MaxInt(0, c.price.value.Floor)
        && r.1 == MaxInt(r.0, MinInt(PRICE_CAP, Ceil(d.price.value)))
  {
    var prices := NumericPrices(ps);
    if prices == [] then (0, PRICE_CAP)
    else
      var lo := MaxInt(0, MinOf(prices).Floor);
      var hi := MinInt(PRICE_CAP, Ceil(MaxOf(prices)));
      CheapestAndDearest(ps);
      (lo, MaxInt(lo, hi))
  }

  /** Prices 100.5 and 199.2 give the bounds (100, 200). */
  lemma TwoPricesBounds(a: Product, b: Product)
    requires a.price == Some(100.5) && b.price == Some(199.2)
    ensures PriceBounds([a, b]) == (100, 200)
  {
    assert NumericPrices([a, b]) == [100.5, 199.2] by {
      assert [a, b][1..] == [b];
    }
  }

  /** The least and the greatest numeric price belong to a cheapest and a
      dearest product. */
  lemma CheapestAndDearest(ps: seq<Product>)
    requires NumericPrices(ps) != []
    ensures exists c, d ::
      && Extremes(ps, c, d)
      && c.price.value == MinOf(NumericPrices(ps)) && d.price.value == MaxOf(NumericPrices(ps))
  {
    var prices := NumericPrices(ps);
    var lo, hi := MinOf(prices), MaxOf(prices);
    var c :| c in ps && c.price == Some(lo);
    var d :| d in ps && d.price == Some(hi);
    forall p | p in ps && p.price.Some?
      ensures lo <= p.price.value <= hi
    {
      assert p.price.value in prices;
    }
    assert Extremes(ps, c, d);
  }

  // ===========================================================================
  // Categories

  const BASELINE: seq<string> :=
    ["rings", "necklaces", "earrings", "pendants", "temple-jewellery", "bangles", "sarees", "dresses"]

  /** `products.map(p => p.category).filter(Boolean)`. */
  function ProductCategories(ps: seq<Product>): (r: seq<string>)
    ensures forall c :: c in r ==> c != ""
    ensures forall p :: p in ps && p.category.Some? && p.category.value != "" ==> p.category.value in r
    ensures forall c :: c in r ==> exists p :: p in ps && p.category == Some(c)
  {
    if ps == [] then []
    else
      (if ps[0].category.Some? && ps[0].category.value != "" then [ps[0].category.value] else [])
      + ProductCategories(ps[1..])
  }

  /** `categories`: `'all'`, then the baseline, then the other categories in
      order of first appearance. */
  function Categories(ps: seq<Product>): seq<string>
  {
    ["all"] + Dedupe(BASELINE + ProductCategories(ps))
  }

  lemma BaselineDistinct()
    ensures NoDup(BASELINE)
  {
  }

  /** After `'all'`, the list is the baseline followed by the categories the
      baseline does not already hold. */
  lemma CategoriesAfterAll(ps: seq<Product>)
    ensures Categories(ps) == ["all"] + DedupeFrom(BASELINE, ProductCategories(ps))
  {
    DedupeFromAppend([], BASELINE, ProductCategories(ps));
    BaselineDistinct();
    assert [] + BASELINE == BASELINE;
    DedupeFromDistinct([], BASELINE);
  }

  /** The list starts with `'all'` and the baseline in its order, contains
      exactly `'all'`, the baseline and the product categories, and repeats
      nothing after its first entry. */
  lemma CategoriesShape(ps: seq<Product>)
    ensures var r := Categories(ps);
      && |r| >= 1 + |BASELINE| && r[0] == "all" && r[1..1 + |BASELINE|] == BASELINE
      && (forall c :: c in r <==> c == "all" || c in BASELINE || c in ProductCategories(ps))
      && NoDup(r[1..])
  {
    CategoriesAfterAll(ps);
    BaselineDistinct();
    var merged := DedupeFrom(BASELINE, ProductCategories(ps));
    assert Categories(ps)[1..] == merged;
    assert Categories(ps)[1..1 + |BASELINE|] == merged[..|BASELINE|];
  }

  /** The list is free of repeats unless a product's category is `'all'` itself. */
  lemma CategoriesDistinct(ps: seq<Product>)
    requires forall p :: p in ps ==> p.category != Some("all")
    ensures NoDup(Categories(ps))
  {
    CategoriesShape(ps);
    var r := Categories(ps);
    assert "all" !in BASELINE;
    assert "all" !in ProductCategories(ps);
    forall j | 1 <= j < |r| ensures r[j] != "all" {
      assert r[j] in r[1..];
    }
    forall i, j | 0 <= i < j < |r| ensures r[i] != r[j] {
      if i > 0 {
        assert r[i] == r[1..][i - 1] && r[j] == r[1..][j - 1];
      }
    }
  }

  /** A product in category `'all'` makes `'all'` appear twice. */
  lemma CategoriesRepeatAll(ps: seq<Product>, p: Product)
    requires p in ps && p.category == Some("all")
    ensures exists j :: 0 < j < |Categories(ps)| && Categories(ps)[j] == "all"
  {
    CategoriesShape(ps);
    var r := Categories(ps);
    assert "all" in ProductCategories(ps);
    assert "all" in r[1..];
    var j :| 0 <= j < |r[1..]| && r[1..][j] == "all";
    assert r[j + 1] == "all";
  }

  // ===========================================================================
  // Active-filter count and the filter-panel merge

  /** `activeFilters`: the stock flag and a real category each count one. */
  function ActiveFilters(f: Filters): (n: int)
    ensures 0 <= n <= 2
    ensures n == 2 <==> f.inStock && f.category != "" && f.category != "all"
    ensures n == 0 <==> !f.inStock && (f.category == "" || f.category == "all")
  {
    (if f.inStock then 1 else 0) + (if f.category != "" && f.category != "all" then 1 else 0)
  }

  /** What the filter panel reports; `None` stands for a key the reported
      object does not have, which the merge leaves as it was. */
  datatype FilterUpdate = FilterUpdate(
    priceRange: Option<(real, real)>,
    category: Option<string>,
    inStock: Option<bool>,
    sortBy: Option<string>)

  /** The `onFilterChange` callback passed to the panel: the reported keys
      replace the page's, every other key is kept; an empty `sortBy` is falsy
      and keeps the page's key too. */
  function MergeFilters(prev: Filters, u: FilterUpdate): (r: Filters)
    ensures u.priceRange.None? ==> r.lo == prev.lo && r.hi == prev.hi
    ensures u.priceRange.Some? ==> (r.lo, r.hi) == u.priceRange.value
    ensures r.category == if u.category.Some? then u.category.value else prev.category
    ensures r.inStock == if u.inStock.Some? then u.inStock.value else prev.inStock
    ensures r.sortBy == if u.sortBy.Some? && u.sortBy.value != "" then u.sortBy.value else prev.sortBy
  {
    var range := if u.priceRange.Some? then u.priceRange.value else (prev.lo, prev.hi);
    Filters(
      range.0, range.1,
      if u.category.Some? then u.category.value else prev.category,
      if u.inStock.Some? then u.inStock.value else prev.inStock,
      if u.sortBy.Some? then Or(u.sortBy.value, prev.sortBy) else prev.sortBy)
  }

  /** Merging the same update twice is merging it once. */
  lemma MergeIdempotent(prev: Filters, u: FilterUpdate)
    ensures MergeFilters(MergeFilters(prev, u), u) == MergeFilters(prev, u)
  {
  }
}

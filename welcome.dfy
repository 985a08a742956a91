/** The landing page: the products sorted into the category buckets of the
    page, the keys of the weekly "popular by category" reply normalised to
    lower-case hyphenated form, the order in which those categories are
    rendered, and the cyclic banner slide show. */
module Welcome {
  import opened Common
  import opened Catalog

  // ===========================================================================
  // Category buckets

  datatype Bucket = Earrings | Necklaces | Pendants | Rings | TempleJewellery | Bangles | Sarees

  /** The bucket a product goes to, from its lower-cased category: a bucket
      name (`templeJewellery` is never the lower case of anything, so its
      bucket is reached only through the two spellings below), or nothing. */
  function BucketOf(category: Option<string>): Option<Bucket>
  {
    if category.None? then None
    else
      var c := Lower(category.value);
      if c == "earrings" then Some(Earrings)
      else if c == "necklaces" then Some(Necklaces)
      else if c == "pendants" then Some(Pendants)
      else if c == "rings" then Some(Rings)
      else if c == "bangles" then Some(Bangles)
      else if c == "sarees" then Some(Sarees)
      else if c == "temple jewellery" || c == "templejewellery" then Some(TempleJewellery)
      else None
  }

  /** The products of bucket `b`, in the order they came. */
  function InBucket(ps: seq<Product>, b: Bucket): (r: seq<Product>)
    ensures |r| <= |ps|
  {
    if ps == [] then []
    else
      var last := ps[|ps| - 1];
      InBucket(ps[..|ps| - 1], b) + (if BucketOf(last.category) == Some(b) then [last] else [])
  }

  /** Every bucket is a key of a map built from all seven. */
  lemma EveryBucket(m: map<Bucket, seq<Product>>)
    requires Earrings in m && Necklaces in m && Pendants in m && Rings in m
    requires TempleJewellery in m && Bangles in m && Sarees in m
    ensures forall b :: b in m
  {
    forall b: Bucket ensures b in m {
      match b {
        case Earrings =>
        case Necklaces =>
        case Pendants =>
        case Rings =>
        case TempleJewellery =>
        case Bangles =>
        case Sarees =>
      }
    }
  }

  /** Bucket `b` holds exactly the products whose category names it. */
  lemma {:induction false} InBucketMembers(ps: seq<Product>, b: Bucket, p: Product)
    ensures p in InBucket(ps, b) <==> p in ps && BucketOf(p.category) == Some(b)
  {
    if ps != [] {
      var init := ps[..|ps| - 1];
      InBucketMembers(init, b, p);
      assert ps == init + [ps[|ps| - 1]];
    }
  }

  /** A product lands in one bucket at most: two buckets share no product. */
  lemma BucketsDisjoint(ps: seq<Product>, b1: Bucket, b2: Bucket, p: Product)
    requires p in InBucket(ps, b1) && p in InBucket(ps, b2)
    ensures b1 == b2
  {
    InBucketMembers(ps, b1, p);
    InBucketMembers(ps, b2, p);
  }

  /** A product is dropped exactly when its category names no bucket. */
  lemma DroppedProducts(ps: seq<Product>, p: Product)
    requires p in ps
    ensures (forall b :: p !in InBucket(ps, b)) <==> BucketOf(p.category).None?
  {
    if BucketOf(p.category).Some? {
      InBucketMembers(ps, BucketOf(p.category).value, p);
    } else {
      forall b ensures p !in InBucket(ps, b) {
        InBucketMembers(ps, b, p);
      }
    }
  }

  /** The hyphenated spelling the popular keys use names no bucket. */
  lemma HyphenatedTempleDropped()
    ensures BucketOf(Some("temple-jewellery")).None?
  {
    assert Lower("temple-jewellery") == "temple-jewellery";
  }

  /** Every bucket of `buckets` holds the products of its category. */
  ghost predicate Organized(buckets: map<Bucket, seq<Product>>, ps: seq<Product>)
  {
    forall b :: b in buckets && buckets[b] == InBucket(ps, b)
  }

  /** The `forEach` that pushes each product into its bucket. */
  method Organize(ps: seq<Product>) returns (buckets: map<Bucket, seq<Product>>)
    ensures Organized(buckets, ps)
  {
    buckets := map[Earrings := [], Necklaces := [], Pendants := [], Rings := [],
                   TempleJewellery := [], Bangles := [], Sarees := []];
    EveryBucket(buckets);
    for i := 0 to |ps|
      invariant forall b :: b in buckets && buckets[b] == InBucket(ps[..i], b)
    {
      assert ps[..i + 1][..i] == ps[..i];
      var target := BucketOf(ps[i].category);
      if target.Some? {
        buckets := buckets[target.value := buckets[target.value] + [ps[i]]];
      }
    }
    assert ps[..|ps|] == ps;
  }

  // ===========================================================================
  // Popular-category keys

  /** `s.replace(/\s+/g, '-')`, reading `s` from the left: a white-space
      character writes a hyphen unless it continues a run (`inRun`), any
      other character is copied. */
  function HyphenateFrom(s: string, inRun: bool): string
  {
    if s == [] then []
    else if IsWs(s[0]) then (if inRun then [] else "-") + HyphenateFrom(s[1..], true)
    else [s[0]] + HyphenateFrom(s[1..], false)
  }

  function Hyphenate(s: string): string
  {
    HyphenateFrom(s, false)
  }

  /** The replacement leaves no white space and adds only hyphens, so it
      keeps a string free of upper-case letters. */
  lemma {:induction false} HyphenateClean(s: string, inRun: bool)
    ensures NoWs(HyphenateFrom(s, inRun))
    ensures NoUpper(s) ==> NoUpper(HyphenateFrom(s, inRun))
  {
    if s != [] {
      var head: string := if IsWs(s[0]) then (if inRun then [] else "-") else [s[0]];
      var rest := HyphenateFrom(s[1..], IsWs(s[0]));
      HyphenateClean(s[1..], IsWs(s[0]));
      assert NoUpper(s) ==> NoUpper(s[1..]) by {
        if NoUpper(s) {
          forall i | 0 <= i < |s[1..]| ensures !IsUpper(s[1..][i]) {
            assert s[1..][i] == s[i + 1];
          }
        }
      }
      var r := head + rest;
      forall i | 0 <= i < |r| ensures !IsWs(r[i]) && (NoUpper(s) ==> !IsUpper(r[i])) {
        if i >= |head| {
          assert r[i] == rest[i - |head|];
        }
      }
    }
  }

  /** A string without white space has nothing to replace. */
  lemma {:induction false} HyphenateNoWs(s: string, inRun: bool)
    requires NoWs(s)
    ensures HyphenateFrom(s, inRun) == s
  {
    if s != [] {
      HyphenateNoWs(s[1..], false);
      assert s == [s[0]] + s[1..];
    }
  }

  /** A prefix without white space passes through unchanged. */
  lemma {:induction false} HyphenatePrefix(a: string, b: string)
    requires NoWs(a)
    ensures Hyphenate(a + b) == a + Hyphenate(b)
  {
    if a != [] {
      assert (a + b)[0] == a[0] && (a + b)[1..] == a[1..] + b;
      HyphenatePrefix(a[1..], b);
      assert a == [a[0]] + a[1..];
    } else {
      assert a + b == b;
    }
  }

  /** `String(k).toLowerCase().trim().replace(/\s+/g, '-')`. */
  function NormalizeKey(k: string): string
  {
    Hyphenate(Trim(Lower(k)))
  }

  /** A normalised key has no white space and no upper-case letter. */
  lemma NormalizeKeyClean(k: string)
    ensures NoWs(NormalizeKey(k)) && NoUpper(NormalizeKey(k))
  {
    LowerFacts(k);
    TrimFacts(Lower(k));
    HyphenateClean(Trim(Lower(k)), false);
  }

  /** A normalised key is its own normal form. */
  lemma NormalizeKeyIdempotent(k: string)
    ensures NormalizeKey(NormalizeKey(k)) == NormalizeKey(k)
  {
    NormalizeKeyClean(k);
    var n := NormalizeKey(k);
    LowerFacts(n);
    TrimFacts(n);
    HyphenateNoWs(n, false);
  }

  /** A key that is already lower case and has no white space is kept as it
      is. */
  lemma NormalizeKeyKeepsClean(k: string)
    requires NoUpper(k) && NoWs(k)
    ensures NormalizeKey(k) == k
  {
    LowerFacts(k);
    TrimFacts(k);
    HyphenateNoWs(k, false);
  }

  /** Joining two clean words with a space adds no upper-case letter and
      nothing for `trim` to remove. */
  lemma JoinedWordsClean(a: string, b: string)
    requires a != [] && b != []
    requires NoUpper(a) && NoWs(a) && NoUpper(b) && NoWs(b)
    ensures NoUpper(a + " " + b) && Trim(a + " " + b) == a + " " + b
  {
    var k := a + " " + b;
    forall i | 0 <= i < |k| ensures !IsUpper(k[i]) {
      if i < |a| {
        assert k[i] == a[i];
      } else if i > |a| {
        assert k[i] == b[i - |a| - 1];
      }
    }
    assert k[0] == a[0] && k[|k| - 1] == b[|b| - 1];
    TrimFacts(k);
  }

  /** One space before a clean word becomes one hyphen. */
  lemma HyphenateSpace(b: string)
    requires b != [] && NoWs(b)
    ensures Hyphenate(" " + b) == "-" + b
  {
    assert (" " + b)[1..] == b;
    HyphenateNoWs(b, true);
  }

  /** Two clean words with one space between them become the words joined
      by a hyphen, as the reply's `"Temple Jewellery"` becomes the key
      `temple-jewellery` the page lists. */
  lemma NormalizeTwoWords(a: string, b: string)
    requires a != [] && b != []
    requires NoUpper(a) && NoWs(a) && NoUpper(b) && NoWs(b)
    ensures NormalizeKey(a + " " + b) == a + "-" + b
  {
    var k := a + " " + b;
    assert k == a + (" " + b);
    assert a + ("-" + b) == a + "-" + b;
    JoinedWordsClean(a, b);
    LowerFacts(k);
    HyphenateSpace(b);
    HyphenatePrefix(a, " " + b);
  }

  /** Each key of the reply normalised, in the reply's order. */
  function NormalizeAll(apiKeys: seq<string>): (r: seq<string>)
    ensures |r| == |apiKeys|
    ensures forall i :: 0 <= i < |r| ==> r[i] == NormalizeKey(apiKeys[i])
  {
    if apiKeys == [] then [] else [NormalizeKey(apiKeys[0])] + NormalizeAll(apiKeys[1..])
  }

  /** The keys of the normalised object, in the order of the reply's keys:
      keys that normalise alike collapse onto the first one. */
  function PopularKeys(apiKeys: seq<string>): seq<string>
  {
    Dedupe(NormalizeAll(apiKeys))
  }

  /** No key is listed twice. */
  lemma PopularKeysDistinct(apiKeys: seq<string>)
    ensures NoDup(PopularKeys(apiKeys))
  {
    assert NoDup<string>([]);
  }

  /** A key is listed exactly when some key of the reply normalises to it. */
  lemma PopularKeysFromReply(apiKeys: seq<string>, k: string)
    ensures k in PopularKeys(apiKeys) <==> exists i :: 0 <= i < |apiKeys| && NormalizeKey(apiKeys[i]) == k
  {
    var n := NormalizeAll(apiKeys);
    if k in n {
      var i :| 0 <= i < |n| && n[i] == k;
      assert NormalizeKey(apiKeys[i]) == k;
    }
  }

  // ===========================================================================
  // Categories to render

  datatype Section = Section(key: string, title: string)

  const POPULAR_ORDER: seq<Section> := [
    Section("sarees", "Sarees"), Section("necklaces", "Necklaces"), Section("earrings", "Earrings"),
    Section("pendants", "Pendants"), Section("rings", "Rings"),
    Section("temple-jewellery", "Temple Jewellery"), Section("bangles", "Bangles"),
    Section("dresses", "Dresses")]

  /** `order.find((o) => o.key === k)` finds a section: some section of
      `order` has key `k`. */
  predicate Listed(order: seq<Section>, k: string)
  {
    exists i :: 0 <= i < |order| && order[i].key == k
  }

  /** `k.charAt(0).toUpperCase() + k.slice(1)`. */
  function Capitalize(k: string): string
  {
    if k == [] then [] else [UpperChar(k[0])] + k[1..]
  }

  /** A title differs from its key in the first character at most, which is
      upper-cased. */
  lemma CapitalizeFirstOnly(k: string)
    ensures |Capitalize(k)| == |k|
    ensures k != [] ==> Capitalize(k)[0] == UpperChar(k[0]) && Capitalize(k)[1..] == k[1..]
    ensures forall i :: 1 <= i < |k| ==> Capitalize(k)[i] == k[i]
  {
  }

  /** The filter of `extraCategories`: the keys `order` does not list, in
      the order they came. */
  function Unlisted(order: seq<Section>, keys: seq<string>): (r: seq<string>)
    ensures |r| <= |keys|
    ensures forall k :: k in r <==> k in keys && !Listed(order, k)
  {
    if keys == [] then []
    else
      assert keys == [keys[0]] + keys[1..];
      (if Listed(order, keys[0]) then [] else [keys[0]]) + Unlisted(order, keys[1..])
  }

  /** The extra keys keep the reply's key order: filtering two parts one
      after the other is filtering the whole. */
  lemma {:induction false} UnlistedAppend(order: seq<Section>, a: seq<string>, b: seq<string>)
    ensures Unlisted(order, a + b) == Unlisted(order, a) + Unlisted(order, b)
  {
    if a == [] {
      assert a + b == b;
    } else {
      assert (a + b)[0] == a[0] && (a + b)[1..] == a[1..] + b;
      UnlistedAppend(order, a[1..], b);
    }
  }

  /** Filtering distinct keys leaves distinct keys. */
  lemma {:induction false} UnlistedNoDup(order: seq<Section>, keys: seq<string>)
    requires NoDup(keys)
    ensures NoDup(Unlisted(order, keys))
  {
    if keys != [] {
      assert NoDup(keys[1..]) by {
        forall i, j | 0 <= i < j < |keys[1..]| ensures keys[1..][i] != keys[1..][j] {
          assert keys[1..][i] == keys[i + 1] && keys[1..][j] == keys[j + 1];
        }
      }
      UnlistedNoDup(order, keys[1..]);
      assert keys[0] !in keys[1..] by {
        forall i | 0 <= i < |keys[1..]| ensures keys[1..][i] != keys[0] {
          assert keys[1..][i] == keys[i + 1];
        }
      }
      var rest := Unlisted(order, keys[1..]);
      var r := Unlisted(order, keys);
      if !Listed(order, keys[0]) {
        forall i, j | 0 <= i < j < |r| ensures r[i] != r[j] {
          assert r[j] == rest[j - 1];
          if i > 0 {
            assert r[i] == rest[i - 1];
          }
        }
      }
    }
  }

  /** The map of `extraCategories`: each key with its title. */
  function Titled(keys: seq<string>): (r: seq<Section>)
    ensures |r| == |keys|
    ensures forall i :: 0 <= i < |r| ==> r[i].key == keys[i] && r[i].title == Capitalize(keys[i])
  {
    seq(|keys|, i requires 0 <= i < |keys| => Section(keys[i], Capitalize(keys[i])))
  }

  /** `extraCategories`. */
  function ExtraSections(order: seq<Section>, keys: seq<string>): seq<Section>
  {
    Titled(Unlisted(order, keys))
  }

  /** The sections of `order`, then the extra sections for `keys`. */
  function Render(order: seq<Section>, keys: seq<string>): seq<Section>
  {
    order + ExtraSections(order, keys)
  }

  /** `categoriesToRender` for the reply's keys. */
  function CategoriesToRender(apiKeys: seq<string>): seq<Section>
  {
    Render(POPULAR_ORDER, PopularKeys(apiKeys))
  }

  /** A key has a section among two lists exactly when it has one in either. */
  lemma ListedAppend(x: seq<Section>, y: seq<Section>, k: string)
    ensures Listed(x + y, k) <==> Listed(x, k) || Listed(y, k)
  {
    var r := x + y;
    if Listed(r, k) {
      var i :| 0 <= i < |r| && r[i].key == k;
      if i >= |x| {
        assert y[i - |x|] == r[i];
      }
    }
    if Listed(x, k) {
      var i :| 0 <= i < |x| && x[i].key == k;
      assert r[i] == x[i];
    }
    if Listed(y, k) {
      var j :| 0 <= j < |y| && y[j].key == k;
      assert r[|x| + j] == y[j];
    }
  }

  /** The titled keys have a section for exactly those keys. */
  lemma TitledListed(keys: seq<string>, k: string)
    ensures Listed(Titled(keys), k) <==> k in keys
  {
    if k in keys {
      var j :| 0 <= j < |keys| && keys[j] == k;
      assert Titled(keys)[j].key == k;
    }
  }

  /** A key gets a section exactly when the order lists it or it is one of
      the keys; the sections of the order come first, as they are. */
  lemma RenderedSections(order: seq<Section>, keys: seq<string>, k: string)
    ensures |Render(order, keys)| >= |order| && Render(order, keys)[..|order|] == order
    ensures Listed(Render(order, keys), k) <==> Listed(order, k) || k in keys
  {
    var extra := ExtraSections(order, keys);
    assert (order + extra)[..|order|] == order;
    ListedAppend(order, extra, k);
    TitledListed(Unlisted(order, keys), k);
  }

  /** `categoriesToRender` lists a category exactly when the fixed order
      lists it or some key of the reply normalises to it. */
  lemma CategoriesFromReply(apiKeys: seq<string>, k: string)
    ensures Listed(CategoriesToRender(apiKeys), k)
      <==> Listed(POPULAR_ORDER, k) || exists i :: 0 <= i < |apiKeys| && NormalizeKey(apiKeys[i]) == k
  {
    RenderedSections(POPULAR_ORDER, PopularKeys(apiKeys), k);
    PopularKeysFromReply(apiKeys, k);
  }

  /** No two sections share a key. */
  ghost predicate DistinctKeys(ss: seq<Section>)
  {
    forall i, j :: 0 <= i < j < |ss| ==> ss[i].key != ss[j].key
  }

  /** Distinct keys get sections with distinct keys. */
  lemma TitledDistinct(keys: seq<string>)
    requires NoDup(keys)
    ensures DistinctKeys(Titled(keys))
  {
  }

  /** Two lists of distinct keys, no key in both, make one. */
  lemma DistinctKeysAppend(x: seq<Section>, y: seq<Section>)
    requires DistinctKeys(x) && DistinctKeys(y)
    requires forall i, j :: 0 <= i < |x| && 0 <= j < |y| ==> x[i].key != y[j].key
    ensures DistinctKeys(x + y)
  {
    var r := x + y;
    forall i, j | 0 <= i < j < |r| ensures r[i].key != r[j].key {
      if i >= |x| {
        assert r[i] == y[i - |x|] && r[j] == y[j - |x|];
      } else if j >= |x| {
        assert r[i] == x[i] && r[j] == y[j - |x|];
      }
    }
  }

  lemma OrderKeysDistinct()
    ensures DistinctKeys(POPULAR_ORDER)
  {
  }

  /** Sections whose keys the fixed order does not list share no key with it. */
  lemma UnlistedApart(order: seq<Section>, extra: seq<Section>)
    requires forall j :: 0 <= j < |extra| ==> !Listed(order, extra[j].key)
    ensures forall i, j :: 0 <= i < |order| && 0 <= j < |extra| ==> order[i].key != extra[j].key
  {
  }

  /** No key is listed twice when the fixed keys are distinct: the extra
      keys are distinct keys the fixed order does not list. */
  lemma RenderDistinct(order: seq<Section>, keys: seq<string>)
    requires DistinctKeys(order) && NoDup(keys)
    ensures DistinctKeys(Render(order, keys))
  {
    var u := Unlisted(order, keys);
    var extra := Titled(u);
    UnlistedNoDup(order, keys);
    TitledDistinct(u);
    UnlistedApart(order, extra);
    DistinctKeysAppend(order, extra);
  }

  /** `categoriesToRender` lists no category twice. */
  lemma RenderedKeysDistinct(apiKeys: seq<string>)
    ensures DistinctKeys(CategoriesToRender(apiKeys))
  {
    OrderKeysDistinct();
    PopularKeysDistinct(apiKeys);
    RenderDistinct(POPULAR_ORDER, PopularKeys(apiKeys));
  }

  /** The sections the page draws: those whose key holds a non-empty array
      in `popularByCategory`, in list order. `items` maps a key to its array;
      a key without an entry, or whose value is not an array, is absent. */
  function Drawn(sections: seq<Section>, items: map<string, seq<Product>>): (r: seq<Section>)
    ensures |r| <= |sections|
    ensures forall x :: x in r <==> x in sections && x.key in items && items[x.key] != []
  {
    if sections == [] then []
    else
      (if sections[0].key in items && items[sections[0].key] != [] then [sections[0]] else [])
      + Drawn(sections[1..], items)
  }

  /** A key is drawn exactly when it is listed and its array is non-empty. */
  lemma DrawnListed(sections: seq<Section>, items: map<string, seq<Product>>, k: string)
    ensures Listed(Drawn(sections, items), k) <==> Listed(sections, k) && k in items && items[k] != []
  {
    var r := Drawn(sections, items);
    if Listed(r, k) {
      var i :| 0 <= i < |r| && r[i].key == k;
      assert r[i] in sections;
      var j :| 0 <= j < |sections| && sections[j] == r[i];
    }
    if Listed(sections, k) && k in items && items[k] != [] {
      var j :| 0 <= j < |sections| && sections[j].key == k;
      assert sections[j] in r;
      var i :| 0 <= i < |r| && r[i] == sections[j];
    }
  }

  /** A category is drawn exactly when `categoriesToRender` lists it and its
      array holds at least one product: a fixed-order category with no items
      is skipped. */
  lemma DrawnFromReply(apiKeys: seq<string>, items: map<string, seq<Product>>, k: string)
    ensures Listed(Drawn(CategoriesToRender(apiKeys), items), k)
      <==> (Listed(POPULAR_ORDER, k) || exists i :: 0 <= i < |apiKeys| && NormalizeKey(apiKeys[i]) == k)
           && k in items && items[k] != []
  {
    DrawnListed(CategoriesToRender(apiKeys), items, k);
    CategoriesFromReply(apiKeys, k);
  }

  // ===========================================================================
  // The page

  const SLIDES: nat := 3

  /** What a request gave: the awaited body's field, a body without it, or an
      exception. */
  datatype Fetched<T> = Got(value: T) | Absent | Threw

  class LandingPage {
    var slideIndex: int
    var buckets: map<Bucket, seq<Product>>
    var newArrivals: seq<Product>
    var popularKeys: seq<string>       // `Object.keys(popularByCategory)`
    var loading: bool

    ghost predicate Valid()
      reads this
    {
      0 <= slideIndex < SLIDES
    }

    constructor ()
      ensures Valid() && slideIndex == 0 && loading && newArrivals == [] && popularKeys == []
      ensures forall b :: b in buckets && buckets[b] == []
    {
      slideIndex := 0;
      buckets := map[Earrings := [], Necklaces := [], Pendants := [], Rings := [],
                     TempleJewellery := [], Bangles := [], Sarees := []];
      newArrivals := [];
      popularKeys := [];
      loading := true;
      new;
      EveryBucket(buckets);
    }

    /** `nextSlide`, and the five-second interval, which does the same. */
    method NextSlide()
      requires Valid()
      modifies this`slideIndex
      ensures Valid() && slideIndex == NextIndex(old(slideIndex), SLIDES)
    {
      slideIndex := (slideIndex + 1) % SLIDES;
    }

    method PrevSlide()
      requires Valid()
      modifies this`slideIndex
      ensures Valid() && slideIndex == PrevIndex(old(slideIndex), SLIDES)
    {
      slideIndex := (slideIndex - 1 + SLIDES) % SLIDES;
    }

    /** `setPopularByCategory` with the normalised reply. */
    method StorePopular(apiKeys: seq<string>)
      modifies this`popularKeys
      ensures popularKeys == PopularKeys(apiKeys)
    {
      popularKeys := PopularKeys(apiKeys);
    }

    /** `fetchProducts`: the product list, then the new arrivals, then the
        popular categories. An exception from the first request skips the
        other two. */
    method FetchProducts(products: Fetched<seq<Product>>, arrivals: Fetched<seq<Product>>, popular: Fetched<seq<string>>)
      modifies this`buckets, this`newArrivals, this`popularKeys, this`loading
      ensures !loading
      ensures products.Got? ==> Organized(buckets, products.value)
      ensures !products.Got? ==> buckets == old(buckets)
      ensures newArrivals == if !products.Threw? && arrivals.Got? then arrivals.value else old(newArrivals)
      ensures popularKeys == if !products.Threw? && popular.Got? then PopularKeys(popular.value) else old(popularKeys)
    {
      loading := true;
      if !products.Threw? {
        if products.Got? {
          buckets := Organize(products.value);
        }
        if arrivals.Got? {
          newArrivals := arrivals.value;
        }
        if popular.Got? {
          StorePopular(popular.value);
        }
      }
      loading := false;
    }
  }
}

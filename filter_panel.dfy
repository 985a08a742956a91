/** The filter panel beside the shop listing. It keeps its own copy of the
    filters (`filters`: price range, stock flag, sort key; never a category)
    and the price range the products allow (`priceRange`), and reports every
    edit to the shop as a `FilterUpdate`. */
module FilterPanel {
  import opened Common
  import opened Catalog
  import opened Shop

  /** `Math.min(Math.max(x, lo), hi)`. */
  function Clamp(x: real, lo: real, hi: real): (r: real)
    ensures lo <= hi ==> lo <= r <= hi
    ensures lo <= x <= hi ==> r == x
    ensures lo <= hi && x < lo ==> r == lo
    ensures hi < x || hi < lo ==> r == hi
  {
    MinReal(MaxReal(x, lo), hi)
  }

  /** The range after `handlePriceChange(index, value)`: the edited end is the
      clamped value (the allowed end itself when the value is not a number),
      and the other end is dragged along when the two would cross. */
  function PriceEdit(lo: real, hi: real, minAllowed: real, maxAllowed: real, index: int, parsed: Option<real>): (r: (real, real))
    requires index == 0 || index == 1
    ensures r.0 <= r.1
    ensures minAllowed <= lo && hi <= maxAllowed && minAllowed <= maxAllowed ==>
      minAllowed <= r.0 && r.1 <= maxAllowed
    // the edited end: the allowed end for a non-number, else the clamped value
    ensures (if index == 0 then r.0 else r.1) ==
      if parsed.None? then (if index == 0 then minAllowed else maxAllowed)
      else Clamp(parsed.value, minAllowed, maxAllowed)
    // the other end stays unless the edited end crosses it, and then meets it
    ensures index == 0 ==> r.1 == if r.0 > hi then r.0 else hi
    ensures index == 1 ==> r.0 == if r.1 < lo then r.1 else lo
  {
    var v := if parsed.None? then (if index == 0 then minAllowed else maxAllowed)
             else Clamp(parsed.value, minAllowed, maxAllowed);
    if index == 0 then (v, if v > hi then v else hi)
    else (if v < lo then v else lo, v)
  }

  /** A number inside the allowed range that does not cross the other end is
      taken as it is. */
  lemma PriceEditKeepsValue(lo: real, hi: real, minAllowed: real, maxAllowed: real, index: int, v: real)
    requires index == 0 || index == 1
    requires minAllowed <= v <= maxAllowed
    requires index == 0 ==> v <= hi
    requires index == 1 ==> lo <= v
    ensures PriceEdit(lo, hi, minAllowed, maxAllowed, index, Some(v)) == if index == 0 then (v, hi) else (lo, v)
  {
  }

  /** Raising the minimum past the maximum moves both ends there; lowering the
      maximum below the minimum does the same. */
  lemma PriceEditCrossing(lo: real, hi: real, minAllowed: real, maxAllowed: real, index: int, v: real)
    requires index == 0 || index == 1
    requires minAllowed <= v <= maxAllowed
    requires index == 0 ==> v > hi
    requires index == 1 ==> v < lo
    ensures PriceEdit(lo, hi, minAllowed, maxAllowed, index, Some(v)) == (v, v)
  {
  }

  /** A number above the allowed range sets the edited end to the allowed
      maximum, one below it to the allowed minimum. */
  lemma PriceEditOutOfRange(lo: real, hi: real, minAllowed: real, maxAllowed: real, index: int, v: real)
    requires index == 0 || index == 1
    requires minAllowed <= maxAllowed && (v < minAllowed || maxAllowed < v)
    ensures var r := PriceEdit(lo, hi, minAllowed, maxAllowed, index, Some(v));
      (if index == 0 then r.0 else r.1) == if v < minAllowed then minAllowed else maxAllowed
  {
  }

  /** A value that is not a number resets the edited end to the allowed end. */
  lemma PriceEditNotANumber(lo: real, hi: real, minAllowed: real, maxAllowed: real, index: int)
    requires index == 0 || index == 1
    requires minAllowed <= lo <= hi <= maxAllowed
    ensures PriceEdit(lo, hi, minAllowed, maxAllowed, index, None) ==
      if index == 0 then (minAllowed, hi) else (lo, maxAllowed)
  {
  }

  /** Repeating an edit changes nothing further. */
  lemma PriceEditIdempotent(lo: real, hi: real, minAllowed: real, maxAllowed: real, index: int, parsed: Option<real>)
    requires index == 0 || index == 1
    ensures var r := PriceEdit(lo, hi, minAllowed, maxAllowed, index, parsed);
      PriceEdit(r.0, r.1, minAllowed, maxAllowed, index, parsed) == r
  {
  }

  class Panel {
    var lo: real              // `filters.priceRange[0]`
    var hi: real              // `filters.priceRange[1]`
    var inStock: bool         // `filters.inStock`
    var sortBy: string        // `filters.sortBy`
    var minAllowed: real      // `priceRange[0]`
    var maxAllowed: real      // `priceRange[1]`

    /** The selected range lies inside the allowed one and is ordered. */
    ghost predicate Valid()
      reads this
    {
      minAllowed <= lo <= hi <= maxAllowed
    }

    /** The initial state: both ranges `[0, 200000]`, stock off, sort by name. */
    constructor ()
      ensures Valid()
      ensures lo == 0.0 && hi == PRICE_CAP as real && minAllowed == 0.0 && maxAllowed == PRICE_CAP as real
      ensures !inStock && sortBy == "name"
    {
      lo, hi := 0.0, PRICE_CAP as real;
      minAllowed, maxAllowed := 0.0, PRICE_CAP as real;
      inStock := false;
      sortBy := "name";
    }

    /** The effect run when the product list changes: both the allowed and the
        selected range become the list's price bounds. Nothing is reported. */
    method DeriveRange(products: seq<Product>)
      modifies this
      ensures Valid()
      ensures (minAllowed, maxAllowed) == (PriceBounds(products).0 as real, PriceBounds(products).1 as real)
      ensures lo == minAllowed && hi == maxAllowed
      ensures inStock == old(inStock) && sortBy == old(sortBy)
    {
      var bounds := PriceBounds(products);
      minAllowed, maxAllowed := bounds.0 as real, bounds.1 as real;
      lo, hi := minAllowed, maxAllowed;
    }

    /** `handlePriceChange(index, value)`; `parsed` is `Number(value)`, `None`
        when that is NaN. */
    method PriceChange(index: int, parsed: Option<real>) returns (u: FilterUpdate)
      requires Valid()
      requires index == 0 || index == 1
      modifies this
      ensures Valid()
      ensures (lo, hi) == PriceEdit(old(lo), old(hi), minAllowed, maxAllowed, index, parsed)
      ensures u == FilterUpdate(Some((lo, hi)), None, Some(inStock), Some(sortBy))
      ensures minAllowed == old(minAllowed) && maxAllowed == old(maxAllowed)
      ensures inStock == old(inStock) && sortBy == old(sortBy)
    {
      var next := new real[2];
      next[0], next[1] := lo, hi;
      if parsed.None? {
        next[index] := if index == 0 then minAllowed else maxAllowed;
      } else {
        next[index] := MinReal(MaxReal(parsed.value, minAllowed), maxAllowed);
      }
      if index == 0 && next[0] > next[1] {
        next[1] := next[0];
      } else if index == 1 && next[1] < next[0] {
        next[0] := next[1];
      }
      lo, hi := next[0], next[1];
      u := FilterUpdate(Some((lo, hi)), None, Some(inStock), Some(sortBy));
    }

    /** `handleStockChange(value)`. */
    method StockChange(value: bool) returns (u: FilterUpdate)
      modifies this
      ensures inStock == value
      ensures u == FilterUpdate(Some((lo, hi)), None, Some(value), Some(sortBy))
      ensures lo == old(lo) && hi == old(hi) && sortBy == old(sortBy)
      ensures minAllowed == old(minAllowed) && maxAllowed == old(maxAllowed)
    {
      inStock := value;
      u := FilterUpdate(Some((lo, hi)), None, Some(inStock), Some(sortBy));
    }

    /** `handleSortChange(value)`. */
    method SortChange(value: string) returns (u: FilterUpdate)
      modifies this
      ensures sortBy == value
      ensures u == FilterUpdate(Some((lo, hi)), None, Some(inStock), Some(value))
      ensures lo == old(lo) && hi == old(hi) && inStock == old(inStock)
      ensures minAllowed == old(minAllowed) && maxAllowed == old(maxAllowed)
    {
      sortBy := value;
      u := FilterUpdate(Some((lo, hi)), None, Some(inStock), Some(sortBy));
    }

    /** `handleCategoryChange(cat)`: the category is reported, not kept. */
    method CategoryChange(cat: string) returns (u: FilterUpdate)
      ensures u == FilterUpdate(Some((lo, hi)), Some(cat), Some(inStock), Some(sortBy))
    {
      u := FilterUpdate(Some((lo, hi)), Some(cat), Some(inStock), Some(sortBy));
    }

    /** `clearFilters`: the whole allowed range, stock off, sort by name, and
        category `'all'` in the report. */
    method ClearFilters() returns (u: FilterUpdate)
      requires Valid()
      modifies this
      ensures Valid() && lo == minAllowed && hi == maxAllowed && !inStock && sortBy == "name"
      ensures minAllowed == old(minAllowed) && maxAllowed == old(maxAllowed)
      ensures u == FilterUpdate(Some((minAllowed, maxAllowed)), Some("all"), Some(false), Some("name"))
    {
      lo, hi := minAllowed, maxAllowed;
      inStock := false;
      sortBy := "name";
      u := FilterUpdate(Some((minAllowed, maxAllowed)), Some("all"), Some(false), Some("name"));
    }
  }

  /** After a clear, the shop shows every category, in and out of stock, by
      name, over the whole allowed range, whatever it showed before. */
  lemma ClearResetsShop(prev: Filters, minAllowed: real, maxAllowed: real)
    ensures MergeFilters(prev, FilterUpdate(Some((minAllowed, maxAllowed)), Some("all"), Some(false), Some("name")))
      == Filters(minAllowed, maxAllowed, "all", false, "name")
  {
  }

  /** The panel's price, stock and sort edits never change the shop's category. */
  lemma PanelEditKeepsCategory(prev: Filters, lo: real, hi: real, inStock: bool, sortBy: string)
    ensures MergeFilters(prev, FilterUpdate(Some((lo, hi)), None, Some(inStock), Some(sortBy))).category == prev.category
  {
  }
}

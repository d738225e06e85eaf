/**
 * The recommended price of the market-price label
 * (components/dashboard/CoffeePriceLabel.tsx): the median of the found
 * products' prices per 100 g, rounded half up, or nothing when no product was
 * found. The search request itself is not part of this model; the product list
 * is a parameter.
 */
module CoffeePriceLabel {
  import opened Types
  import opened Numeric

  datatype Product = Product(
    shopName: string,
    productName: string,
    price: real,
    capacityG: real,
    unitPrice: real,
    url: string)

  /** `list.map(item => item.unit_price)`. */
  function UnitPrices(list: seq<Product>): (p: seq<real>)
    ensures |p| == |list|
    ensures forall k :: 0 <= k < |list| ==> p[k] == list[k].unitPrice
  {
    if list == [] then [] else [list[0].unitPrice] + UnitPrices(list[1..])
  }

  predicate Sorted(s: seq<real>) {
    forall i, j :: 0 <= i < j < |s| ==> s[i] <= s[j]
  }

  /** Puts x in front of the first element not below it. */
  function Insert(x: real, s: seq<real>): (r: seq<real>)
    requires Sorted(s)
    ensures Sorted(r)
    ensures multiset(r) == multiset(s) + multiset{x}
    ensures |r| == |s| + 1
    ensures s == [] || x <= s[0] ==> r[0] == x
    ensures s != [] && s[0] < x ==> r[0] == s[0]
  {
    if s == [] || x <= s[0] then
      PrependKeepsSorted(x, s);
      [x] + s
    else
      TailSorted(s);
      var t := Insert(x, s[1..]);
      InsertStep(x, s, t);
      [s[0]] + t
  }

  /** The recursive step of Insert: the head goes back in front of the tail with x inserted. */
  lemma InsertStep(x: real, s: seq<real>, t: seq<real>)
    requires Sorted(s) && s != [] && s[0] < x
    requires Sorted(t) && multiset(t) == multiset(s[1..]) + multiset{x} && |t| == |s|
    requires s[1..] == [] || x <= s[1..][0] ==> t[0] == x
    requires s[1..] != [] && s[1..][0] < x ==> t[0] == s[1..][0]
    ensures Sorted([s[0]] + t)
    ensures multiset([s[0]] + t) == multiset(s) + multiset{x}
  {
    assert s == [s[0]] + s[1..];
    assert multiset(s) == multiset{s[0]} + multiset(s[1..]);
    assert s[1..] != [] ==> s[1..][0] == s[1] && s[0] <= s[1];
    PrependKeepsSorted(s[0], t);
  }

  lemma TailSorted(s: seq<real>)
    requires Sorted(s) && s != []
    ensures Sorted(s[1..])
  {
  }

  lemma PrependKeepsSorted(y: real, t: seq<real>)
    requires Sorted(t) && (t != [] ==> y <= t[0])
    ensures Sorted([y] + t)
  {
    var r := [y] + t;
    forall i, j | 0 <= i < j < |r|
      ensures r[i] <= r[j]
    {
      if i == 0 {
        assert r[j] == t[j - 1] && t[0] <= t[j - 1];
      } else {
        assert r[i] == t[i - 1] && r[j] == t[j - 1];
      }
    }
  }

  /** `.sort((a, b) => a - b)`: ascending order, same elements. */
  function SortAscending(s: seq<real>): (r: seq<real>)
    ensures Sorted(r)
    ensures multiset(r) == multiset(s)
  {
    if s == [] then []
    else
      assert s == [s[0]] + s[1..];
      Insert(s[0], SortAscending(s[1..]))
  }

  /** The middle element of an odd-length list, the mean of the two middle ones of an even-length list. */
  function Median(sorted: seq<real>): real
    requires |sorted| > 0
  {
    var mid := |sorted| / 2;
    if |sorted| % 2 != 0 then sorted[mid] else (sorted[mid - 1] + sorted[mid]) / 2.0
  }

  /** The median splits a sorted list: the lower half is at most it, the upper half at least it. */
  lemma MedianSplits(sorted: seq<real>)
    requires |sorted| > 0 && Sorted(sorted)
    ensures forall i :: 0 <= i <= (|sorted| - 1) / 2 ==> sorted[i] <= Median(sorted)
    ensures forall i :: |sorted| / 2 <= i < |sorted| ==> Median(sorted) <= sorted[i]
  {
  }

  /** handleSearch's price: nothing for an empty list, else the rounded median of the sorted unit prices. */
  function RecommendedPrice(list: seq<Product>): (r: Option<int>)
    ensures r.None? <==> list == []
  {
    if |list| > 0 then Some(Round(Median(SortAscending(UnitPrices(list))))) else None
  }

  /** The first element of a sorted list is not above any of its elements. */
  lemma SortedHeadIsLeast(a: seq<real>, x: real)
    requires Sorted(a) && x in multiset(a)
    ensures a[0] <= x
  {
    var i :| 0 <= i < |a| && a[i] == x;
  }

  /** Two sorted lists with the same elements are the same list. */
  lemma {:induction false} SortedUnique(a: seq<real>, b: seq<real>)
    requires Sorted(a) && Sorted(b) && multiset(a) == multiset(b)
    ensures a == b
  {
    if a != [] {
      SameHeadSameTail(a, b);
      SortedUnique(a[1..], b[1..]);
    }
  }

  /** Sorted lists with the same elements start alike, and their tails again have the same elements. */
  lemma SameHeadSameTail(a: seq<real>, b: seq<real>)
    requires Sorted(a) && Sorted(b) && multiset(a) == multiset(b) && a != []
    ensures b != [] && a[0] == b[0] && multiset(a[1..]) == multiset(b[1..])
    ensures Sorted(a[1..]) && Sorted(b[1..])
  {
    assert |b| == |multiset(b)| == |multiset(a)| == |a|;
    assert a[0] in multiset(b) && b[0] in multiset(a);
    SortedHeadIsLeast(b, a[0]);
    SortedHeadIsLeast(a, b[0]);
    assert a == [a[0]] + a[1..] && b == [b[0]] + b[1..];
    CancelOne(a[0], multiset(a[1..]), multiset(b[1..]));
  }

  lemma CancelOne(x: real, p: multiset<real>, q: multiset<real>)
    requires multiset{x} + p == multiset{x} + q
    ensures p == q
  {
    forall y
      ensures p[y] == q[y]
    {
      assert (multiset{x} + p)[y] == (multiset{x} + q)[y];
    }
  }

  /** The recommendation depends only on which prices were found, not on the order the shops came back in. */
  lemma RecommendedIgnoresOrder(p: seq<Product>, q: seq<Product>)
    requires multiset(UnitPrices(p)) == multiset(UnitPrices(q))
    ensures RecommendedPrice(p) == RecommendedPrice(q)
  {
    assert |p| == |multiset(UnitPrices(p))| == |multiset(UnitPrices(q))| == |q|;
    SortedUnique(SortAscending(UnitPrices(p)), SortAscending(UnitPrices(q)));
  }

  /** Every element of a multiset-equal sequence is bounded as the original's elements are. */
  lemma SortKeepsBounds(s: seq<real>, lo: real, hi: real)
    requires forall k :: 0 <= k < |s| ==> lo <= s[k] <= hi
    ensures forall k :: 0 <= k < |SortAscending(s)| ==> lo <= SortAscending(s)[k] <= hi
  {
    var r := SortAscending(s);
    forall k | 0 <= k < |r|
      ensures lo <= r[k] <= hi
    {
      assert r[k] in multiset(s);
    }
  }

  /** With every unit price in [lo, hi], the recommendation lies in [lo, hi] up to the rounding half. */
  lemma RecommendedWithinRange(list: seq<Product>, lo: real, hi: real)
    requires list != []
    requires forall k :: 0 <= k < |list| ==> lo <= list[k].unitPrice <= hi
    ensures lo - 0.5 < RecommendedPrice(list).value as real <= hi + 0.5
  {
    var s := SortAscending(UnitPrices(list));
    assert |s| == |multiset(s)| == |list|;
    SortKeepsBounds(UnitPrices(list), lo, hi);
    MedianSplits(s);
    assert lo <= Median(s) <= hi;
  }

  /** A single product: its unit price, rounded, is the recommendation. */
  lemma SingleProduct(x: Product)
    ensures RecommendedPrice([x]) == Some(Round(x.unitPrice))
  {
    assert UnitPrices([x]) == [x.unitPrice];
  }

  /** Any ascending arrangement of the unit prices gives the recommendation. */
  lemma RecommendedFromAnySorting(list: seq<Product>, sorted: seq<real>)
    requires list != [] && Sorted(sorted) && multiset(sorted) == multiset(UnitPrices(list))
    ensures |sorted| == |list|
    ensures RecommendedPrice(list) == Some(Round(Median(sorted)))
  {
    assert |sorted| == |multiset(sorted)| == |list|;
    SortedUnique(SortAscending(UnitPrices(list)), sorted);
  }

  /** Two products: the midpoint of their unit prices, rounded. */
  lemma TwoProducts(list: seq<Product>)
    requires |list| == 2
    ensures RecommendedPrice(list) == Some(Round((list[0].unitPrice + list[1].unitPrice) / 2.0))
  {
    var a, b := list[0].unitPrice, list[1].unitPrice;
    var sorted := PairSorted(a, b);
    UnitPricesOfPair(list);
    assert multiset(sorted) == multiset(UnitPrices(list));
    RecommendedFromAnySorting(list, sorted);
    assert Median(sorted) == (a + b) / 2.0;
  }

  lemma UnitPricesOfPair(list: seq<Product>)
    requires |list| == 2
    ensures UnitPrices(list) == [list[0].unitPrice, list[1].unitPrice]
  {
  }

  function PairSorted(a: real, b: real): (s: seq<real>)
    ensures Sorted(s) && multiset(s) == multiset([a, b]) && |s| == 2
    ensures Median(s) == (a + b) / 2.0
  {
    if a <= b then [a, b] else [b, a]
  }
}

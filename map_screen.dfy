/** The map screen's list: the nearby items narrowed by a title search and
    a category chip, then, for two of the three filter options, sorted in
    place by distance or by price. */
module MapScreen {
  import opened Seqs
  import opened Text

  /** The fields of a nearby item the list reads (map offsets and ratings
      only place and decorate markers). */
  datatype MapItem = MapItem(id: string, title: string, distance: string, price: string,
                             category: string, lender: string, image: string)

  /** `RAW_ITEMS`. */
  function RawItems(): (items: seq<MapItem>)
    ensures |items| == 5
  {
    [MapItem("1", "Calculus Book", "200m", "Free", "Books", "Sarah",
             Unsplash("photo-1544947950-fa07a98d237f", "600")),
     MapItem("2", "HDMI Cable", "450m", "Free", "Tech", "Mike",
             Unsplash("photo-1558591710-4b4a1ae0f04d", "600")),
     MapItem("3", "Cricket Bat", "1.2km", "\U{20B9}50/d", "Sports", "Rohan",
             Unsplash("photo-1531415074968-036ba1b575da", "600")),
     MapItem("4", "Lab Coat", "800m", "\U{20B9}20/d", "Lab", "Emily",
             Unsplash("photo-1584634731339-252c581abfc5", "600")),
     MapItem("5", "Scientific Calc", "300m", "\U{20B9}10/d", "Tech", "John",
             Unsplash("photo-1587145820266-a5951ee1f620", "600"))]
  }

  const DistanceOption: string := "Distance: Near to Far"
  const PriceOption: string := "Price: Low to High"

  // ---------------------------------------------------------------------
  // The filter
  // ---------------------------------------------------------------------

  /** `matchSearch && matchCat`. */
  predicate Matches(item: MapItem, query: string, category: string) {
    Contains(Lower(item.title), Lower(query)) && (category == "All" || item.category == category)
  }

  /** `RAW_ITEMS.filter(…)`, over any item list. */
  function Filtered(items: seq<MapItem>, query: string, category: string): seq<MapItem> {
    Filter(items, (item: MapItem) => Matches(item, query, category))
  }

  /** The filter keeps the matching items, in their order, and only those. */
  lemma FilteredIsMatchingSubsequence(items: seq<MapItem>, query: string, category: string)
    ensures IsSubsequence(Filtered(items, query, category), items)
    ensures forall x :: x in Filtered(items, query, category) <==>
      x in items && Contains(Lower(x.title), Lower(query)) && (category == "All" || x.category == category)
  {
    var p := (item: MapItem) => Matches(item, query, category);
    FilterIsSubsequence(items, p);
    forall x ensures x in Filter(items, p) <==> x in items && p(x) {
      FilterMembership(items, p, x);
    }
  }

  /** No nearby item is fashion, whatever is searched. */
  lemma FashionIsEmpty(query: string)
    ensures Filtered(RawItems(), query, "Fashion") == []
  {
  }

  // ---------------------------------------------------------------------
  // Sort keys
  // ---------------------------------------------------------------------

  /** `parseFloat` of a number written with at most one decimal, in tenths;
      a second decimal and beyond are not read. */
  function Tenths(s: string): nat {
    var ip := LeadingDigits(s);
    var rest := s[|ip|..];
    DecimalValue(ip) * 10 + (if |rest| >= 2 && rest[0] == '.' && IsDigit(rest[1]) then DigitValue(rest[1]) else 0)
  }

  /** The distance comparator's key, in decimetres: a distance containing
      `km` is scaled by 1000. */
  function DistanceKey(distance: string): nat {
    if Contains(distance, "km") then Tenths(distance) * 1000 else Tenths(distance)
  }

  /** The price comparator's key: `'Free'` is 0, anything else the number
      its digits spell. */
  function PriceKey(price: string): nat {
    if price == "Free" then 0 else DigitsValue(price)
  }

  datatype SortKey = ByDistance | ByPrice

  /** A whole number of metres, `"<n>m"`. */
  lemma DistanceInMetres(n: nat)
    ensures DistanceKey(Decimal(n) + "m") == 10 * n
  {
    var s := Decimal(n) + "m";
    LeadingDigitsOf(Decimal(n), "m");
    assert s[|Decimal(n)|..] == "m";
    DecimalRoundTrip(n);
    assert 'k' !in s by {
      forall i | 0 <= i < |s| ensures s[i] != 'k' {
        if i < |Decimal(n)| {
          assert IsDigit(Decimal(n)[i]);
        }
      }
    }
    MissingFirstNotContains(s, "km");
  }

  /** Kilometres with one decimal, `"<n>.<f>km"`: the same scale as metres. */
  lemma DistanceInKilometres(n: nat, f: nat)
    requires f < 10
    ensures DistanceKey(Decimal(n) + "." + [DigitChar(f)] + "km") == 10 * (1000 * n + 100 * f)
  {
    var tail := "." + [DigitChar(f)] + "km";
    var s := Decimal(n) + "." + [DigitChar(f)] + "km";
    assert s == Decimal(n) + tail;
    LeadingDigitsOf(Decimal(n), tail);
    assert s[|Decimal(n)|..] == tail;
    DecimalRoundTrip(n);
    assert OccursAt(s, "km", |s| - 2) by {
      assert s[|s| - 2..|s|] == "km";
    }
    OccurrenceIsContained(s, "km", |s| - 2);
  }

  /** The distance keys of the nearby items given in metres: 200 m,
      450 m, 800 m and 300 m. */
  lemma RawMetreKeys()
    ensures DistanceKey("200m") == 2000 && DistanceKey("450m") == 4500
    ensures DistanceKey("800m") == 8000 && DistanceKey("300m") == 3000
  {
    MetresKey(2, 0, 0);
    MetresKey(4, 5, 0);
    MetresKey(8, 0, 0);
    MetresKey(3, 0, 0);
  }

  /** The distance key of the one nearby item given in kilometres:
      1.2 km, scaled to metres. */
  lemma RawKilometreKey()
    ensures DistanceKey("1.2km") == 12000
  {
    KilometresKey(1, 2);
  }

  /** `"<h><t><u>m"`, three digits of metres. */
  lemma MetresKey(h: nat, t: nat, u: nat)
    requires 0 < h < 10 && t < 10 && u < 10
    ensures DistanceKey([DigitChar(h), DigitChar(t), DigitChar(u), 'm']) == 10 * (100 * h + 10 * t + u)
  {
    var n := 100 * h + 10 * t + u;
    assert n / 10 == 10 * h + t && n % 10 == u;
    assert (10 * h + t) / 10 == h && (10 * h + t) % 10 == t;
    assert Decimal(10 * h + t) == [DigitChar(h), DigitChar(t)];
    assert Decimal(n) == Decimal(10 * h + t) + [DigitChar(u)];
    assert Decimal(n) + "m" == [DigitChar(h), DigitChar(t), DigitChar(u), 'm'];
    DistanceInMetres(n);
  }

  /** `"<n>.<f>km"` for a one-digit `n`. */
  lemma KilometresKey(n: nat, f: nat)
    requires 0 < n < 10 && f < 10
    ensures DistanceKey([DigitChar(n), '.', DigitChar(f), 'k', 'm']) == 10 * (1000 * n + 100 * f)
  {
    assert Decimal(n) + "." + [DigitChar(f)] + "km" == [DigitChar(n), '.', DigitChar(f), 'k', 'm'];
    DistanceInKilometres(n, f);
  }

  /** The price keys of the nearby items: 0, 0, 50, 20 and 10. */
  lemma RawPriceKeys()
    ensures PriceKey("Free") == 0
    ensures PriceKey([Rupee] + "50/d") == 50 && PriceKey([Rupee] + "20/d") == 20
    ensures PriceKey([Rupee] + "10/d") == 10
  {
    TensPerDayKey(5);
    TensPerDayKey(2);
    TensPerDayKey(1);
  }

  /** `"₹<t>0/d"`. */
  lemma TensPerDayKey(t: nat)
    requires 0 < t < 10
    ensures PriceKey([Rupee, DigitChar(t), '0', '/', 'd']) == 10 * t
  {
    assert (10 * t) / 10 == t && (10 * t) % 10 == 0;
    assert Decimal(10 * t) == [DigitChar(t), DigitChar(0)];
    assert [Rupee] + Decimal(10 * t) + "/d" == [Rupee, DigitChar(t), '0', '/', 'd'];
    RupeePerDayKey(10 * t);
  }

  lemma RupeePerDayKey(n: nat)
    ensures PriceKey([Rupee] + Decimal(n) + "/d") == n
  {
    var price := [Rupee] + Decimal(n) + "/d";
    assert price[0] != 'F';
    DigitsConcat([Rupee] + Decimal(n), "/d");
    assert Digits("/d") == "";
    assert Digits([Rupee] + Decimal(n)) + "" == Digits([Rupee] + Decimal(n));
    RupeeAmountRoundTrip(n);
  }

  /** The comparator of the chosen sort compares numbers: every price
      other than `'Free'` has a digit, every distance starts with one. */
  predicate Comparable(order: SortKey, item: MapItem) {
    match order
    case ByDistance => LeadingDigits(item.distance) != ""
    case ByPrice => item.price == "Free" || Digits(item.price) != ""
  }

  // ---------------------------------------------------------------------
  // The in-place sort
  // ---------------------------------------------------------------------

  function DistanceOf(item: MapItem): nat {
    DistanceKey(item.distance)
  }

  function PriceOf(item: MapItem): nat {
    PriceKey(item.price)
  }

  ghost predicate SortedBy(s: seq<MapItem>, key: MapItem -> nat) {
    forall p, q :: 0 <= p < q < |s| ==> key(s[p]) <= key(s[q])
  }

  /** Moves `a[i]` down past every element before it with a larger key, so
      that `a[..i+1]` is sorted when `a[..i]` was; equal keys keep their
      order. */
  method InsertAt(a: array<MapItem>, i: int, key: MapItem -> nat)
    requires 0 < i < a.Length && SortedBy(a[..i], key)
    modifies a
    ensures SortedBy(a[..i + 1], key)
    ensures a[i + 1..] == old(a[i + 1..])
    ensures multiset(a[..]) == old(multiset(a[..]))
  {
    var j := i;
    while j > 0 && key(a[j - 1]) > key(a[j])
      invariant 0 <= j <= i
      invariant forall p, q :: 0 <= p < q <= i && p != j && q != j ==> key(a[p]) <= key(a[q])
      invariant forall q :: j < q <= i ==> key(a[j]) <= key(a[q])
      invariant a[i + 1..] == old(a[i + 1..])
      invariant multiset(a[..]) == old(multiset(a[..]))
      decreases j
    {
      Swap(a, j);
      j := j - 1;
    }
  }

  /** Exchanges `a[j-1]` and `a[j]`. */
  method Swap(a: array<MapItem>, j: int)
    requires 0 < j < a.Length
    modifies a
    ensures a[j - 1] == old(a[j]) && a[j] == old(a[j - 1])
    ensures forall k :: 0 <= k < a.Length && k != j - 1 && k != j ==> a[k] == old(a[k])
    ensures multiset(a[..]) == old(multiset(a[..]))
  {
    a[j - 1], a[j] := a[j], a[j - 1];
  }

  /** `result.sort((a, b) => key(a) - key(b))`. */
  method SortBy(a: array<MapItem>, key: MapItem -> nat)
    modifies a
    ensures SortedBy(a[..], key)
    ensures multiset(a[..]) == old(multiset(a[..]))
  {
    var i := 1;
    while i < a.Length
      invariant 1 <= i && (a.Length == 0 || i <= a.Length)
      invariant a.Length == 0 || SortedBy(a[..i], key)
      invariant multiset(a[..]) == old(multiset(a[..]))
    {
      InsertAt(a, i, key);
      i := i + 1;
    }
    assert a.Length == 0 || a[..] == a[..i];
  }

  /** `filteredItems`: filter, then sort by the active option; the
      recommended order, or an option not listed, keeps the filter's order. */
  method FilteredItems(items: seq<MapItem>, query: string, category: string, activeFilter: string)
    returns (result: seq<MapItem>)
    requires activeFilter == DistanceOption ==> forall i :: 0 <= i < |items| ==> Comparable(ByDistance, items[i])
    requires activeFilter == PriceOption ==> forall i :: 0 <= i < |items| ==> Comparable(ByPrice, items[i])
    ensures multiset(result) == multiset(Filtered(items, query, category))
    ensures activeFilter != DistanceOption && activeFilter != PriceOption ==> result == Filtered(items, query, category)
    ensures activeFilter == DistanceOption ==> SortedBy(result, DistanceOf)
    ensures activeFilter == PriceOption ==> SortedBy(result, PriceOf)
  {
    var f := Filtered(items, query, category);
    var a := new MapItem[|f|](i requires 0 <= i < |f| => f[i]);
    assert a[..] == f;
    if activeFilter == DistanceOption {
      SortBy(a, DistanceOf);
    } else if activeFilter == PriceOption {
      SortBy(a, PriceOf);
    }
    result := a[..];
  }

  /** Every nearby item is comparable under both sorts. */
  lemma RawItemsComparable(order: SortKey)
    ensures forall i :: 0 <= i < |RawItems()| ==> Comparable(order, RawItems()[i])
  {
    var items := RawItems();
    forall i | 0 <= i < |items| ensures Comparable(order, items[i]) {
      if order == ByDistance {
        assert IsDigit(items[i].distance[0]);
      } else if i >= 2 {
        RawPriceKeys();
        assert Digits(items[i].price) != "";
      }
    }
  }
}

/** The product details screen: recommendations from the same category,
    the rental duration stepper, the rental total, and the record handed
    to the payment screen. */
module ProductDetails {
  import opened Seqs
  import opened Text
  import Payment

  /** An entry of the recommendation catalogue. */
  datatype DbProduct = DbProduct(id: string, title: string, price: string, image: string, category: string)

  /** `DATABASE_PRODUCTS`. */
  function DatabaseProducts(): (ps: seq<DbProduct>)
    ensures |ps| == 6
  {
    [DbProduct("t1", "Canon EOS R5", "\U{20B9}2200/d",
               Unsplash("photo-1516035069371-29a1b244cc32", "400"), "Tech"),
     DbProduct("t2", "DJI Ronin S", "\U{20B9}800/d",
               Unsplash("photo-1564466021184-1f26447d0d7c", "400"), "Tech"),
     DbProduct("t3", "MacBook Pro M2", "\U{20B9}2500/d",
               Unsplash("photo-1517336714731-489689fd1ca4", "400"), "Tech"),
     DbProduct("s1", "Yonex Badminton Set", "\U{20B9}200/d",
               Unsplash("photo-1626224583764-847890e045b5", "400"), "Sports"),
     DbProduct("s2", "Cricket Kit (Full)", "\U{20B9}500/d",
               Unsplash("photo-1531415074968-036ba1b575da", "400"), "Sports"),
     DbProduct("f1", "Designer Tuxedo", "\U{20B9}1200/d",
               Unsplash("photo-1594938298603-c8148c4dae35", "400"), "Fashion")]
  }

  /** The item the screen shows, as parsed from its navigation parameter.
      A missing field is "". */
  datatype DetailItem = DetailItem(id: string, title: string, price: string, image: string,
                                   lender: string, category: string, description: string)

  /** `MOCK_ITEM_DEFAULT`. */
  function DefaultItem(): DetailItem {
    DetailItem("default-1", "Sony Alpha a7 III (Demo)", "\U{20B9}1500/day",
               Unsplash("photo-1516035069371-29a1b244cc32", "800"),
               "Rahul Verma", "Tech",
               "Full frame mirrorless camera. " + "Excellent condition. " +
               "Comes with 28-70mm lens kit and extra battery.")
  }

  /** `parsed || MOCK_ITEM_DEFAULT`: no parameter, or one that does not
      parse, shows the demo item. */
  function ShownItem(parsed: Option<DetailItem>): (item: DetailItem)
    ensures parsed.None? ==> item == DefaultItem()
    ensures parsed.Some? ==> item == parsed.value
  {
    match parsed
    case Some(it) => it
    case None => DefaultItem()
  }

  // ---------------------------------------------------------------------
  // Recommendations
  // ---------------------------------------------------------------------

  /** `item.category || 'Tech'`. */
  function CategoryOf(item: DetailItem): (c: string)
    ensures c != ""
    ensures item.category != "" ==> c == item.category
    ensures item.category == "" ==> c == "Tech"
  {
    if item.category != "" then item.category else "Tech"
  }

  predicate IsSimilar(p: DbProduct, item: DetailItem) {
    p.category == CategoryOf(item) && p.id != item.id
  }

  /** `similarProducts`. */
  function SimilarProducts(item: DetailItem): seq<DbProduct> {
    Filter(DatabaseProducts(), (p: DbProduct) => IsSimilar(p, item))
  }

  /** Recommendations are catalogue entries in catalogue order, and a
      catalogue entry is recommended exactly when it is in the item's
      category and is not the item itself. */
  lemma SimilarProductsSpec(item: DetailItem)
    ensures IsSubsequence(SimilarProducts(item), DatabaseProducts())
    ensures forall p :: p in SimilarProducts(item) <==>
      p in DatabaseProducts() && p.category == CategoryOf(item) && p.id != item.id
  {
    var test := (p: DbProduct) => IsSimilar(p, item);
    FilterIsSubsequence(DatabaseProducts(), test);
    forall p ensures p in Filter(DatabaseProducts(), test) <==> p in DatabaseProducts() && test(p) {
      FilterMembership(DatabaseProducts(), test, p);
    }
  }

  // ---------------------------------------------------------------------
  // Duration
  // ---------------------------------------------------------------------

  /** The minus button: `Math.max(1, duration - 1)`. */
  function Decrement(d: int): (r: int)
    ensures r >= 1
    ensures d > 1 ==> r == d - 1
    ensures d <= 1 ==> r == 1
  {
    if d - 1 >= 1 then d - 1 else 1
  }

  /** The plus button: `duration + 1`. */
  function Increment(d: int): (r: int)
    ensures r == d + 1
  {
    d + 1
  }

  /** The duration after a run of button presses (`true` for plus) from the
      initial 1. */
  function AfterPresses(presses: seq<bool>): int
    decreases |presses|
  {
    if |presses| == 0 then 1
    else
      var d := AfterPresses(presses[..|presses| - 1]);
      if presses[|presses| - 1] then Increment(d) else Decrement(d)
  }

  /** Whatever the user presses, the duration stays at least one day. */
  lemma {:induction false} DurationAtLeastOne(presses: seq<bool>)
    ensures AfterPresses(presses) >= 1
    decreases |presses|
  {
    if |presses| > 0 {
      DurationAtLeastOne(presses[..|presses| - 1]);
    }
  }

  /** Minus at one day does nothing; plus then minus returns to where it
      started. */
  lemma StepperInverse(d: int)
    requires d >= 1
    ensures Decrement(1) == 1
    ensures Decrement(Increment(d)) == d
  {
  }

  // ---------------------------------------------------------------------
  // Price and the rental record
  // ---------------------------------------------------------------------

  /** `basePrice * duration`, with the payment screen's digit parse. */
  function TotalPrice(item: DetailItem, duration: nat): (t: nat)
    ensures duration == 1 ==> t == Payment.BasePrice(item.price)
  {
    Payment.BasePrice(item.price) * duration
  }

  /** `{...item, price: `₹${totalPrice}`, duration}`.  The date range it
      also carries is left out. */
  datatype Rental = Rental(item: DetailItem, duration: nat)

  function RentalData(item: DetailItem, duration: nat): (r: Rental)
    ensures r.duration == duration
    ensures r.item.(price := item.price) == item
  {
    Rental(item.(price := [Rupee] + Decimal(TotalPrice(item, duration))), duration)
  }

  /** The item the payment screen reads from the rental parameter. */
  function ToPaymentItem(r: Rental): Payment.Item {
    Payment.Item(r.item.title, r.item.price, r.item.lender)
  }

  /** The digit strip of the rental price recovers the rental total. */
  lemma RentalPriceRoundTrip(item: DetailItem, duration: nat)
    ensures Payment.BasePrice(RentalData(item, duration).item.price) == TotalPrice(item, duration)
  {
    Payment.BasePriceOfRupeeAmount(TotalPrice(item, duration));
  }

  /** The payment screen charges the rental total plus the two fees, and
      names the same lender and title as the details screen. */
  lemma RentThenPay(item: DetailItem, duration: nat)
    ensures var p := ToPaymentItem(RentalData(item, duration));
      && Payment.Total(p.price) == Payment.BasePrice(item.price) * duration + Payment.ServiceFee + Payment.SecurityDeposit
      && p.lender == item.lender && p.title == item.title
  {
    RentalPriceRoundTrip(item, duration);
  }
}

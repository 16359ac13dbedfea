/** The "all products" feed: the user's own listings followed by a fixed
    set of static products, narrowed by a category chip and a
    case-insensitive title search, plus the screen's list of liked ids. */
module AllProducts {
  import opened Seqs
  import opened Text
  import Inventory

  /** The fields of a feed entry the screen reads.  A missing field is "". */
  datatype FeedItem = FeedItem(id: string, title: string, category: string, price: string,
                               image: string, lender: string)

  function FromListing(l: Inventory.Listing): FeedItem {
    FeedItem(l.id, l.title, l.category, l.price, l.image, l.lender)
  }

  /** `STATIC_PRODUCTS`. */
  function StaticProducts(): (ps: seq<FeedItem>)
    ensures |ps| == 3
  {
    [FeedItem("s3", "Yonex Badminton Set", "Sports", "\U{20B9}30/hr",
              Unsplash("photo-1626224583764-84786c713664", "600"), "Rohan"),
     FeedItem("s4", "Lab Coat (M)", "Lab", "\U{20B9}20/d",
              Unsplash("photo-1584634731339-252c581abfc5", "600"), "Emily"),
     FeedItem("s6", "PS5 Controller", "Gaming", "\U{20B9}80/d",
              Unsplash("photo-1606318801954-d46d46d3360a", "600"), "GamerX")]
  }

  function FromListings(inv: seq<Inventory.Listing>): (r: seq<FeedItem>)
    ensures |r| == |inv|
    ensures forall i :: 0 <= i < |inv| ==> r[i] == FromListing(inv[i])
  {
    seq(|inv|, i requires 0 <= i < |inv| => FromListing(inv[i]))
  }

  /** `[...GlobalInventory, ...STATIC_PRODUCTS]`. */
  function Feed(inv: seq<Inventory.Listing>): seq<FeedItem> {
    FromListings(inv) + StaticProducts()
  }

  /** The inventory comes first, in its order, then the static products. */
  lemma FeedLayout(inv: seq<Inventory.Listing>)
    ensures var f := Feed(inv);
      && |f| == |inv| + |StaticProducts()|
      && (forall i :: 0 <= i < |inv| ==> f[i] == FromListing(inv[i]))
      && f[|inv|..] == StaticProducts()
  {
  }

  /** `matchCat && matchSearch` of the filter. */
  predicate Matches(item: FeedItem, category: string, query: string) {
    && (category == "All" || (item.category != "" && item.category == category))
    && item.title != ""
    && Contains(Lower(item.title), Lower(query))
  }

  /** `allData.filter(…)`. */
  function Filtered(feed: seq<FeedItem>, category: string, query: string): seq<FeedItem> {
    Filter(feed, (item: FeedItem) => Matches(item, category, query))
  }

  /** The filtered list is the feed with some entries dropped, order kept,
      and an entry is in it exactly when it is in the feed and passes both
      tests. */
  lemma FilteredIsMatchingSubsequence(feed: seq<FeedItem>, category: string, query: string)
    ensures IsSubsequence(Filtered(feed, category, query), feed)
    ensures forall x :: x in Filtered(feed, category, query) <==>
      x in feed
      && (category == "All" || (x.category != "" && x.category == category))
      && x.title != "" && Contains(Lower(x.title), Lower(query))
  {
    var p := (item: FeedItem) => Matches(item, category, query);
    FilterIsSubsequence(feed, p);
    forall x ensures x in Filter(feed, p) <==> x in feed && p(x) {
      FilterMembership(feed, p, x);
    }
  }

  /** With every category and no query, exactly the titled entries stay. */
  lemma EverythingTitled(feed: seq<FeedItem>)
    ensures forall x :: x in Filtered(feed, "All", "") <==> x in feed && x.title != ""
  {
    forall x ensures x in Filtered(feed, "All", "") <==> x in feed && x.title != "" {
      FilterMembership(feed, (item: FeedItem) => Matches(item, "All", ""), x);
      ContainsEmpty(Lower(x.title));
    }
  }

  /** Typing more can only narrow the list. */
  lemma LongerQueryNarrows(feed: seq<FeedItem>, category: string, q: string, t: string)
    ensures IsSubsequence(Filtered(feed, category, q + t), Filtered(feed, category, q))
  {
    forall x | Matches(x, category, q + t) ensures Matches(x, category, q) {
      LowerConcat(q, t);
      ContainsPrefixOfPattern(Lower(x.title), Lower(q), Lower(t));
    }
    FilterStricter(feed, (item: FeedItem) => Matches(item, category, q + t),
                   (item: FeedItem) => Matches(item, category, q));
  }

  // ---------------------------------------------------------------------
  // Likes
  // ---------------------------------------------------------------------

  /** `prev.includes(id) ? prev.filter(i => i !== id) : [...prev, id]`. */
  function ToggleLike(liked: seq<string>, id: string): seq<string> {
    if id in liked then Filter(liked, (i: string) => i != id) else liked + [id]
  }

  /** The toggled id flips membership; every other id keeps it. */
  lemma ToggleLikeMembership(liked: seq<string>, id: string)
    ensures id in ToggleLike(liked, id) <==> id !in liked
    ensures forall x :: x != id ==> (x in ToggleLike(liked, id) <==> x in liked)
  {
    forall x ensures x in Filter(liked, (i: string) => i != id) <==> x in liked && x != id {
      FilterMembership(liked, (i: string) => i != id, x);
    }
  }

  /** Liking never lists an id twice. */
  lemma ToggleLikeDistinct(liked: seq<string>, id: string)
    requires Distinct(liked)
    ensures Distinct(ToggleLike(liked, id))
  {
    if id in liked {
      FilterDistinct(liked, (i: string) => i != id);
    } else {
      var r := liked + [id];
      forall i, j | 0 <= i < j < |r| ensures r[i] != r[j] {
        if j == |liked| {
          assert r[i] == liked[i];
        }
      }
    }
  }

  /** Toggling twice restores which ids are liked; liking an id and then
      unliking it restores the list itself. */
  lemma ToggleLikeTwice(liked: seq<string>, id: string)
    ensures forall x :: x in ToggleLike(ToggleLike(liked, id), id) <==> x in liked
    ensures id !in liked ==> ToggleLike(ToggleLike(liked, id), id) == liked
  {
    ToggleLikeMembership(liked, id);
    ToggleLikeMembership(ToggleLike(liked, id), id);
    if id !in liked {
      var p := (i: string) => i != id;
      FilterKeepsAll(liked, p);
      FilterAppendLast(liked, id, p);
    }
  }
}

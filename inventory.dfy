/** The shared inventory of the user's own listings and the "my products"
    screen that edits it: delete by id, save an edit (title, daily price,
    blocked calendar days, and the status they imply), the QR-scan status
    flip, and the 28-day blocking calendar.  The inventory starts as the
    two seeded listings. */
module Inventory {
  import opened Seqs
  import opened Text

  /** The calendar shows the days 1 to 28. */
  const TotalDays: int := 28

  datatype Status = Available | Rented | Blocked

  /** One listing.  A listing that was never edited has no blocked days;
      that is written `[]` here. */
  datatype Listing = Listing(id: string, title: string, price: string, status: Status,
                             category: string, image: string, lender: string, blockedDays: seq<int>)

  /** The inventory the app starts with. */
  function Seed(): (ls: seq<Listing>)
    ensures Distinct(Ids(ls))
  {
    [Listing("1", "Calculus Textbook", "\U{20B9}50/day", Available, "Books",
             Unsplash("photo-1544947950-fa07a98d237f", "600"), "Sarah", []),
     Listing("2", "Graphing Calculator", "\U{20B9}20/hr", Rented, "Tech",
             Unsplash("photo-1587145820266-a5951ee1f620", "600"), "Mike", [])]
  }

  function Ids(ls: seq<Listing>): (r: seq<string>)
    ensures |r| == |ls|
    ensures forall i :: 0 <= i < |ls| ==> r[i] == ls[i].id
  {
    seq(|ls|, i requires 0 <= i < |ls| => ls[i].id)
  }

  /** `findIndex(i => i.id === id)`. */
  function FindIndex(ls: seq<Listing>, id: string): (k: int)
    ensures -1 <= k < |ls|
    ensures k == -1 <==> id !in Ids(ls)
    ensures 0 <= k ==> ls[k].id == id && forall j :: 0 <= j < k ==> ls[j].id != id
  {
    var k := IndexOf(Ids(ls), id);
    assert 0 <= k ==> forall j :: 0 <= j < k ==> Ids(ls)[..k][j] == ls[j].id;
    k
  }

  // ---------------------------------------------------------------------
  // Delete
  // ---------------------------------------------------------------------

  /** The inventory after a confirmed delete of `id`. */
  function WithoutId(ls: seq<Listing>, id: string): (r: seq<Listing>)
    ensures |r| == if id in Ids(ls) then |ls| - 1 else |ls|
  {
    var k := FindIndex(ls, id);
    if k < 0 then ls else RemoveAt(ls, k)
  }

  /** An absent id changes nothing; a present one takes out exactly one
      listing, the first with that id, and keeps the rest in order. */
  lemma DeleteRemovesFirst(ls: seq<Listing>, id: string)
    ensures id !in Ids(ls) ==> WithoutId(ls, id) == ls
    ensures id in Ids(ls) ==>
      var r, k := WithoutId(ls, id), FindIndex(ls, id);
      && |r| == |ls| - 1
      && IsSubsequence(r, ls)
      && multiset(r) + multiset{ls[k]} == multiset(ls)
      && r[..k] == ls[..k]
      && r == ls[..k] + ls[k + 1..]
  {
    var k := FindIndex(ls, id);
    if k >= 0 {
      RemoveAtIsSubsequence(ls, k);
    }
  }

  /** With distinct ids, the listing with `id` is gone and every other
      listing is still there. */
  lemma DeleteDistinct(ls: seq<Listing>, id: string, x: Listing)
    requires Distinct(Ids(ls))
    ensures x in WithoutId(ls, id) <==> x in ls && x.id != id
  {
    if x in WithoutId(ls, id) {
      DeleteOnlyDropsId(ls, id, x);
    }
    if x in ls && x.id != id {
      DeleteKeepsOthers(ls, id, x);
    }
  }

  lemma IdInIds(ls: seq<Listing>, x: Listing)
    requires x in ls
    ensures x.id in Ids(ls)
  {
    var i :| 0 <= i < |ls| && ls[i] == x;
    assert Ids(ls)[i] == x.id;
  }

  lemma IdsRemoveAt(ls: seq<Listing>, k: nat)
    requires k < |ls|
    ensures Ids(RemoveAt(ls, k)) == RemoveAt(Ids(ls), k)
  {
  }

  lemma DeleteOnlyDropsId(ls: seq<Listing>, id: string, x: Listing)
    requires Distinct(Ids(ls)) && x in WithoutId(ls, id)
    ensures x in ls && x.id != id
  {
    var k := FindIndex(ls, id);
    if k >= 0 {
      RemoveAtOthers(ls, k, x);
    } else {
      IdInIds(ls, x);
    }
  }

  /** With distinct ids, what is left after taking out position `k` was
      in the list and has another id. */
  lemma RemoveAtOthers(ls: seq<Listing>, k: nat, x: Listing)
    requires k < |ls| && Distinct(Ids(ls)) && x in RemoveAt(ls, k)
    ensures x in ls && x.id != ls[k].id
  {
    var r := RemoveAt(ls, k);
    RemoveAtIsSubsequence(ls, k);
    SubsequenceElements(r, ls, x);
    IdsRemoveAt(ls, k);
    RemoveAtDistinct(Ids(ls), k);
    IdInIds(r, x);
  }

  lemma DeleteKeepsOthers(ls: seq<Listing>, id: string, x: Listing)
    requires x in ls && x.id != id
    ensures x in WithoutId(ls, id)
  {
    var k := FindIndex(ls, id);
    if k >= 0 {
      RemoveAtKeeps(ls, k, x);
    }
  }

  // ---------------------------------------------------------------------
  // Save an edit
  // ---------------------------------------------------------------------

  /** `target` after `saveChanges` with the edit form's values. */
  function Saved(l: Listing, title: string, editPrice: string, days: seq<int>): (r: Listing)
    ensures r.status == Blocked <==> |days| > 0
    ensures r.status != Rented
    ensures r.title == title && r.price == [Rupee] + editPrice + "/day" && r.blockedDays == days
    ensures r.id == l.id && r.category == l.category && r.image == l.image && r.lender == l.lender
  {
    l.(title := title, price := [Rupee] + editPrice + "/day", blockedDays := days,
       status := if |days| > 0 then Blocked else Available)
  }

  /** The inventory after saving an edit of the listing `id`. */
  function WithSaved(ls: seq<Listing>, id: string, title: string, editPrice: string, days: seq<int>): (r: seq<Listing>)
    ensures Ids(r) == Ids(ls)
  {
    var k := FindIndex(ls, id);
    if k < 0 then ls else ls[k := Saved(ls[k], title, editPrice, days)]
  }

  /** Saving changes the first listing with the id and no other; a missing
      id changes nothing. */
  lemma SaveChangesOnlyTarget(ls: seq<Listing>, id: string, title: string, editPrice: string, days: seq<int>)
    ensures var r, k := WithSaved(ls, id, title, editPrice, days), FindIndex(ls, id);
      && |r| == |ls| && Ids(r) == Ids(ls)
      && (forall i :: 0 <= i < |ls| && i != k ==> r[i] == ls[i])
      && (k >= 0 ==> r[k] == Saved(ls[k], title, editPrice, days))
  {
  }

  // ---------------------------------------------------------------------
  // QR scan: hand-over and return
  // ---------------------------------------------------------------------

  /** `status === 'Available' ? 'Rented' : 'Available'`. */
  function Flip(s: Status): (r: Status)
    ensures s == Available ==> r == Rented
    ensures s != Available ==> r == Available
  {
    if s == Available then Rented else Available
  }

  /** The inventory after a scan of the listing `id`. */
  function WithScan(ls: seq<Listing>, id: string): (r: seq<Listing>)
    ensures Ids(r) == Ids(ls)
  {
    var k := FindIndex(ls, id);
    if k < 0 then ls else ls[k := ls[k].(status := Flip(ls[k].status))]
  }

  /** A scan changes only the status of the first listing with the id. */
  lemma ScanOnlyStatus(ls: seq<Listing>, id: string)
    ensures var r, k := WithScan(ls, id), FindIndex(ls, id);
      && |r| == |ls|
      && (forall i :: 0 <= i < |ls| && i != k ==> r[i] == ls[i])
      && (k >= 0 ==> r[k] == ls[k].(status := Flip(ls[k].status)))
  {
  }

  /** Handing over and taking back restores an available or rented
      listing (and the whole inventory); a blocked one is first made
      available and then rented. */
  lemma ScanTwice(ls: seq<Listing>, id: string)
    ensures var k := FindIndex(ls, id);
      k >= 0 && ls[k].status != Blocked ==> WithScan(WithScan(ls, id), id) == ls
    ensures var k := FindIndex(ls, id);
      k >= 0 && ls[k].status == Blocked ==> WithScan(WithScan(ls, id), id)[k].status == Rented
  {
    var k := FindIndex(ls, id);
    if k >= 0 {
      var once := WithScan(ls, id);
      assert Ids(once) == Ids(ls);
      assert FindIndex(once, id) == k;
    }
  }

  // ---------------------------------------------------------------------
  // The blocking calendar
  // ---------------------------------------------------------------------

  /** Every blocked day is a calendar cell. */
  predicate InWindow(days: seq<int>) {
    forall i :: 0 <= i < |days| ==> 1 <= days[i] <= TotalDays
  }

  /** `toggleDate(day)`: a blocked day is unblocked (every copy of it is
      dropped); any other day is appended. */
  function ToggleDay(days: seq<int>, day: int): seq<int> {
    if day in days then Filter(days, d => d != day) else days + [day]
  }

  /** After a toggle the day is blocked exactly when it was not, and every
      other day keeps its state. */
  lemma ToggleDayMembership(days: seq<int>, day: int, x: int)
    ensures x in ToggleDay(days, day) <==> if x == day then day !in days else x in days
  {
    FilterMembership(days, d => d != day, x);
  }

  /** Toggling the same day twice restores the set of blocked days. */
  lemma ToggleDayTwice(days: seq<int>, day: int, x: int)
    ensures x in ToggleDay(ToggleDay(days, day), day) <==> x in days
  {
    ToggleDayMembership(days, day, x);
    ToggleDayMembership(days, day, day);
    ToggleDayMembership(ToggleDay(days, day), day, x);
  }

  /** Toggling a calendar cell keeps the blocked days inside the calendar. */
  lemma ToggleDayInWindow(days: seq<int>, day: int)
    requires InWindow(days) && 1 <= day <= TotalDays
    ensures InWindow(ToggleDay(days, day))
  {
    var r := ToggleDay(days, day);
    forall i | 0 <= i < |r| ensures 1 <= r[i] <= TotalDays {
      ToggleDayMembership(days, day, r[i]);
    }
  }

  // ---------------------------------------------------------------------
  // The price field of the edit form
  // ---------------------------------------------------------------------

  /** `price.replace('₹', '').replace('/day', '').replace('/hr', '')`. */
  function EditPrice(price: string): string {
    ReplaceFirst(ReplaceFirst(ReplaceFirst(price, [Rupee], ""), "/day", ""), "/hr", "")
  }

  /** A daily price `₹P/day` opens as `P` in the form, and saving `P` writes
      the same price back, as long as `P` itself holds no unit suffix. */
  lemma EditPriceRoundTrip(p: string)
    requires !Contains(p, "/day") && !Contains(p, "/hr")
    ensures EditPrice([Rupee] + p + "/day") == p
    ensures Saved(Listing("", "", [Rupee] + p + "/day", Available, "", "", "", []), "", EditPrice([Rupee] + p + "/day"), []).price
            == [Rupee] + p + "/day"
  {
    var shown := [Rupee] + p + "/day";
    var unprefixed := ReplaceFirst(shown, [Rupee], "");
    assert unprefixed == p + "/day" by {
      assert shown == [Rupee] + (p + "/day");
      ReplaceFirstAtFront([Rupee], p + "/day", "");
      assert "" + (p + "/day") == p + "/day";
    }
    assert ReplaceFirst(unprefixed, "/day", "") == p by {
      assert "/day"[1..] == "day";
      ReplaceFirstAtEnd(p, "/day");
    }
  }

  /** Editing an hourly price and saving it unchanged turns it into a
      daily price: the seeded calculator's `₹20/hr` is saved as `₹20/day`. */
  lemma HourlyPriceSavedAsDaily()
    ensures EditPrice("\U{20B9}20/hr") == "20"
    ensures Saved(Seed()[1], Seed()[1].title, EditPrice(Seed()[1].price), []).price == "\U{20B9}20/day"
  {
    HourlyEditPrice();
    assert Seed()[1].price == "\U{20B9}20/hr";
    assert [Rupee] + "20" + "/day" == "\U{20B9}20/day";
  }

  lemma HourlyEditPrice()
    ensures EditPrice("\U{20B9}20/hr") == "20"
  {
    assert "\U{20B9}20/hr" == [Rupee] + "20/hr";
    ReplaceFirstAtFront([Rupee], "20/hr", "");
    assert "" + "20/hr" == "20/hr";
    HourlyHasNoDailySuffix();
    HourlySuffixDropped();
  }

  lemma HourlyHasNoDailySuffix()
    ensures ReplaceFirst("20/hr", "/day", "") == "20/hr"
  {
    ShortNotContains("/hr", "/day");
    assert "0/hr"[..4][0] == '0' && "20/hr"[..4][0] == '2';
    assert !IsPrefix("/day", "0/hr") && "0/hr"[1..] == "/hr";
    assert !IsPrefix("/day", "20/hr") && "20/hr"[1..] == "0/hr";
  }

  lemma HourlySuffixDropped()
    ensures ReplaceFirst("20/hr", "/hr", "") == "20"
  {
    assert "20/hr" == "20" + "/hr";
    assert "/hr"[1..] == "hr";
    ShortNotContains("20", "/hr");
    ReplaceFirstAtEnd("20", "/hr");
  }

  // ---------------------------------------------------------------------
  // The shared inventory
  // ---------------------------------------------------------------------

  /** `GlobalInventory`: the listings, updated in place by the screens. */
  class Store {
    var items: seq<Listing>

    /** Blocked days only ever come from the calendar. */
    ghost predicate Valid()
      reads this
    {
      forall i :: 0 <= i < |items| ==> InWindow(items[i].blockedDays)
    }

    constructor Seeded()
      ensures Valid() && items == Seed()
    {
      items := Seed();
    }

    /** The confirmed delete: `findIndex`, then `splice(index, 1)`. */
    method Delete(id: string)
      requires Valid()
      modifies this
      ensures Valid() && items == WithoutId(old(items), id)
    {
      var index := FindIndex(items, id);
      if index > -1 {
        items := items[..index] + items[index + 1..];
      }
    }

    /** `saveChanges`: assigns the form's title, price and blocked days to
        the listing with the edited id, and derives its status. */
    method SaveChanges(id: string, title: string, editPrice: string, days: seq<int>)
      requires Valid() && InWindow(days)
      modifies this
      ensures Valid() && items == WithSaved(old(items), id, title, editPrice, days)
    {
      var index := FindIndex(items, id);
      if index > -1 {
        var target := items[index];
        target := target.(title := title);
        target := target.(price := [Rupee] + editPrice + "/day");
        target := target.(blockedDays := days);
        target := target.(status := if |days| > 0 then Blocked else Available);
        items := items[index := target];
      }
    }

    /** The scan simulation: flips the status of the listing `id` and
        reports whether a rental started (true) or ended (false); `found`
        is false when there is no such listing. */
    method SimulateScan(id: string) returns (found: bool, started: bool)
      requires Valid()
      modifies this
      ensures Valid() && items == WithScan(old(items), id)
      ensures found <==> id in Ids(old(items))
      ensures found ==> (started <==> old(items)[FindIndex(old(items), id)].status == Available)
    {
      var index := FindIndex(items, id);
      found, started := false, false;
      if index > -1 {
        var target := items[index];
        target := target.(status := if target.status == Available then Rented else Available);
        items := items[index := target];
        found, started := true, target.status == Rented;
      }
    }
  }

  // ---------------------------------------------------------------------
  // The edit form of the "my products" screen
  // ---------------------------------------------------------------------

  class Editor {
    const store: Store
    /** The id of the listing being edited or scanned; "" before any. */
    var editingId: string
    var selectedId: string
    var editTitle: string
    var editPrice: string
    var blockedDays: seq<int>

    ghost predicate Valid()
      reads this, store
    {
      store.Valid() && InWindow(blockedDays)
    }

    constructor (s: Store)
      requires s.Valid()
      ensures Valid() && store == s && blockedDays == [] && editingId == "" && selectedId == ""
      ensures editTitle == "" && editPrice == ""
    {
      store := s;
      editingId, selectedId, editTitle, editPrice, blockedDays := "", "", "", "", [];
    }

    /** `handleEdit` on the listing shown at position `k`. */
    method HandleEdit(k: nat)
      requires Valid() && k < |store.items|
      modifies this
      ensures Valid()
      ensures var l := store.items[k];
        editingId == l.id && editTitle == l.title && editPrice == EditPrice(l.price) && blockedDays == l.blockedDays
      ensures selectedId == old(selectedId)
    {
      var item := store.items[k];
      editingId := item.id;
      editTitle := item.title;
      editPrice := ReplaceFirst(ReplaceFirst(ReplaceFirst(item.price, [Rupee], ""), "/day", ""), "/hr", "");
      blockedDays := item.blockedDays;
    }

    /** A tap on calendar cell `day`. */
    method ToggleDate(day: int)
      requires Valid() && 1 <= day <= TotalDays
      modifies this
      ensures Valid() && blockedDays == ToggleDay(old(blockedDays), day)
      ensures editingId == old(editingId) && editTitle == old(editTitle) && editPrice == old(editPrice)
      ensures selectedId == old(selectedId)
    {
      ToggleDayInWindow(blockedDays, day);
      if day in blockedDays {
        blockedDays := Filter(blockedDays, d => d != day);
      } else {
        blockedDays := blockedDays + [day];
      }
    }

    method SaveChanges()
      requires Valid()
      modifies store
      ensures Valid()
      ensures store.items == WithSaved(old(store.items), editingId, editTitle, editPrice, blockedDays)
    {
      store.SaveChanges(editingId, editTitle, editPrice, blockedDays);
    }

    /** `handleShowQr` on the listing shown at position `k`. */
    method ShowQr(k: nat)
      requires Valid() && k < |store.items|
      modifies this
      ensures Valid() && selectedId == store.items[k].id
      ensures editingId == old(editingId) && blockedDays == old(blockedDays)
      ensures editTitle == old(editTitle) && editPrice == old(editPrice)
    {
      selectedId := store.items[k].id;
    }

    method SimulateScan() returns (found: bool, started: bool)
      requires Valid()
      modifies store
      ensures Valid() && store.items == WithScan(old(store.items), selectedId)
      ensures found <==> selectedId in Ids(old(store.items))
      ensures found ==> (started <==> old(store.items)[FindIndex(old(store.items), selectedId)].status == Available)
    {
      found, started := store.SimulateScan(selectedId);
    }
  }
}

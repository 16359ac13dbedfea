/** The product context: an app-wide list of the user's products, updated
    copy-on-write.  A new product goes in front; the status toggle maps
    over the list and rewrites every product with the given id. */
module ProductContext {
  import opened Seqs
  import opened Inventory
  import opened Text

  datatype Product = Product(id: string, title: string, price: string, status: Status,
                             requestCount: int, image: string, category: string)

  /** The ids of the products, in order: the same projection as
      `Inventory.Ids`, over this module's own product record. */
  function ProductIds(ps: seq<Product>): (r: seq<string>)
    ensures |r| == |ps|
    ensures forall i :: 0 <= i < |ps| ==> r[i] == ps[i].id
  {
    seq(|ps|, i requires 0 <= i < |ps| => ps[i].id)
  }

  /** `INITIAL_INVENTORY`, the provider's initial state. */
  function InitialInventory(): (ps: seq<Product>)
    ensures |ps| == 2 && Distinct(ProductIds(ps))
  {
    [Product("1", "Calculus Textbook", "\U{20B9}50/day", Available, 2,
             Unsplash("photo-1544947950-fa07a98d237f", "600"), "Books"),
     Product("2", "Graphing Calculator", "\U{20B9}20/hr", Rented, 0,
             Unsplash("photo-1587145820266-a5951ee1f620", "600"), "Tech")]
  }

  /** `[product, ...prev]`. */
  function AddProduct(ps: seq<Product>, p: Product): (r: seq<Product>)
    ensures |r| == |ps| + 1 && r[0] == p && r[1..] == ps
  {
    [p] + ps
  }

  lemma ProductIdsCons(p: Product, ps: seq<Product>)
    ensures ProductIds([p] + ps) == [p.id] + ProductIds(ps)
  {
    assert forall i :: 0 < i < |ps| + 1 ==> ([p] + ps)[i] == ps[i - 1];
  }

  /** A product whose id is new keeps the ids distinct. */
  lemma AddProductKeepsDistinct(ps: seq<Product>, p: Product)
    requires Distinct(ProductIds(ps)) && p.id !in ProductIds(ps)
    ensures Distinct(ProductIds(AddProduct(ps, p)))
  {
    ProductIdsCons(p, ps);
    DistinctCons(p.id, ProductIds(ps));
  }

  /** The status a toggle writes: decided by the status the caller passes,
      not by the stored one. */
  function NewStatus(currentStatus: Status): (s: Status)
    ensures s == Available <==> currentStatus == Blocked
    ensures s != Rented
  {
    if currentStatus == Blocked then Available else Blocked
  }

  function Toggled(item: Product, id: string, currentStatus: Status): Product {
    if item.id == id then item.(status := NewStatus(currentStatus)) else item
  }

  /** `prev.map(item => item.id === id ? {...item, status: …} : item)`. */
  function ToggleStatus(ps: seq<Product>, id: string, currentStatus: Status): (r: seq<Product>)
    ensures |r| == |ps|
  {
    if |ps| == 0 then [] else [Toggled(ps[0], id, currentStatus)] + ToggleStatus(ps[1..], id, currentStatus)
  }

  /** Position by position, the toggle rewrites exactly the products with the id. */
  lemma {:induction false} ToggleStatusAt(ps: seq<Product>, id: string, currentStatus: Status, i: nat)
    requires i < |ps|
    ensures ToggleStatus(ps, id, currentStatus)[i] == Toggled(ps[i], id, currentStatus)
    decreases i
  {
    if i > 0 {
      ToggleStatusAt(ps[1..], id, currentStatus, i - 1);
    }
  }

  /** Length, order and every id are kept; products with another id are
      untouched; products with the id get the new status and nothing else. */
  lemma ToggleStatusEffect(ps: seq<Product>, id: string, currentStatus: Status)
    ensures var r := ToggleStatus(ps, id, currentStatus);
      && |r| == |ps| && ProductIds(r) == ProductIds(ps)
      && (forall i :: 0 <= i < |ps| && ps[i].id != id ==> r[i] == ps[i])
      && (forall i :: 0 <= i < |ps| && ps[i].id == id ==> r[i] == ps[i].(status := NewStatus(currentStatus)))
  {
    var r := ToggleStatus(ps, id, currentStatus);
    forall i | 0 <= i < |ps| ensures r[i] == Toggled(ps[i], id, currentStatus) {
      ToggleStatusAt(ps, id, currentStatus, i);
    }
  }

  /** Toggling twice, each time passing the product's status as it then
      is, restores a list whose products with the id are all available, or
      all blocked. */
  lemma ToggleStatusTwice(ps: seq<Product>, id: string, s: Status)
    requires s != Rented
    requires forall i :: 0 <= i < |ps| && ps[i].id == id ==> ps[i].status == s
    ensures ToggleStatus(ToggleStatus(ps, id, s), id, NewStatus(s)) == ps
  {
    var once := ToggleStatus(ps, id, s);
    var twice := ToggleStatus(once, id, NewStatus(s));
    ToggleStatusEffect(ps, id, s);
    ToggleStatusEffect(once, id, NewStatus(s));
    forall i | 0 <= i < |ps| ensures twice[i] == ps[i] {
      if ps[i].id == id {
        assert once[i].id == id;
      }
    }
  }
}

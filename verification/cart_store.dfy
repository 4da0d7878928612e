/**
 * The `Index` page's cart state and its two handlers, plus the parts of the
 * cart sheet and the cart button that are decided by the cart's contents.
 */
module CartStore {
  import opened Products
  import opened CartUpdates
  import opened Totals

  /**
   * The cart held in component state. Each handler replaces the whole value
   * at once, as a `setCart` call does.
   */
  class Cart {
    var items: seq<Product>

    /** The page starts with an empty cart, whose totals are both zero. */
    constructor ()
      ensures items == []
      ensures TotalPrice(items) == 0 && TotalUC(items) == 0
    {
      items := [];
      SumZero([], Price);
      SumZero([], Uc);
    }

    /**
     * `addToCart`: the product goes after every existing entry, even when an
     * equal product is already in the cart, and both totals grow by its amounts.
     */
    method AddToCart(p: Product)
      modifies this
      ensures items == Appended(old(items), p)
      ensures TotalPrice(items) == TotalPrice(old(items)) + p.price
      ensures TotalUC(items) == TotalUC(old(items)) + p.uc
      ensures FromCatalog(old(items)) && p in Catalog ==> FromCatalog(items)
    {
      SumAppended(items, p, Price);
      SumAppended(items, p, Uc);
      if FromCatalog(items) && p in Catalog {
        AppendedFromCatalog(items, p);
      }
      items := Appended(items, p);
    }

    /**
     * `removeFromCart`: drops the entry at position `index` only, so both
     * totals fall by that entry's amounts; an index outside the cart changes
     * nothing.
     */
    method RemoveFromCart(index: int)
      modifies this
      ensures items == WithoutIndex(old(items), index)
      ensures 0 <= index < |old(items)| ==>
                items == old(items)[..index] + old(items)[index + 1..] &&
                TotalPrice(items) == TotalPrice(old(items)) - old(items)[index].price &&
                TotalUC(items) == TotalUC(old(items)) - old(items)[index].uc
      ensures !(0 <= index < |old(items)|) ==> items == old(items)
      ensures FromCatalog(old(items)) ==> FromCatalog(items)
    {
      WithoutIndexIsSlice(items, index);
      SumWithoutIndex(items, index, Price);
      SumWithoutIndex(items, index, Uc);
      if FromCatalog(items) {
        WithoutIndexFromCatalog(items, index);
      }
      items := WithoutIndex(items, index);
    }
  }

  /** One row of the cart sheet: what it shows and the index its trash button removes. */
  datatype Line = Line(name: string, uc: nat, price: nat, removeIndex: int)

  /** The body of the cart sheet: the empty notice, or the rows followed by both totals. */
  datatype SheetBody = EmptyNotice | Listing(lines: seq<Line>, totalUC: nat, totalPrice: nat)

  /** The number on the cart button's badge, shown only while the cart holds something. */
  function Badge(cart: seq<Product>): (r: Option<nat>)
    ensures r.Some? <==> |cart| > 0
    ensures r.Some? ==> r.value == |cart|
  {
    if |cart| > 0 then Some(|cart|) else None
  }

  /**
   * What the cart sheet shows: "Корзина пуста" exactly when the cart is
   * empty; otherwise one row per entry, in cart order, and the two totals.
   */
  function Sheet(cart: seq<Product>): (r: SheetBody)
    ensures r.EmptyNotice? <==> |cart| == 0
    ensures r.Listing? ==>
              |r.lines| == |cart| &&
              r.totalUC == TotalUC(cart) && r.totalPrice == TotalPrice(cart) &&
              forall k :: 0 <= k < |cart| ==>
                r.lines[k] == Line(cart[k].name, cart[k].uc, cart[k].price, k)
  {
    if |cart| == 0 then EmptyNotice
    else
      Listing(seq(|cart|, k requires 0 <= k < |cart| => Line(cart[k].name, cart[k].uc, cart[k].price, k)),
              TotalUC(cart), TotalPrice(cart))
  }

  /**
   * The badge and the empty notice never appear together, and one of them
   * always does; which one depends only on the number of entries.
   */
  lemma BadgeOrEmptyNotice(a: seq<Product>, b: seq<Product>)
    ensures Badge(a).Some? <==> !Sheet(a).EmptyNotice?
    ensures |a| == |b| ==> (Badge(a).Some? <==> Badge(b).Some?) && (Sheet(a).EmptyNotice? <==> Sheet(b).EmptyNotice?)
  {
  }

  /**
   * Each row's trash button removes that row and no other: the cart loses
   * exactly that entry and the totals fall by exactly the row's shown amounts.
   */
  lemma RowRemovesItself(cart: seq<Product>, k: int)
    requires Sheet(cart).Listing? && 0 <= k < |Sheet(cart).lines|
    ensures var line := Sheet(cart).lines[k];
            var after := WithoutIndex(cart, line.removeIndex);
            after == cart[..k] + cart[k + 1..] &&
            TotalUC(after) + line.uc == Sheet(cart).totalUC &&
            TotalPrice(after) + line.price == Sheet(cart).totalPrice
  {
    WithoutIndexIsSlice(cart, k);
    SumWithoutIndex(cart, k, Uc);
    SumWithoutIndex(cart, k, Price);
  }
}

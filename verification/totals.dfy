/**
 * The cart's derived totals: `totalPrice` and `totalUC` are the same
 * `reduce` from 0 over the cart, one adding each entry's price and the other
 * each entry's UC.
 */
module Totals {
  import opened Products
  import opened CartUpdates

  /** Which numeric field of a product a total adds up. */
  datatype Field = Price | Uc

  /** The field `f` of product `p`. */
  function Amount(p: Product, f: Field): (r: nat) {
    match f
    case Price => p.price
    case Uc => p.uc
  }

  /**
   * `cart.reduce((sum, item) => sum + field(item), 0)`: a left fold, so the
   * last entry is the last one added to the running sum.
   */
  function Sum(cart: seq<Product>, f: Field): (r: nat)
    ensures cart == [] ==> r == 0
    ensures forall k :: 0 <= k < |cart| ==> Amount(cart[k], f) <= r
    decreases |cart|
  {
    if cart == [] then 0
    else Sum(cart[..|cart| - 1], f) + Amount(cart[|cart| - 1], f)
  }

  /** `totalPrice`: what the cart costs. */
  function TotalPrice(cart: seq<Product>): (r: nat)
    ensures cart == [] ==> r == 0
    ensures forall k :: 0 <= k < |cart| ==> cart[k].price <= r
  {
    Sum(cart, Price)
  }

  /** `totalUC`: how much currency the cart grants. */
  function TotalUC(cart: seq<Product>): (r: nat)
    ensures cart == [] ==> r == 0
    ensures forall k :: 0 <= k < |cart| ==> cart[k].uc <= r
  {
    Sum(cart, Uc)
  }

  /** The empty cart totals zero, and a non-empty cart of paid bundles does not. */
  lemma {:induction false} SumZero(cart: seq<Product>, f: Field)
    ensures cart == [] ==> Sum(cart, f) == 0
    ensures (exists k :: 0 <= k < |cart| && Amount(cart[k], f) > 0) ==> Sum(cart, f) > 0
    decreases |cart|
  {
    if cart != [] {
      var last := |cart| - 1;
      SumZero(cart[..last], f);
      if exists k :: 0 <= k < |cart| && Amount(cart[k], f) > 0 {
        var k :| 0 <= k < |cart| && Amount(cart[k], f) > 0;
        if k < last {
          assert cart[..last][k] == cart[k];
        }
      }
    }
  }

  /** Appending one product raises the total by exactly that product's amount. */
  lemma SumAppended(cart: seq<Product>, p: Product, f: Field)
    ensures Sum(Appended(cart, p), f) == Sum(cart, f) + Amount(p, f)
  {
    assert Appended(cart, p)[..|cart|] == cart;
  }

  /** Totals are additive over concatenation. */
  lemma {:induction false} SumConcat(a: seq<Product>, b: seq<Product>, f: Field)
    ensures Sum(a + b, f) == Sum(a, f) + Sum(b, f)
    decreases |b|
  {
    if b == [] {
      assert a + b == a;
    } else {
      var last := |b| - 1;
      SumConcat(a, b[..last], f);
      assert (a + b)[..|a + b| - 1] == a + b[..last];
    }
  }

  /**
   * Removing a valid position lowers the total by exactly the amount of the
   * entry that was there; any other index leaves the total as it was.
   */
  lemma SumWithoutIndex(cart: seq<Product>, index: int, f: Field)
    ensures 0 <= index < |cart| ==> Sum(WithoutIndex(cart, index), f) + Amount(cart[index], f) == Sum(cart, f)
    ensures !(0 <= index < |cart|) ==> Sum(WithoutIndex(cart, index), f) == Sum(cart, f)
  {
    WithoutIndexIsSlice(cart, index);
    if 0 <= index < |cart| {
      var front, back := cart[..index], cart[index + 1..];
      assert cart == front + ([cart[index]] + back);
      SumConcat(front, [cart[index]] + back, f);
      SumConcat([cart[index]], back, f);
      SumConcat(front, back, f);
      assert [cart[index]][..0] == [];
    }
  }

  /**
   * A total does not depend on the order in which products were added: two
   * carts holding the same entries, duplicates counted, have the same total.
   */
  lemma {:induction false} SumPermutation(a: seq<Product>, b: seq<Product>, f: Field)
    requires multiset(a) == multiset(b)
    ensures Sum(a, f) == Sum(b, f)
    decreases |a|
  {
    if a == [] {
      assert |b| == |multiset(b)| == 0;
    } else {
      var last := |a| - 1;
      var x := a[last];
      assert a == a[..last] + [x];
      assert x in multiset(b);
      var j :| 0 <= j < |b| && b[j] == x;
      WithoutIndexMultiset(b, j);
      SumPermutation(a[..last], WithoutIndex(b, j), f);
      SumWithoutIndex(b, j, f);
    }
  }

  /**
   * A cart built from catalog bundles only grants at least one UC more per
   * entry than it costs, so its UC total exceeds its price total as soon as it
   * is non-empty.
   */
  lemma {:induction false} CatalogCartTotals(cart: seq<Product>)
    requires FromCatalog(cart)
    ensures TotalPrice(cart) + |cart| <= TotalUC(cart)
    ensures cart != [] ==> TotalPrice(cart) < TotalUC(cart)
    decreases |cart|
  {
    if cart != [] {
      var last := |cart| - 1;
      CatalogBargains();
      assert cart[last] in Catalog;
      CatalogCartTotals(cart[..last]);
    }
  }

  /** Worked example: the first two catalog bundles together give 385 UC for 358 roubles. */
  lemma StarterAndBasicTotals()
    ensures TotalUC([Catalog[0], Catalog[1]]) == 385
    ensures TotalPrice([Catalog[0], Catalog[1]]) == 358
  {
    var cart := Appended(Appended([], Catalog[0]), Catalog[1]);
    assert cart == [Catalog[0], Catalog[1]];
    SumAppended([], Catalog[0], Uc);
    SumAppended([Catalog[0]], Catalog[1], Uc);
    SumAppended([], Catalog[0], Price);
    SumAppended([Catalog[0]], Catalog[1], Price);
  }
}

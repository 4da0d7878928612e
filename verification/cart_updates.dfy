/**
 * The two ways a new cart value is built from the current one: the spread
 * append of `addToCart` and the index filter of `removeFromCart`.
 */
module CartUpdates {
  import opened Products

  /** `[...cart, p]`: the cart with `p` placed after every existing entry. */
  function Appended(cart: seq<Product>, p: Product): (r: seq<Product>)
    ensures |r| == |cart| + 1
    ensures r[|cart|] == p
    ensures forall k :: 0 <= k < |cart| ==> r[k] == cart[k]
  {
    cart + [p]
  }

  /**
   * `cart.filter((_, i) => i !== index)`: keeps, in order, every entry whose
   * position differs from `index`. Written as the fold the filter performs,
   * one position at a time; the last entry of `cart` sits at position |cart| - 1.
   */
  function WithoutIndex(cart: seq<Product>, index: int): (r: seq<Product>)
    ensures |r| == if 0 <= index < |cart| then |cart| - 1 else |cart|
    decreases |cart|
  {
    if cart == [] then []
    else
      var last := |cart| - 1;
      WithoutIndex(cart[..last], index) + (if last != index then [cart[last]] else [])
  }

  /**
   * Filtering by position removes exactly the entry at `index` when it is a
   * position of the cart, even if equal products sit elsewhere, and leaves the
   * cart as it was when `index` is negative or too large.
   */
  lemma {:induction false} WithoutIndexIsSlice(cart: seq<Product>, index: int)
    ensures 0 <= index < |cart| ==> WithoutIndex(cart, index) == cart[..index] + cart[index + 1..]
    ensures !(0 <= index < |cart|) ==> WithoutIndex(cart, index) == cart
    decreases |cart|
  {
    if cart != [] {
      var last := |cart| - 1;
      var front := cart[..last];
      WithoutIndexIsSlice(front, index);
      assert cart == front + [cart[last]];
      if index == last {
        assert WithoutIndex(cart, index) == front;
      } else if 0 <= index < last {
        assert front[..index] == cart[..index];
        assert front[index + 1..] + [cart[last]] == cart[index + 1..];
      }
    }
  }

  /**
   * Removing position `index` takes out one occurrence of `cart[index]` and
   * keeps every other entry, duplicates included.
   */
  lemma WithoutIndexMultiset(cart: seq<Product>, index: int)
    requires 0 <= index < |cart|
    ensures multiset(WithoutIndex(cart, index)) == multiset(cart) - multiset{cart[index]}
  {
    WithoutIndexIsSlice(cart, index);
    SliceOutMultiset(cart, index);
  }

  lemma SliceOutMultiset<T>(s: seq<T>, index: int)
    requires 0 <= index < |s|
    ensures multiset(s[..index] + s[index + 1..]) == multiset(s) - multiset{s[index]}
  {
    var front, back := s[..index], s[index + 1..];
    assert s == front + ([s[index]] + back);
    assert multiset(s) == multiset(front) + multiset{s[index]} + multiset(back);
  }

  /** Appending a catalog bundle keeps a cart made only of catalog bundles so. */
  lemma AppendedFromCatalog(cart: seq<Product>, p: Product)
    requires FromCatalog(cart) && p in Catalog
    ensures FromCatalog(Appended(cart, p))
  {
  }

  /** Removing any index keeps a cart made only of catalog bundles so. */
  lemma WithoutIndexFromCatalog(cart: seq<Product>, index: int)
    requires FromCatalog(cart)
    ensures FromCatalog(WithoutIndex(cart, index))
  {
    WithoutIndexIsSlice(cart, index);
    var r := WithoutIndex(cart, index);
    forall k | 0 <= k < |r|
      ensures r[k] in Catalog
    {
      if 0 <= index < |cart| && k >= index {
        assert r[k] == cart[k + 1];
      } else {
        assert r[k] == cart[k];
      }
    }
  }
}

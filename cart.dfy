/**
 * The shopping cart: an ordered list of line items, the stock check made when
 * a line is added, and the aggregate queries over the lines.
 */
module Carts {
  import opened Catalog

  class Cart {
    var items: seq<CartItem>

    constructor ()
      ensures items == []
    {
      items := [];
    }

    /**
     * Appends the line (product, quantity) when the product's current stock
     * covers the quantity, and otherwise refuses with InsufficientStock.
     * Stock is not reserved: the product is left as it was.
     */
    method AddProduct(product: Product, quantity: int) returns (r: Outcome<StoreError>)
      modifies this
      ensures r == if product.quantity < quantity then Fail(InsufficientStock) else Pass
      ensures items == if r.Pass? then old(items) + [CartItem(product, quantity)] else old(items)
      ensures product.quantity == old(product.quantity)
    {
      if product.quantity < quantity {
        return Fail(InsufficientStock);
      }
      items := items + [CartItem(product, quantity)];
      r := Pass;
    }
  }

  /** A cart is empty when it holds no line at all. */
  predicate IsEmpty(items: seq<CartItem>)
    ensures IsEmpty(items) <==> |items| == 0
  {
    assert items != [] ==> items[0] in items;
    !exists it :: it in items
  }

  /** The sum of the lines' totals, in insertion order. */
  function Subtotal(items: seq<CartItem>): (r: real)
    ensures (forall it | it in items :: it.product.price >= 0.0 && it.quantity >= 0) ==> r >= 0.0
  {
    if items == [] then 0.0
    else
      var last := items[|items| - 1];
      Subtotal(items[..|items| - 1]) + last.GetTotalPrice()
  }

  /** The products of the shippable lines, in insertion order (one entry per line). */
  function ShippableItems(items: seq<CartItem>): (r: seq<Product>)
    ensures |r| <= |items|
    ensures forall p | p in r :: p.IsShippable() && p in Products(items)
  {
    if items == [] then []
    else
      var last := items[|items| - 1];
      ShippableItems(items[..|items| - 1]) + (if last.product.IsShippable() then [last.product] else [])
  }

  /** The subtotal of a concatenation is the sum of the subtotals. */
  lemma {:induction false} SubtotalConcat(a: seq<CartItem>, b: seq<CartItem>)
    ensures Subtotal(a + b) == Subtotal(a) + Subtotal(b)
  {
    if b != [] {
      var b' := b[..|b| - 1];
      assert (a + b)[..|a + b| - 1] == a + b';
      assert (a + b)[|a + b| - 1] == b[|b| - 1];
      SubtotalConcat(a, b');
    } else {
      assert a + b == a;
    }
  }

  /** The shippable products of a concatenation keep both parts, in order. */
  lemma {:induction false} ShippableItemsConcat(a: seq<CartItem>, b: seq<CartItem>)
    ensures ShippableItems(a + b) == ShippableItems(a) + ShippableItems(b)
  {
    if b != [] {
      var b' := b[..|b| - 1];
      assert (a + b)[..|a + b| - 1] == a + b';
      assert (a + b)[|a + b| - 1] == b[|b| - 1];
      ShippableItemsConcat(a, b');
    } else {
      assert a + b == a;
    }
  }

  /** Every shippable line contributes its product to the shippable products. */
  lemma {:induction false} ShippableItemsComplete(items: seq<CartItem>, i: int)
    requires 0 <= i < |items| && items[i].product.IsShippable()
    ensures items[i].product in ShippableItems(items)
  {
    if i < |items| - 1 {
      ShippableItemsComplete(items[..|items| - 1], i);
    }
  }

  /**
   * What one successful AddProduct does to the aggregates: the subtotal grows
   * by the new line's total, the shippable products gain the product at the
   * end exactly when it is shippable, and the cart is no longer empty.
   */
  lemma AppendLine(items: seq<CartItem>, product: Product, quantity: int)
    ensures Subtotal(items + [CartItem(product, quantity)]) == Subtotal(items) + CartItem(product, quantity).GetTotalPrice()
    ensures ShippableItems(items + [CartItem(product, quantity)])
         == ShippableItems(items) + (if product.IsShippable() then [product] else [])
    ensures !IsEmpty(items + [CartItem(product, quantity)])
  {
    var line := CartItem(product, quantity);
    var grown := items + [line];
    assert grown[..|grown| - 1] == items;
    assert grown[|grown| - 1] == line;
    assert Subtotal(grown) == Subtotal(items) + line.GetTotalPrice();
    assert ShippableItems(grown) == ShippableItems(items) + (if product.IsShippable() then [product] else []);
  }
}

/**
 * The customer's checkout: one transaction that validates the cart, prices
 * it (subtotal plus weight-based shipping), checks the balance and, only when
 * every check passes, takes the stock, charges the balance and empties the
 * cart. Every refusal leaves stock, balance and cart as they were.
 */
module Checkout {
  import opened Catalog
  import opened Carts

  /** Shipping rate, in currency units per kilogram. */
  const WeightBasedShipping: real := 20.0

  /** The kilograms one line ships: its weight in kilograms times its quantity, or none if not shippable. */
  function LineKilograms(it: CartItem): (kg: real)
    ensures !it.product.IsShippable() || it.quantity == 0 ==> kg == 0.0
    ensures it.product.IsShippable() && it.product.GetWeight() >= 0.0 && it.quantity >= 0 ==> kg >= 0.0
  {
    if it.product.IsShippable() then it.product.GetWeight() / 1000.0 * it.quantity as real else 0.0
  }

  /** Kilograms shipped by the whole cart, summed over its shippable lines. */
  function ShippedKilograms(items: seq<CartItem>): (kg: real)
    ensures (forall it | it in items :: !it.product.IsShippable()) ==> kg == 0.0
  {
    if items == [] then 0.0
    else ShippedKilograms(items[..|items| - 1]) + LineKilograms(items[|items| - 1])
  }

  /** The shipping charge of a cart: 20 per kilogram shipped. */
  function ShippingCost(items: seq<CartItem>): (cost: real)
    ensures cost == 0.0 <==> ShippedKilograms(items) == 0.0
    ensures (forall it | it in items :: !it.product.IsShippable()) ==> cost == 0.0
  {
    ShippedKilograms(items) * WeightBasedShipping
  }

  /** The amount a checkout charges: subtotal plus shipping. */
  function Total(items: seq<CartItem>): (total: real)
    ensures ShippableItems(items) == [] ==> total == Subtotal(items)
  {
    if ShippableItems(items) == [] then NoShippableNoShipping(items); Subtotal(items) + ShippingCost(items)
    else Subtotal(items) + ShippingCost(items)
  }

  /** The check made on one line at checkout, or none when the line may be sold. */
  function LineError(it: CartItem, now: int): (e: Option<StoreError>)
    reads it.product
    ensures e.None? <==> !it.product.IsExpired(now) && it.quantity <= it.product.quantity
    ensures e == Some(Expired) <==> it.product.IsExpired(now)
    ensures e == Some(InsufficientStock) <==> !it.product.IsExpired(now) && it.product.quantity < it.quantity
  {
    if it.product.IsExpired(now) then Some(Expired)
    else if it.product.quantity < it.quantity then Some(InsufficientStock)
    else None
  }

  /** Every line passes the checkout checks, each one on its own. */
  predicate AllAvailable(items: seq<CartItem>, now: int)
    reads Products(items)
    ensures AllAvailable(items, now) <==>
      forall i :: 0 <= i < |items| ==> !items[i].product.IsExpired(now) && items[i].quantity <= items[i].product.quantity
  {
    forall i :: 0 <= i < |items| ==> LineError(items[i], now).None?
  }

  /**
   * The outcome of the per-line validation: the error of the first line, in
   * insertion order, that fails its checks, or None when all pass.
   */
  function FirstFailure(items: seq<CartItem>, now: int): (r: Option<StoreError>)
    reads Products(items)
    ensures r.None? <==> AllAvailable(items, now)
    ensures r.Some? ==> exists i :: 0 <= i < |items| && LineError(items[i], now) == r && AllAvailable(items[..i], now)
  {
    if items == [] then None
    else
      assert Products(items[1..]) <= Products(items) by {
        forall it | it in items[1..] ensures it in items { }
      }
      var e := LineError(items[0], now);
      if e.Some? then
        assert items[..0] == [];
        e
      else
        var r := FirstFailure(items[1..], now);
        assert r.Some? ==> exists i :: 1 <= i < |items| && LineError(items[i], now) == r && AllAvailable(items[..i], now) by {
          if r.Some? {
            var k :| 0 <= k < |items[1..]| && LineError(items[1..][k], now) == r && AllAvailable(items[1..][..k], now);
            assert items[..k + 1] == [items[0]] + items[1..][..k];
          }
        }
        r
  }

  /** How many units of `p` one line asks for. */
  function LineDemand(it: CartItem, p: Product): int
  {
    if it.product == p then it.quantity else 0
  }

  /** How many units of `p` the lines ask for, over every line that names it. */
  function Demand(items: seq<CartItem>, p: Product): (n: int)
    ensures p !in Products(items) ==> n == 0
  {
    if items == [] then 0
    else
      var last := items[|items| - 1];
      assert Products(items[..|items| - 1]) <= Products(items) by {
        forall it | it in items[..|items| - 1] ensures it in items { }
      }
      Demand(items[..|items| - 1], p) + LineDemand(last, p)
  }

  /**
   * What checkout decides, in the order the source checks: an empty cart, then
   * each line (expiry before stock), then the balance against the total.
   */
  function CheckoutResult(items: seq<CartItem>, balance: real, now: int): (r: Outcome<StoreError>)
    reads Products(items)
    ensures r == Fail(EmptyCart) <==> |items| == 0
    ensures r.Pass? <==> |items| > 0 && AllAvailable(items, now) && Total(items) <= balance
    ensures r == Fail(InsufficientBalance) <==> |items| > 0 && AllAvailable(items, now) && balance < Total(items)
    ensures |items| > 0 && FirstFailure(items, now).Some? ==> r == Fail(FirstFailure(items, now).value)
  {
    if IsEmpty(items) then Fail(EmptyCart)
    else
      match FirstFailure(items, now)
      case Some(e) => Fail(e)
      case None => if balance < Total(items) then Fail(InsufficientBalance) else Pass
  }

  class Customer {
    const name: string
    var balance: real
    const cart: Cart

    constructor (name: string, balance: real)
      ensures this.name == name && this.balance == balance
      ensures fresh(cart) && cart.items == []
    {
      this.name := name;
      this.balance := balance;
      cart := new Cart();
    }

    /**
     * Checks out the cart at instant `now`. On success every product loses
     * exactly the units its lines asked for (summed over lines that share it),
     * the balance loses exactly the total and the cart is emptied; on any
     * refusal nothing changes.
     */
    method Checkout(now: int) returns (r: Outcome<StoreError>)
      modifies this, cart, Products(cart.items)
      ensures r == old(CheckoutResult(cart.items, balance, now))
      ensures cart.items == if r.Pass? then [] else old(cart.items)
      ensures balance == if r.Pass? then old(balance) - Total(old(cart.items)) else old(balance)
      ensures forall p | p in Products(old(cart.items)) ::
                p.quantity == old(p.quantity) - (if r.Pass? then Demand(old(cart.items), p) else 0)
      ensures r.Pass? ==> balance >= 0.0
      ensures r.Pass? && DistinctProducts(old(cart.items)) ==>
                forall p | p in Products(old(cart.items)) :: p.quantity >= 0
      ensures r.Pass? ==> CheckoutResult(cart.items, balance, now) == Fail(EmptyCart)
    {
      var items := cart.items;
      if IsEmpty(items) {
        return Fail(EmptyCart);
      }
      var failure := Validate(items, now);
      if failure.Some? {
        return Fail(failure.value);
      }
      if DistinctProducts(items) {
        ValidatedDistinctCartCovered(items, now);
      }

      var subtotal := Subtotal(items);
      var shipping := ShippingCost(items);
      var total := subtotal + shipping;
      if balance < total {
        return Fail(InsufficientBalance);
      }

      TakeStock(items);
      balance := balance - total;
      cart.items := [];
      r := Pass;
    }
  }

  /** The per-line validation loop of checkout: stops at the first line that fails. */
  method Validate(items: seq<CartItem>, now: int) returns (failure: Option<StoreError>)
    ensures failure == FirstFailure(items, now)
  {
    var i := 0;
    while i < |items|
      invariant 0 <= i <= |items|
      invariant FirstFailure(items, now) == FirstFailure(items[i..], now)
    {
      var item := items[i];
      assert items[i..][1..] == items[i + 1..];
      if item.product.IsExpired(now) {
        return Some(Expired);
      }
      if item.product.quantity < item.quantity {
        return Some(InsufficientStock);
      }
      i := i + 1;
    }
    assert items[|items|..] == [];
    failure := None;
  }

  /**
   * The settling loop of checkout: each line takes its quantity from its
   * product, so a product named on several lines loses the sum of them.
   */
  method TakeStock(items: seq<CartItem>)
    modifies Products(items)
    ensures forall p | p in Products(items) :: p.quantity == old(p.quantity) - Demand(items, p)
  {
    var j := 0;
    while j < |items|
      invariant 0 <= j <= |items|
      invariant forall p | p in Products(items) :: p.quantity == old(p.quantity) - Demand(items[..j], p)
    {
      var item := items[j];
      assert items[..j + 1][..j] == items[..j];
      item.product.quantity := item.product.quantity - item.quantity;
      j := j + 1;
    }
    assert items[..|items|] == items;
  }

  /**
   * What one more line adds to the checkout's figures: its total to the
   * subtotal, its kilograms to the shipped weight (so 20 per kilogram to the
   * shipping charge) and its quantity to the demand on its product.
   */
  lemma AppendLineCharges(items: seq<CartItem>, it: CartItem, p: Product)
    ensures Subtotal(items + [it]) == Subtotal(items) + it.GetTotalPrice()
    ensures ShippedKilograms(items + [it]) == ShippedKilograms(items) + LineKilograms(it)
    ensures ShippingCost(items + [it]) == ShippingCost(items) + LineKilograms(it) * WeightBasedShipping
    ensures Demand(items + [it], p) == Demand(items, p) + LineDemand(it, p)
  {
    assert (items + [it])[..|items|] == items;
  }

  /** With distinct products, the demand on a line's product is that line's quantity. */
  lemma {:induction false} DemandOfDistinct(items: seq<CartItem>, i: int)
    requires DistinctProducts(items) && 0 <= i < |items|
    ensures Demand(items, items[i].product) == items[i].quantity
  {
    var front := items[..|items| - 1];
    assert DistinctProducts(front);
    if i < |items| - 1 {
      DemandOfDistinct(front, i);
    } else {
      assert items[i].product !in Products(front);
    }
  }

  /**
   * When no product appears on two lines, the per-line stock check covers the
   * whole cart: no product is asked for more units than it has.
   */
  lemma ValidatedDistinctCartCovered(items: seq<CartItem>, now: int)
    requires AllAvailable(items, now) && DistinctProducts(items)
    ensures forall p | p in Products(items) :: Demand(items, p) <= p.quantity
  {
    forall p | p in Products(items) ensures Demand(items, p) <= p.quantity {
      var i :| 0 <= i < |items| && items[i].product == p;
      DemandOfDistinct(items, i);
      assert LineError(items[i], now).None?;
    }
  }

  /**
   * The per-line check does not cover a product named on two lines: two lines
   * of 2 units each on a product with 2 in stock pass validation, yet ask for 4.
   */
  lemma DuplicateLinesPassValidation(p: Product, now: int)
    requires p.quantity == 2 && !p.IsExpired(now)
    ensures FirstFailure([CartItem(p, 2), CartItem(p, 2)], now).None?
    ensures Demand([CartItem(p, 2), CartItem(p, 2)], p) == 4 > p.quantity
  {
    var items := [CartItem(p, 2), CartItem(p, 2)];
    assert items[..1] == [CartItem(p, 2)];
    assert items[..1][..0] == [];
    assert AllAvailable(items, now);
  }

  /** The shipped kilograms of a concatenation are the sum of the shipped kilograms of its parts. */
  lemma {:induction false} ShippedKilogramsConcat(a: seq<CartItem>, b: seq<CartItem>)
    ensures ShippedKilograms(a + b) == ShippedKilograms(a) + ShippedKilograms(b)
  {
    if b != [] {
      var b' := b[..|b| - 1];
      assert (a + b)[..|a + b| - 1] == a + b';
      assert (a + b)[|a + b| - 1] == b[|b| - 1];
      ShippedKilogramsConcat(a, b');
    } else {
      assert a + b == a;
    }
  }

  /** A cart with no shippable product is charged no shipping. */
  lemma {:induction false} NoShippableNoShipping(items: seq<CartItem>)
    requires ShippableItems(items) == []
    ensures ShippingCost(items) == 0.0
  {
    if items != [] {
      var front := items[..|items| - 1];
      ShippableItemsConcat(front, [items[|items| - 1]]);
      assert front + [items[|items| - 1]] == items;
      NoShippableNoShipping(front);
    }
  }

  /** Shipping is never negative when weights and quantities are not. */
  lemma {:induction false} ShippingNonnegative(items: seq<CartItem>)
    requires forall it | it in items :: it.quantity >= 0 && (it.product.IsShippable() ==> it.product.GetWeight() >= 0.0)
    ensures ShippingCost(items) >= 0.0
  {
    if items != [] {
      var front := items[..|items| - 1];
      assert forall it | it in front :: it in items;
      ShippingNonnegative(front);
    }
  }
}

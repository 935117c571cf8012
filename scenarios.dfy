/**
 * Concrete runs of the store, as client code would drive it: the program's
 * own example order, the add-time stock check, the refusals of checkout, and
 * a product named on two lines.
 */
module Scenarios {
  import opened Catalog
  import opened Carts
  import opened Checkout

  /** Ticks in one day; instants are counted in ticks. */
  const TicksPerDay: int := 864_000_000_000

  /** The products named by a three-line cart. */
  lemma ThreeProducts(a: CartItem, b: CartItem, c: CartItem)
    ensures Products([a, b, c]) == {a.product, b.product, c.product}
  {
    var items := [a, b, c];
    assert items[0] in items && items[1] in items && items[2] in items;
  }

  /** The products named by a two-line cart. */
  lemma TwoProducts(a: CartItem, b: CartItem)
    ensures Products([a, b]) == {a.product, b.product}
  {
    var items := [a, b];
    assert items[0] in items && items[1] in items;
  }

  /** The product named by a one-line cart. */
  lemma OneProduct(a: CartItem)
    ensures Products([a]) == {a.product}
  {
    assert [a][0] in [a];
  }

  /** The checkout figures of a one-line cart. */
  lemma OneLine(a: CartItem, p: Product)
    ensures Subtotal([a]) == a.GetTotalPrice()
    ensures ShippingCost([a]) == LineKilograms(a) * WeightBasedShipping
    ensures Demand([a], p) == LineDemand(a, p)
  {
    AppendLineCharges([], a, p);
    assert [] + [a] == [a];
  }

  /** The checkout figures of a two-line cart. */
  lemma TwoLines(a: CartItem, b: CartItem, p: Product)
    ensures Subtotal([a, b]) == a.GetTotalPrice() + b.GetTotalPrice()
    ensures ShippingCost([a, b]) == (LineKilograms(a) + LineKilograms(b)) * WeightBasedShipping
    ensures Demand([a, b], p) == LineDemand(a, p) + LineDemand(b, p)
  {
    OneLine(a, p);
    AppendLineCharges([a], b, p);
    assert [a] + [b] == [a, b];
  }

  /** The checkout figures of a three-line cart. */
  lemma ThreeLines(a: CartItem, b: CartItem, c: CartItem, p: Product)
    ensures Subtotal([a, b, c]) == a.GetTotalPrice() + b.GetTotalPrice() + c.GetTotalPrice()
    ensures ShippingCost([a, b, c]) == (LineKilograms(a) + LineKilograms(b) + LineKilograms(c)) * WeightBasedShipping
    ensures Demand([a, b, c], p) == LineDemand(a, p) + LineDemand(b, p) + LineDemand(c, p)
  {
    TwoLines(a, b, p);
    AppendLineCharges([a, b], c, p);
    assert [a, b] + [c] == [a, b, c];
  }

  /** The figures of the example order's cart, worked out line by line. */
  lemma ExampleOrderFigures(pCheese: Product, pBiscuits: Product, pCandy: Product, now: int)
    requires pCheese.price == 100.0 && pCheese.quantity == 2 && pCheese.weight == Some(400.0)
    requires pCheese.expiryDate == Some(now + 2 * TicksPerDay)
    requires pBiscuits.price == 150.0 && pBiscuits.quantity == 1 && pBiscuits.weight == Some(700.0)
    requires pBiscuits.expiryDate == None
    requires pCandy.price == 2.0 && pCandy.quantity == 20 && pCandy.weight == None
    requires pCandy.expiryDate == Some(now + TicksPerDay)
    requires pCheese != pBiscuits && pCheese != pCandy && pBiscuits != pCandy
    ensures var items := [CartItem(pCheese, 2), CartItem(pBiscuits, 1), CartItem(pCandy, 1)];
      && Subtotal(items) == 352.0 && ShippingCost(items) == 30.0 && Total(items) == 382.0
      && Demand(items, pCheese) == 2 && Demand(items, pBiscuits) == 1 && Demand(items, pCandy) == 1
      && AllAvailable(items, now)
  {
    var a, b, c := CartItem(pCheese, 2), CartItem(pBiscuits, 1), CartItem(pCandy, 1);
    ThreeLines(a, b, c, pCheese);
    ThreeLines(a, b, c, pBiscuits);
    ThreeLines(a, b, c, pCandy);
  }

  /**
   * The example order: cheese (shippable, expirable, 400 g, 100.00, stock 2)
   * x2, biscuits (shippable, 700 g, 150.00, stock 1) x1 and candy (expirable,
   * 2.00, stock 20) x1, paid from a balance of 500. All three adds succeed;
   * the subtotal is 352, shipping (0.8 + 0.7 kg at 20) is 30, so 382 is
   * charged and 118 remains.
   */
  method ExampleOrder(now: int) returns (r: Outcome<StoreError>, remaining: real, cheese: int, biscuits: int, candy: int)
    ensures r == Pass && remaining == 118.0
    ensures cheese == 0 && biscuits == 0 && candy == 19
  {
    var customer, pCheese, pBiscuits, pCandy := ExampleCart(now);
    var items := customer.cart.items;
    ExampleOrderFigures(pCheese, pBiscuits, pCandy, now);
    ThreeProducts(CartItem(pCheese, 2), CartItem(pBiscuits, 1), CartItem(pCandy, 1));
    r := customer.Checkout(now);
    remaining := customer.balance;
    cheese, biscuits, candy := pCheese.quantity, pBiscuits.quantity, pCandy.quantity;
  }

  /** The example order's customer and products, with all three lines added. */
  method ExampleCart(now: int) returns (customer: Customer, pCheese: Product, pBiscuits: Product, pCandy: Product)
    ensures fresh(customer) && fresh(customer.cart) && fresh(pCheese) && fresh(pBiscuits) && fresh(pCandy)
    ensures pCheese != pBiscuits && pCheese != pCandy && pBiscuits != pCandy
    ensures pCheese.price == 100.0 && pCheese.quantity == 2 && pCheese.weight == Some(400.0)
    ensures pCheese.expiryDate == Some(now + 2 * TicksPerDay)
    ensures pBiscuits.price == 150.0 && pBiscuits.quantity == 1 && pBiscuits.weight == Some(700.0)
    ensures pBiscuits.expiryDate == None
    ensures pCandy.price == 2.0 && pCandy.quantity == 20 && pCandy.weight == None
    ensures pCandy.expiryDate == Some(now + TicksPerDay)
    ensures customer.balance == 500.0
    ensures customer.cart.items == [CartItem(pCheese, 2), CartItem(pBiscuits, 1), CartItem(pCandy, 1)]
  {
    pCheese := new Product("chesse", 100.0, 2, Some(now + 2 * TicksPerDay), Some(400.0));
    pBiscuits := new Product("Biscuits", 150.0, 1, None, Some(700.0));
    pCandy := new Product("Candy", 2.0, 20, Some(now + TicksPerDay), None);
    customer := new Customer("Alice", 500.0);
    var added := customer.cart.AddProduct(pCheese, 2);
    added := customer.cart.AddProduct(pBiscuits, 1);
    added := customer.cart.AddProduct(pCandy, 1);
  }

  /**
   * The stock check at add time: two units of a product with two in stock
   * are accepted, three units of a product with one in stock are refused and
   * leave the cart as it was.
   */
  method AddTimeStockCheck() returns (first: Outcome<StoreError>, second: Outcome<StoreError>, lines: int)
    ensures first == Pass && second == Fail(InsufficientStock) && lines == 1
  {
    var plenty := new Product("cheese", 100.0, 2, None, Some(400.0));
    var scarce := new Product("tv", 300.0, 1, None, Some(5000.0));
    var cart := new Cart();
    first := cart.AddProduct(plenty, 2);
    second := cart.AddProduct(scarce, 3);
    lines := |cart.items|;
  }

  /**
   * A shippable-only order: two units at 100.00 weighing 400 g each ship
   * 0.8 kg for 16, on a subtotal of 200; adding one non-shippable unit at
   * 150.00 raises the subtotal to 350 without changing shipping, and a
   * balance of 500 is left with 134.
   */
  method ShippingScenario() returns (shippingOnly: real, total: real, r: Outcome<StoreError>, remaining: real)
    ensures shippingOnly == 16.0 && total == 366.0 && r == Pass && remaining == 134.0
  {
    var customer, cheese, card := ShippingCart();
    ShippingScenarioFigures(cheese, card);
    shippingOnly := ShippingCost(customer.cart.items);
    var added := customer.cart.AddProduct(card, 1);
    var items := customer.cart.items;
    assert items == [CartItem(cheese, 2), CartItem(card, 1)];
    TwoProducts(CartItem(cheese, 2), CartItem(card, 1));
    total := Total(items);
    r := customer.Checkout(0);
    remaining := customer.balance;
  }

  /** The shipping scenario's customer, with its shippable line added and the non-shippable product aside. */
  method ShippingCart() returns (customer: Customer, cheese: Product, card: Product)
    ensures fresh(customer) && fresh(customer.cart) && fresh(cheese) && fresh(card) && cheese != card
    ensures cheese.price == 100.0 && cheese.quantity == 5 && cheese.weight == Some(400.0) && cheese.expiryDate == None
    ensures card.price == 150.0 && card.quantity == 5 && card.weight == None && card.expiryDate == None
    ensures customer.balance == 500.0 && customer.cart.items == [CartItem(cheese, 2)]
  {
    cheese := new Product("cheese", 100.0, 5, None, Some(400.0));
    card := new Product("scratch card", 150.0, 5, None, None);
    customer := new Customer("Bob", 500.0);
    var added := customer.cart.AddProduct(cheese, 2);
  }

  /** The figures of the shipping scenario's cart, before and after its second line. */
  lemma ShippingScenarioFigures(cheese: Product, card: Product)
    requires cheese.price == 100.0 && cheese.quantity == 5 && cheese.weight == Some(400.0) && cheese.expiryDate == None
    requires card.price == 150.0 && card.quantity == 5 && card.weight == None && card.expiryDate == None
    ensures ShippingCost([CartItem(cheese, 2)]) == 16.0
    ensures Total([CartItem(cheese, 2), CartItem(card, 1)]) == 366.0
    ensures AllAvailable([CartItem(cheese, 2), CartItem(card, 1)], 0)
  {
    OneLine(CartItem(cheese, 2), cheese);
    TwoLines(CartItem(cheese, 2), CartItem(card, 1), cheese);
  }

  /** Checking out an empty cart is refused and changes nothing. */
  method EmptyCartScenario(now: int) returns (r: Outcome<StoreError>, remaining: real)
    ensures r == Fail(EmptyCart) && remaining == 500.0
  {
    var customer := new Customer("Carol", 500.0);
    r := customer.Checkout(now);
    remaining := customer.balance;
  }

  /**
   * A product that expires after it was added is refused at checkout; its
   * stock, the balance and the cart are left as they were.
   */
  method ExpiredAtCheckout(now: int) returns (r: Outcome<StoreError>, stock: int, remaining: real, lines: int)
    ensures r == Fail(Expired) && stock == 3 && remaining == 500.0 && lines == 1
  {
    var milk := new Product("milk", 10.0, 3, Some(now + TicksPerDay), None);
    var customer := new Customer("Dan", 500.0);
    var added := customer.cart.AddProduct(milk, 1);
    assert customer.cart.items == [CartItem(milk, 1)];
    OneProduct(CartItem(milk, 1));
    r := customer.Checkout(now + 2 * TicksPerDay);
    stock, remaining, lines := milk.quantity, customer.balance, |customer.cart.items|;
  }

  /**
   * A balance that does not cover the total is refused; the stock, the
   * balance and the cart are left as they were.
   */
  method InsufficientBalanceScenario() returns (r: Outcome<StoreError>, stock: int, remaining: real, lines: int)
    ensures r == Fail(InsufficientBalance) && stock == 2 && remaining == 100.0 && lines == 1
  {
    var cheese := new Product("cheese", 100.0, 2, None, Some(400.0));
    var customer := new Customer("Erin", 100.0);
    var added := customer.cart.AddProduct(cheese, 1);
    var items := customer.cart.items;
    assert items == [CartItem(cheese, 1)];
    OneProduct(CartItem(cheese, 1));
    OneLine(CartItem(cheese, 1), cheese);
    assert Total(items) == 108.0;
    assert AllAvailable(items, 0);
    r := customer.Checkout(0);
    stock, remaining, lines := cheese.quantity, customer.balance, |customer.cart.items|;
  }

  /**
   * A successful checkout empties the cart, so checking out again at once is
   * refused as an empty cart.
   */
  method SecondCheckoutFails() returns (first: Outcome<StoreError>, second: Outcome<StoreError>)
    ensures first == Pass && second == Fail(EmptyCart)
  {
    var card := new Product("scratch card", 50.0, 4, None, None);
    var customer := new Customer("Fay", 100.0);
    var added := customer.cart.AddProduct(card, 1);
    var items := customer.cart.items;
    assert items == [CartItem(card, 1)];
    OneProduct(CartItem(card, 1));
    OneLine(CartItem(card, 1), card);
    assert AllAvailable(items, 0);
    first := customer.Checkout(0);
    second := customer.Checkout(0);
  }

  /**
   * Oversell: the same product (stock 2) added twice with 2 units each. Both
   * adds and the per-line checkout check pass, and checkout drives the stock
   * to -2.
   */
  method Oversell() returns (r: Outcome<StoreError>, stock: int)
    ensures r == Pass && stock == -2
  {
    var cheese := new Product("cheese", 100.0, 2, None, None);
    var customer := new Customer("Gus", 1000.0);
    var added := customer.cart.AddProduct(cheese, 2);
    added := customer.cart.AddProduct(cheese, 2);
    var items := customer.cart.items;
    assert items == [CartItem(cheese, 2), CartItem(cheese, 2)];
    TwoProducts(CartItem(cheese, 2), CartItem(cheese, 2));
    DuplicateLinesPassValidation(cheese, 0);
    TwoLines(CartItem(cheese, 2), CartItem(cheese, 2), cheese);
    assert Total(items) == 400.0;
    r := customer.Checkout(0);
    stock := cheese.quantity;
  }
}

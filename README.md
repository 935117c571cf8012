# Store checkout, modelled in Dafny

This project models the checkout logic of a small retail console program in C#.

- **Products** are catalog entries with a name, a unit price and a stock count. Each has two optional capabilities:
  - *expirable*: the product has an expiry date and has expired once the current instant is past it;
  - *shippable*: the product has a weight in grams.
- **Carts** hold an ordered list of line items. A line item pairs a shared product with a requested quantity. Adding a line checks the product's current stock but does not reserve it.
- **Customers** hold a balance and own one cart. `Checkout` is a single transaction:
  1. refuse an empty cart;
  2. refuse the first line whose product is expired or short of stock;
  3. price the cart: subtotal plus shipping at 20 per kilogram;
  4. refuse when the balance does not cover the total;
  5. otherwise take each line's quantity from its product, charge the balance and empty the cart.

Modules:

- `catalog.dfy` (`Catalog`): the `Product` class and the `CartItem` line datatype. Also the error kinds (`EmptyCart`, `Expired`, `InsufficientStock`, `InsufficientBalance`) and the `Outcome` result type, which stands for the exceptions.
- `cart.dfy` (`Carts`): the `Cart` class with `AddProduct`, and the cart's aggregate queries as functions over the line sequence.
- `checkout.dfy` (`Checkout`): shipping, the checkout decision `CheckoutResult`, and the `Customer` class. Its `Checkout` method is proved against `CheckoutResult` and `Demand`, with the validation loop (`Validate`) and the settling loop (`TakeStock`) as separate methods.
- `scenarios.dfy` (`Scenarios`): concrete client runs, including the program's own example order.

Representation choices:

- Money and weight are `real`, so `weight / 1000 * quantity * 20` is exact.
- Instants are `int` ticks. The current instant is a parameter `now`; the model does not read the clock.
- A product's stock (`quantity`) is the only field the modelled code changes, so it is the product's only `var`.
- Several lines may name the same product object. The effect of a checkout on stock is therefore stated per product: each product loses `Demand(items, p)`, which is the sum of the quantities of every line that names it.

The per-line stock check does not cover a product that appears on two lines. Checkout validates each line against the product's stock on its own (`Program.cs:126`), but then subtracts every line (`Program.cs:155`). Two lines of 2 units on a product with 2 in stock pass validation and leave the stock at -2. `DuplicateLinesPassValidation` and `Scenarios.Oversell` exhibit this. The model keeps the code's behaviour, so stock can go negative: `Checkout` promises non-negative stock only for carts whose lines name distinct products, via `ValidatedDistinctCartCovered`. Quantities and weights are not checked to be positive anywhere in the code, so the model accepts any value.

## Model

| member | source | states |
|---|---|---|
| `Catalog.Product.constructor` | Task/Task/Task/Program.cs:15-20 | a product starts with the given name, price, stock and capabilities |
| `Catalog.Product.IsExpired` | Task/Task/Task/Program.cs:42 | a non-expirable product is never expired (line 21); an expirable one is expired exactly when `now` is strictly after its expiry date |
| `Catalog.ExpiryIsPermanent` | Task/Task/Task/Program.cs:42 | once expired at some instant, a product stays expired at every later instant |
| `Catalog.Product.IsShippable` | Task/Task/Task/Program.cs:97 | a product counts as shippable (the `is IShippable` test, also at line 132) exactly when it has a weight |
| `Catalog.Product.GetWeight` | Task/Task/Task/Program.cs:54 | only a shippable product has a weight; the accessor returns that weight (line 66 is the same for non-expirable products) |
| `Catalog.CartItem.GetTotalPrice` | Task/Task/Task/Program.cs:79 | a line's total is zero for quantity 0 and the unit price for quantity 1; it is non-negative when price and quantity are |
| `Carts.Cart.constructor` | Task/Task/Task/Program.cs:83 | a new cart has no lines |
| `Carts.Cart.AddProduct` | Task/Task/Task/Program.cs:85-90 | refuses with InsufficientStock exactly when stock < quantity, and then the lines are unchanged; otherwise appends exactly one line (product, quantity) at the end; the product's stock is never changed |
| `Carts.IsEmpty` | Task/Task/Task/Program.cs:102 | "no line exists" holds exactly when the line list has length 0 |
| `Carts.Subtotal` | Task/Task/Task/Program.cs:92 | the subtotal is non-negative when every line's price and quantity are |
| `Carts.SubtotalConcat` | Task/Task/Task/Program.cs:92 | the subtotal of two line lists joined is the sum of their subtotals |
| `Carts.ShippableItems` | Task/Task/Task/Program.cs:94-100 | at most one product per line, and every product returned is shippable and named by some line |
| `Carts.ShippableItemsComplete` | Task/Task/Task/Program.cs:97 | every shippable line's product is among the shippable products |
| `Carts.ShippableItemsConcat` | Task/Task/Task/Program.cs:96-99 | the shippable products of joined lists are those of the first list followed by those of the second: insertion order is kept |
| `Carts.AppendLine` | Task/Task/Task/Program.cs:89 | adding a line raises the subtotal by the new line's total (price × quantity), appends the product to the shippable products exactly when it is shippable, and makes the cart non-empty |
| `Checkout.LineError` | Task/Task/Task/Program.cs:124-127 | a line passes exactly when its product is not expired and has at least the requested stock; it fails with Expired exactly when the product is expired, and with InsufficientStock exactly when the product is not expired but its stock is below the requested quantity, so expiry is reported before stock |
| `Checkout.AllAvailable` | Task/Task/Task/Program.cs:122-128 | every line passes exactly when, at every index, the line's product is not expired and its stock covers the line's quantity |
| `Checkout.FirstFailure` | Task/Task/Task/Program.cs:122-128 | no error exactly when every line passes; otherwise the error is that of some line all of whose predecessors pass, i.e. the first failing line |
| `Checkout.Validate` | Task/Task/Task/Program.cs:122-128 | the validation loop returns exactly `FirstFailure` of the lines |
| `Checkout.LineKilograms` | Task/Task/Task/Program.cs:132-133 | a line whose product is not shippable, or whose quantity is 0, ships no weight; a shippable line with non-negative weight and quantity ships a non-negative weight |
| `Checkout.ShippedKilograms` | Task/Task/Task/Program.cs:131-133 | a cart with no shippable line ships 0 kilograms |
| `Checkout.ShippingCost` | Task/Task/Task/Program.cs:119-134 | shipping, charged at the rate `WeightBasedShipping` = 20 per kilogram (line 119), is zero exactly when the shipped weight is zero, and is zero for a cart with no shippable line |
| `Checkout.Total` | Task/Task/Task/Program.cs:150 | a cart with no shippable products costs exactly its subtotal |
| `Checkout.Demand` | Task/Task/Task/Program.cs:154-155 | a product no line names is asked for 0 units |
| `Checkout.AppendLineCharges` | Task/Task/Task/Program.cs:130-134 | one more line adds its total to the subtotal, weight/1000 × quantity to the shipped kilograms (20 per kilogram to shipping, 0 if not shippable) and its quantity to its product's demand |
| `Checkout.ShippedKilogramsConcat` | Task/Task/Task/Program.cs:131-133 | the shipped weight of joined line lists is the sum of their shipped weights |
| `Checkout.NoShippableNoShipping` | Task/Task/Task/Program.cs:131-134 | a cart with no shippable product is charged no shipping |
| `Checkout.ShippingNonnegative` | Task/Task/Task/Program.cs:131-134 | shipping is non-negative when weights and quantities are |
| `Checkout.CheckoutResult` | Task/Task/Task/Program.cs:117-153 | EmptyCart exactly for an empty cart; success exactly when the cart is non-empty, every line passes and the total is within the balance; InsufficientBalance exactly when every line passes but the balance is below the total; for a non-empty cart with a failing line, the error is that of the first failing line |
| `Checkout.TakeStock` | Task/Task/Task/Program.cs:154-155 | every product named by the lines loses exactly its demand, the sum over the lines that name it |
| `Checkout.DemandOfDistinct` | Task/Task/Task/Program.cs:154-155 | when no product is named twice, a line's product is asked for exactly that line's quantity |
| `Checkout.ValidatedDistinctCartCovered` | Task/Task/Task/Program.cs:122-128 | when every line passes and no product is named twice, no product's demand exceeds its stock |
| `Checkout.DuplicateLinesPassValidation` | Task/Task/Task/Program.cs:126 | two lines of 2 units on a product with stock 2 pass validation, yet ask for 4 units |
| `Checkout.Customer.constructor` | Task/Task/Task/Program.cs:111-115 | a customer starts with the given name and balance and a fresh empty cart |
| `Checkout.Customer.Checkout` | Task/Task/Task/Program.cs:117-164 | the outcome is `CheckoutResult` of the cart before the call. On refusal, stock, balance and cart are unchanged. On success, each product loses its demand, the balance loses exactly subtotal + shipping and stays ≥ 0, the cart is empty, and a second checkout would be refused as EmptyCart. Stock stays ≥ 0 when no product is named twice |
| `Scenarios.ExampleOrder` | Task/Task/Task/Program.cs:168-185 | the example order is accepted: subtotal 352, shipping 30 (0.8 kg + 0.7 kg at 20), balance 500 → 118; stocks end at 0, 0 and 19 |
| `Scenarios.AddTimeStockCheck` | Task/Task/Task/Program.cs:85-90 | adding 2 units with stock 2 succeeds; adding 3 units with stock 1 fails with InsufficientStock and leaves one line |
| `Scenarios.ShippingScenario` | Task/Task/Task/Program.cs:130-157 | 2 × 100.00 at 400 g ship for 16; adding a non-shippable 150.00 line gives total 366, and a balance of 500 is left with 134 |
| `Scenarios.EmptyCartScenario` | Task/Task/Task/Program.cs:120-121 | checkout of an empty cart fails with EmptyCart and leaves the balance |
| `Scenarios.ExpiredAtCheckout` | Task/Task/Task/Program.cs:124-125 | a product that expired after it was added fails checkout with Expired; stock, balance and cart are unchanged |
| `Scenarios.InsufficientBalanceScenario` | Task/Task/Task/Program.cs:150-153 | a total of 108 against a balance of 100 fails with InsufficientBalance; stock, balance and cart are unchanged |
| `Scenarios.SecondCheckoutFails` | Task/Task/Task/Program.cs:163 | a successful checkout empties the cart, so an immediate second one fails with EmptyCart |
| `Scenarios.Oversell` | Task/Task/Task/Program.cs:122-155 | one product with stock 2 on two lines of 2 units: checkout succeeds and leaves the stock at -2 |

## Left out

- Console output is not modelled: `DisplayInfo`, the shipment notice with its total package weight, the receipt, and the summary lines (`Program.cs:22-25`, `37-41`, `135-149`, `159-162`). It is formatting only and changes no modelled state. `IShippable.GetName` is left out too, because it only feeds that output. The code prints the notice and receipt before the balance check; the model keeps that order without the output.
- IEEE `double` arithmetic, the `(double)` cast of the `decimal` price, and rounding are not modelled. Amounts are exact reals.
- 32-bit `int` wrap-around of stock and quantities is not modelled. Integers are unbounded.
- Reading `DateTime.Now` is replaced by the `now` parameter.
- Exception message texts are dropped; only the error kind is kept.
- In the code `Product` is abstract (`Program.cs:9`) and every concrete product class has at least one of the two capabilities. The model allows a product with neither. No proved property depends on this.
- The public setters of `Name`, `Price` and `ExpiryDate` are never called by the modelled code. These fields are constants in the model, and a product's capabilities are fixed when it is created.
- The `Main` driver's try/catch around the third `AddProduct` is not modelled. That add succeeds, as `Scenarios.ExampleOrder` shows.
- Checkout.Customer.Checkout: stock is guaranteed to stay ≥ 0 only for carts whose lines name distinct products. The code validates each line on its own, so a product named on several lines can be oversold.

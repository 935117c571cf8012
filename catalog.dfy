/**
 * Catalog entries of the store: products with two optional capabilities
 * (an expiry date and a shipping weight), the line items a cart holds, and
 * the error kinds the store's operations report.
 */
module Catalog {

  datatype Option<+T> = None | Some(value: T)

  /** Either the operation went through, or it was refused with an error. */
  datatype Outcome<+E> = Pass | Fail(error: E)

  /** The exceptions the store raises, kept as kinds (their messages are dropped). */
  datatype StoreError = EmptyCart | Expired | InsufficientStock | InsufficientBalance

  /**
   * A catalog entry. Its stock (`quantity`) is shared by every cart line that
   * refers to it and is the only field checkout changes. A product is
   * expirable when it has an `expiryDate` (an instant in ticks) and shippable
   * when it has a `weight` (in grams); any combination of the two is allowed.
   */
  class Product {
    const name: string
    const price: real
    var quantity: int
    const expiryDate: Option<int>
    const weight: Option<real>

    constructor (name: string, price: real, quantity: int, expiryDate: Option<int>, weight: Option<real>)
      ensures this.name == name && this.price == price && this.quantity == quantity
      ensures this.expiryDate == expiryDate && this.weight == weight
    {
      this.name := name;
      this.price := price;
      this.quantity := quantity;
      this.expiryDate := expiryDate;
      this.weight := weight;
    }

    /** A plain product never expires; an expirable one has expired once `now` is past its date. */
    predicate IsExpired(now: int)
      ensures expiryDate.None? ==> !IsExpired(now)
      ensures expiryDate.Some? ==> (IsExpired(now) <==> expiryDate.value < now)
    {
      match expiryDate
      case None => false
      case Some(date) => now > date
    }

    /** The product offers the shipping capability (it has a weight). */
    predicate IsShippable()
      ensures IsShippable() <==> weight != None
    {
      weight.Some?
    }

    /** The weight in grams; only a shippable product has one. */
    function GetWeight(): (grams: real)
      requires IsShippable()
      ensures Some(grams) == weight
    {
      weight.value
    }
  }

  /** Expiry is permanent: a product expired at some instant stays expired afterwards. */
  lemma ExpiryIsPermanent(p: Product, now: int, later: int)
    requires now <= later && p.IsExpired(now)
    ensures p.IsExpired(later)
  {
  }

  /** One line of a cart: a shared (not owned) product and the quantity requested. */
  datatype CartItem = CartItem(product: Product, quantity: int) {

    /** Unit price times requested quantity. */
    function GetTotalPrice(): (total: real)
      ensures quantity == 0 ==> total == 0.0
      ensures quantity == 1 ==> total == product.price
      ensures product.price >= 0.0 && quantity >= 0 ==> total >= 0.0
    {
      product.price * quantity as real
    }
  }

  /** The products the given lines refer to (several lines may name the same one). */
  function Products(items: seq<CartItem>): set<Product>
  {
    set it | it in items :: it.product
  }

  /** No two lines name the same product. */
  predicate DistinctProducts(items: seq<CartItem>)
  {
    forall i, j :: 0 <= i < j < |items| ==> items[i].product != items[j].product
  }
}

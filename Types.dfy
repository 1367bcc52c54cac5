/**
 * Records shared by the storefront components: the product and cart-entry
 * shapes the backend returns, the outcome of a backend or SDK call, the
 * parent-owned drawer value, the routes components navigate to, and the
 * small arithmetic rules (JavaScript rounding, ceiling division) several
 * components use.
 */
module Types {

  datatype Option<T> = None | Some(value: T)

  /** The outcome of one backend or SDK call: the data it resolved with, or
      a rejection carrying the error's message. */
  datatype Fetch<T> = Ok(data: T) | Failed(message: string)

  /** A product as the backend sends it; `onsale` holds the sale's discount
      factor when the product is on sale. */
  datatype Product = Product(id: int, name: string, price: int, stocks: int, onsale: Option<real>)

  /** One cart (or wishlist) entry: one unit of one product, with the
      entry's own id. */
  datatype CartItem = CartItem(id: int, product: Product)

  /** Which drawer is open; `NoDrawer` is the source's `null`. Being one
      value, at most one drawer can be open. */
  datatype Drawer = NoDrawer | NavDrawer | WishDrawer | CartDrawer

  /** The routes the modelled components navigate to. */
  datatype Route = ProductRoute(productId: int) | CheckoutRoute | OrderRoute(orderId: int) | HomeRoute

  /** JavaScript's `Math.round` on exact reals: the nearest integer, with
      halves rounded up. */
  function Round(x: real): (r: int)
    ensures x - 0.5 < r as real <= x + 0.5
  {
    (x + 0.5).Floor
  }

  /** The price a customer pays for one unit: the rounded discounted price
      while on sale, the list price otherwise. */
  function EffectivePrice(p: Product): (r: int)
    ensures p.onsale.None? ==> r == p.price
    ensures p.onsale == Some(1.0) ==> r == p.price
    ensures p.onsale == Some(0.0) ==> r == 0
  {
    match p.onsale
    case None => p.price
    case Some(discount) => Round(p.price as real * discount)
  }

  /** A sale with a discount in 0..1 never makes a non-negative list price
      negative nor raises it. */
  lemma EffectivePriceBounds(p: Product)
    requires 0 <= p.price
    requires p.onsale.Some? ==> 0.0 <= p.onsale.value <= 1.0
    ensures 0 <= EffectivePrice(p) <= p.price
  {
    if p.onsale.Some? {
      DiscountBelowPrice(p.price, p.onsale.value);
    }
  }

  /** Rounding a discounted amount never goes below zero nor above the
      undiscounted amount. */
  lemma DiscountBelowPrice(amount: int, discount: real)
    ensures 0.0 <= discount <= 1.0 && 0 <= amount ==> 0 <= Round(amount as real * discount) <= amount
  {
    if 0.0 <= discount <= 1.0 && 0 <= amount {
      var x := amount as real * discount;
      assert 0.0 <= x <= amount as real by {
        assert amount as real * (1.0 - discount) >= 0.0;
      }
    }
  }

  /** `Math.ceil(a / b)` for a non-negative count and a positive page size. */
  function CeilDiv(a: nat, b: nat): (r: nat)
    requires b > 0
    ensures (r - 1) * b < a <= r * b
    ensures r == 0 <==> a == 0
  {
    (a + b - 1) / b
  }
}

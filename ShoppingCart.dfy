/**
 * The cart drawer: one row per cart entry showing its effective price in
 * alternating styles, a total that sums the same prices, a count badge
 * shown only for a non-empty cart, and buttons that close or open the
 * parent-owned drawer, navigate, or ask the parent to delete an entry.
 */
module ShoppingCart {
  import opened Types
  import Checkout

  /** The tag the delete button passes along with the entry id. */
  const CartTag := "cart"

  /** The two row styles (`bg-primary` and `bg-secondary`). */
  datatype RowStyle = Primary | Secondary

  /** A rendered row: its style, the price it shows, the arguments its
      delete button passes, and the product its name links to. */
  datatype Row = Row(style: RowStyle, price: int, deleteArgs: (int, string), productLink: int)

  /** What a button of the drawer does, in order: set the parent's drawer,
      or navigate. */
  datatype Effect = SetDrawer(drawer: Drawer) | Navigate(route: Route)

  /** The drawer's buttons other than the per-row delete. */
  datatype CartEvent = GoProduct(productId: int) | GoCheckout | CartIcon | DrawerClose | BackArrow

  function RowFor(item: CartItem, i: int): Row
  {
    Row(if i % 2 == 0 then Primary else Secondary, EffectivePrice(item.product), (item.id, CartTag), item.product.id)
  }

  /** The rows of the drawer's table, one per entry in cart order. */
  function Rows(cart: seq<CartItem>): (rows: seq<Row>)
    ensures |rows| == |cart|
    ensures forall i :: 0 <= i < |cart| ==> rows[i].price == EffectivePrice(cart[i].product)
    ensures forall i :: 0 <= i < |cart| ==> rows[i].deleteArgs == (cart[i].id, CartTag)
    ensures forall i :: 0 <= i < |cart| ==> rows[i].productLink == cart[i].product.id
    ensures forall i :: 0 <= i < |cart| ==> (rows[i].style == Primary <==> i % 2 == 0)
  {
    seq(|cart|, i requires 0 <= i < |cart| => RowFor(cart[i], i))
  }

  /** Neighbouring rows never share a style. */
  lemma RowStylesAlternate(cart: seq<CartItem>, i: nat)
    requires i + 1 < |cart|
    ensures Rows(cart)[i].style != Rows(cart)[i + 1].style
  {
    var rows := Rows(cart);
    assert rows[i].style == Primary <==> i % 2 == 0;
    assert rows[i + 1].style == Primary <==> (i + 1) % 2 == 0;
  }

  /** Sum of the prices the rows show. */
  function DisplayedSum(rows: seq<Row>): int
  {
    if |rows| == 0 then 0 else DisplayedSum(rows[..|rows| - 1]) + rows[|rows| - 1].price
  }

  /** The rows of a cart prefix are the prefix of the rows. */
  lemma RowsPrefix(cart: seq<CartItem>, k: nat)
    requires k <= |cart|
    ensures Rows(cart[..k]) == Rows(cart)[..k]
  {
    assert |Rows(cart[..k])| == k;
    forall i | 0 <= i < k
      ensures Rows(cart[..k])[i] == Rows(cart)[i]
    {
      assert cart[..k][i] == cart[i];
    }
  }

  /** The source's `totalAmount` accumulator over the cart. */
  method TotalAmount(cart: seq<CartItem>) returns (totalAmount: int)
    ensures totalAmount == DisplayedSum(Rows(cart))
    ensures totalAmount == Checkout.CartTotal(cart)
  {
    totalAmount := 0;
    for k := 0 to |cart|
      invariant totalAmount == DisplayedSum(Rows(cart[..k]))
    {
      RowsPrefix(cart, k);
      RowsPrefix(cart, k + 1);
      assert Rows(cart)[..k + 1][..k] == Rows(cart)[..k];
      totalAmount := totalAmount + (if cart[k].product.onsale.Some?
                                     then Round(cart[k].product.price as real * cart[k].product.onsale.value)
                                     else cart[k].product.price);
    }
    assert cart[..|cart|] == cart;
    DrawerTotalIsCheckoutTotal(cart);
  }

  /** The drawer's total is the checkout page's total for the same cart. */
  lemma {:induction false} DrawerTotalIsCheckoutTotal(cart: seq<CartItem>)
    ensures DisplayedSum(Rows(cart)) == Checkout.CartTotal(cart)
    decreases |cart|
  {
    if |cart| > 0 {
      var init := cart[..|cart| - 1];
      DrawerTotalIsCheckoutTotal(init);
      RowsPrefix(cart, |cart| - 1);
    }
  }

  /** The count badge: shown only for a non-empty cart, displaying its
      length. */
  function Badge(cart: seq<CartItem>): (r: Option<nat>)
    ensures r.Some? <==> |cart| > 0
    ensures r.Some? ==> r.value == |cart|
  {
    if |cart| > 0 then Some(|cart|) else None
  }

  /** The effects of a button, in the order the source performs them. */
  function Effects(e: CartEvent): (r: seq<Effect>)
    ensures |r| > 0 && r[0].SetDrawer?
    ensures r[0].drawer == (if e == CartIcon then CartDrawer else NoDrawer)
    ensures forall k :: 1 <= k < |r| ==> r[k].Navigate?
    ensures |r| == (if e.GoProduct? || e.GoCheckout? then 2 else 1)
    ensures e.GoProduct? ==> r == [SetDrawer(NoDrawer), Navigate(ProductRoute(e.productId))]
    ensures e.GoCheckout? ==> r == [SetDrawer(NoDrawer), Navigate(CheckoutRoute)]
  {
    match e
    case GoProduct(pid) => [SetDrawer(NoDrawer), Navigate(ProductRoute(pid))]
    case GoCheckout => [SetDrawer(NoDrawer), Navigate(CheckoutRoute)]
    case CartIcon => [SetDrawer(CartDrawer)]
    case DrawerClose => [SetDrawer(NoDrawer)]
    case BackArrow => [SetDrawer(NoDrawer)]
  }

  /** The drawer value after a run of effects. */
  function DrawerAfter(effects: seq<Effect>, current: Drawer): Drawer
    decreases |effects|
  {
    if |effects| == 0 then current
    else DrawerAfter(effects[1..], if effects[0].SetDrawer? then effects[0].drawer else current)
  }

  /** Only the cart icon leaves the cart drawer open; every other button
      leaves no drawer open, whatever was open before. */
  lemma DrawerAfterEvent(e: CartEvent, current: Drawer)
    ensures DrawerAfter(Effects(e), current) == (if e == CartIcon then CartDrawer else NoDrawer)
  {
    var r := Effects(e);
    var d := r[0].drawer;
    assert DrawerAfter(r, current) == DrawerAfter(r[1..], d);
    if |r| == 2 {
      assert r[1..][1..] == [];
      assert DrawerAfter(r[1..], d) == DrawerAfter([], d);
    } else {
      assert r[1..] == [];
    }
  }
}

/**
 * The application shell: the wishlist, the cart and the one drawer value
 * that decides which of the navigation, wishlist and cart drawers is open.
 * On load the wishlist is fetched, then the cart; adding a wish item
 * appends the backend's new entry and opens the wishlist drawer.
 */
module App {
  import opened Types

  /** The user id the shell starts with. */
  const DefaultUserId := 2

  /** The body of the add-to-wishlist request. */
  datatype WishRequest = WishRequest(userId: int, productId: int)

  /** Number of drawers a drawer value opens. */
  function OpenDrawers(drawer: Drawer): (n: nat)
    ensures n <= 1
    ensures n == 0 <==> drawer == NoDrawer
  {
    (if drawer == NavDrawer then 1 else 0) + (if drawer == WishDrawer then 1 else 0) + (if drawer == CartDrawer then 1 else 0)
  }

  class AppState {
    var userId: int
    var wishlist: seq<CartItem>
    var cart: seq<CartItem>
    var drawer: Drawer

    constructor ()
      ensures userId == DefaultUserId && wishlist == [] && cart == [] && drawer == NoDrawer
    {
      userId := DefaultUserId;
      wishlist := [];
      cart := [];
      drawer := NoDrawer;
    }

    predicate NavOpen(): (r: bool)
      reads this
      ensures r ==> OpenDrawers(drawer) == 1
      ensures r ==> drawer != WishDrawer && drawer != CartDrawer
      ensures drawer == NoDrawer ==> !r
    {
      drawer == NavDrawer
    }

    predicate WishOpen(): (r: bool)
      reads this
      ensures r ==> OpenDrawers(drawer) == 1
      ensures r ==> drawer != NavDrawer && drawer != CartDrawer
      ensures drawer == NoDrawer ==> !r
    {
      drawer == WishDrawer
    }

    predicate CartOpen(): (r: bool)
      reads this
      ensures r ==> OpenDrawers(drawer) == 1
      ensures r ==> drawer != NavDrawer && drawer != WishDrawer
      ensures drawer == NoDrawer ==> !r
    {
      drawer == CartDrawer
    }

    /** The three open flags derive from one value, so no two hold at once. */
    lemma AtMostOneOpen()
      ensures !(NavOpen() && WishOpen()) && !(NavOpen() && CartOpen()) && !(WishOpen() && CartOpen())
      ensures (NavOpen() || WishOpen() || CartOpen()) <==> OpenDrawers(drawer) == 1
    {
    }

    /** `setDrawer`, as the drawers call it. */
    method SetDrawer(d: Drawer)
      modifies this`drawer
      ensures drawer == d
    {
      drawer := d;
    }

    /** The load effect: the wishlist request, then the cart request only
        after the wishlist was stored. A failure stops the sequence and is
        only logged. */
    method Load(wishRes: Fetch<seq<CartItem>>, cartRes: Fetch<seq<CartItem>>) returns (cartRequested: bool)
      modifies this
      ensures cartRequested <==> wishRes.Ok?
      ensures userId == old(userId) && drawer == old(drawer)
      ensures wishlist == (if wishRes.Ok? then wishRes.data else old(wishlist))
      ensures cart == (if wishRes.Ok? && cartRes.Ok? then cartRes.data else old(cart))
    {
      cartRequested := false;
      match wishRes
      case Failed(_) =>
        return;
      case Ok(wishData) =>
        wishlist := wishData;
        cartRequested := true;
        match cartRes
        case Ok(cartData) =>
          cart := cartData;
        case Failed(_) =>
    }

    /** `handleAddWishItem`: post the request; on success append the new
        entry and open the wishlist drawer, on failure change nothing. */
    method HandleAddWishItem(productId: int, res: Fetch<CartItem>) returns (request: WishRequest)
      modifies this
      ensures request == WishRequest(old(userId), productId)
      ensures userId == old(userId) && cart == old(cart)
      ensures res.Ok? ==> wishlist == old(wishlist) + [res.data] && drawer == WishDrawer
      ensures res.Failed? ==> wishlist == old(wishlist) && drawer == old(drawer)
    {
      request := WishRequest(userId, productId);
      match res
      case Ok(data) =>
        wishlist := wishlist + [data];
        drawer := WishDrawer;
      case Failed(_) =>
    }
  }

  /** Starting from the initial state, a failed wishlist fetch leaves the
      cart empty. */
  method InitialLoad(wishRes: Fetch<seq<CartItem>>, cartRes: Fetch<seq<CartItem>>) returns (app: AppState)
    ensures wishRes.Failed? ==> app.cart == [] && app.wishlist == []
    ensures app.drawer == NoDrawer
  {
    app := new AppState();
    var _ := app.Load(wishRes, cartRes);
  }
}

/**
 * The checkout page: the cart (one entry per unit) is folded into a table
 * of per-product counts, the order is purchasable when the cart is
 * non-empty and no product's count exceeds its stock, the total sums every
 * entry's price, a member-level discount applies to it, "reduce one"
 * removes the first entry of a product, and the order payload lists the
 * entries' product ids in cart order.
 */
module Checkout {
  import opened Types

  /** One row of the checkout table: the product (taken from its first cart
      entry) and how many units of it the cart holds. */
  datatype Line = Line(product: Product, amounts: nat)

  /** The signed-in user's record; `discount` is the membership level's
      factor applied to the total. */
  datatype UserInfo = UserInfo(email: string, points: int, discount: real)

  /** The body of the order request; `userId` is `None` when the page's
      context supplies no user id, and the serialised body then has no
      `userId` field. */
  datatype OrderPayload = OrderPayload(userId: Option<int>, address: string, productIdList: seq<int>, amount: int)

  // ---------------------------------------------------------------------
  // Counting and the aggregation table

  /** Number of cart entries for product `pid`. */
  function Count(cart: seq<CartItem>, pid: int): nat
  {
    if |cart| == 0 then 0
    else Count(cart[..|cart| - 1], pid) + (if cart[|cart| - 1].product.id == pid then 1 else 0)
  }

  lemma {:induction false} CountAppend(a: seq<CartItem>, b: seq<CartItem>, pid: int)
    ensures Count(a + b, pid) == Count(a, pid) + Count(b, pid)
    decreases |b|
  {
    if |b| == 0 {
      assert a + b == a;
    } else {
      assert (a + b)[..|a + b| - 1] == a + b[..|b| - 1];
      CountAppend(a, b[..|b| - 1], pid);
    }
  }

  /** Index of the first cart entry for product `pid`, if there is one. */
  function FirstIndex(cart: seq<CartItem>, pid: int): (r: Option<nat>)
    ensures r.None? <==> forall i :: 0 <= i < |cart| ==> cart[i].product.id != pid
    ensures r.Some? ==> r.value < |cart| && cart[r.value].product.id == pid
    ensures r.Some? ==> forall i :: 0 <= i < r.value ==> cart[i].product.id != pid
    decreases |cart|
  {
    if |cart| == 0 then None
    else if cart[0].product.id == pid then Some(0)
    else match FirstIndex(cart[1..], pid)
      case None => None
      case Some(i) => Some(i + 1)
  }

  /** One step of the aggregation loop: count one more unit of the entry's
      product, creating its line on first sight. */
  function TallyStep(table: map<int, Line>, item: CartItem): map<int, Line>
  {
    var pid := item.product.id;
    if pid in table then table[pid := table[pid].(amounts := table[pid].amounts + 1)]
    else table[pid := Line(item.product, 1)]
  }

  /** The table the aggregation loop builds, as a left fold over the cart. */
  function Tally(cart: seq<CartItem>): map<int, Line>
  {
    if |cart| == 0 then map[] else TallyStep(Tally(cart[..|cart| - 1]), cart[|cart| - 1])
  }

  /** The table has a line exactly for each product in the cart, counting
      that product's entries. */
  lemma {:induction false} TallyAmounts(cart: seq<CartItem>, pid: int)
    ensures pid in Tally(cart) <==> Count(cart, pid) > 0
    ensures pid in Tally(cart) ==> Tally(cart)[pid].amounts == Count(cart, pid)
    decreases |cart|
  {
    if |cart| > 0 {
      var init := cart[..|cart| - 1];
      TallyAmounts(init, pid);
      assert Tally(cart) == TallyStep(Tally(init), cart[|cart| - 1]);
    }
  }

  /** An entry of the product with no earlier one is the first one. */
  lemma {:induction false} FirstIndexIs(cart: seq<CartItem>, pid: int, i: nat)
    requires i < |cart| && cart[i].product.id == pid
    requires forall k :: 0 <= k < i ==> cart[k].product.id != pid
    ensures FirstIndex(cart, pid) == Some(i)
    decreases i
  {
    if i > 0 {
      assert cart[0].product.id != pid;
      var tail := cart[1..];
      assert forall k :: 0 <= k < i - 1 ==> tail[k] == cart[k + 1];
      FirstIndexIs(tail, pid, i - 1);
    }
  }

  /** The first entry of a product in a longer cart: the one already
      present, else the new last entry when it carries the product. */
  lemma FirstIndexSnoc(cart: seq<CartItem>, pid: int)
    requires |cart| > 0
    ensures FirstIndex(cart[..|cart| - 1], pid).Some? ==> FirstIndex(cart, pid) == FirstIndex(cart[..|cart| - 1], pid)
    ensures FirstIndex(cart[..|cart| - 1], pid).None? ==>
      FirstIndex(cart, pid) == if cart[|cart| - 1].product.id == pid then Some(|cart| - 1) else None
  {
    var init := cart[..|cart| - 1];
    assert forall k :: 0 <= k < |init| ==> cart[k] == init[k];
    match FirstIndex(init, pid)
    case Some(i) =>
      assert cart[i] == init[i];
      FirstIndexIs(cart, pid, i);
    case None =>
      if cart[|cart| - 1].product.id == pid {
        FirstIndexIs(cart, pid, |cart| - 1);
      } else {
        assert forall k :: 0 <= k < |cart| ==> cart[k].product.id != pid;
      }
  }

  /** A line's product record is the one carried by the product's first
      entry. */
  lemma {:induction false} TallyFirstProduct(cart: seq<CartItem>, pid: int)
    ensures pid in Tally(cart) ==>
      FirstIndex(cart, pid).Some? && Tally(cart)[pid].product == cart[FirstIndex(cart, pid).value].product
    decreases |cart|
  {
    if |cart| > 0 {
      var init := cart[..|cart| - 1];
      var last := cart[|cart| - 1];
      TallyFirstProduct(init, pid);
      TallyAmounts(init, pid);
      CountPositive(init, pid);
      FirstIndexSnoc(cart, pid);
      assert Tally(cart) == TallyStep(Tally(init), last);
      if FirstIndex(init, pid).Some? {
        assert cart[FirstIndex(init, pid).value] == init[FirstIndex(init, pid).value];
      }
    }
  }

  /** The table has a line exactly for each product in the cart; its count
      is that product's number of entries, and its product record is the
      one carried by the product's first entry. */
  lemma TallyCounts(cart: seq<CartItem>, pid: int)
    ensures pid in Tally(cart) <==> Count(cart, pid) > 0
    ensures pid in Tally(cart) ==> Tally(cart)[pid].amounts == Count(cart, pid)
    ensures pid in Tally(cart) ==>
      FirstIndex(cart, pid).Some? && Tally(cart)[pid].product == cart[FirstIndex(cart, pid).value].product
  {
    TallyAmounts(cart, pid);
    TallyFirstProduct(cart, pid);
  }

  /** A product has a positive count exactly when some entry carries it. */
  lemma {:induction false} CountPositive(cart: seq<CartItem>, pid: int)
    ensures Count(cart, pid) > 0 <==> exists i :: 0 <= i < |cart| && cart[i].product.id == pid
    decreases |cart|
  {
    if |cart| > 0 {
      var init := cart[..|cart| - 1];
      CountPositive(init, pid);
      if exists i :: 0 <= i < |init| && init[i].product.id == pid {
        var i :| 0 <= i < |init| && init[i].product.id == pid;
        assert cart[i] == init[i];
      }
      if exists i :: 0 <= i < |cart| && cart[i].product.id == pid {
        var i :| 0 <= i < |cart| && cart[i].product.id == pid;
        if i < |init| {
          assert init[i] == cart[i];
        }
      }
    }
  }

  /** The source's aggregation loop over the cart. */
  method Aggregate(cart: seq<CartItem>) returns (table: map<int, Line>)
    ensures table == Tally(cart)
  {
    table := map[];
    for k := 0 to |cart|
      invariant table == Tally(cart[..k])
    {
      var item := cart[k];
      assert cart[..k + 1][..k] == cart[..k];
      if item.product.id in table {
        table := table[item.product.id := table[item.product.id].(amounts := table[item.product.id].amounts + 1)];
      } else {
        table := table[item.product.id := Line(item.product, 1)];
      }
    }
    assert cart[..|cart|] == cart;
  }

  /** A non-empty set has an element. */
  lemma HasSomeKey(keys: set<int>)
    requires |keys| > 0
    ensures exists k :: k in keys
  {
    if forall k :: k !in keys {
      assert false;
    }
  }

  /** Some key of a non-empty table. */
  ghost function PickKey(table: map<int, Line>): (k: int)
    requires |table| > 0
    ensures k in table
  {
    HasSomeKey(table.Keys);
    var k :| k in table;
    k
  }

  /** Sum of the table's counts. */
  ghost function TotalUnits(table: map<int, Line>): nat
    decreases |table|
  {
    if |table| == 0 then 0
    else
      var pid := PickKey(table);
      table[pid].amounts + TotalUnits(table - {pid})
  }

  lemma RemoveCommutes(table: map<int, Line>, a: int, b: int)
    ensures (table - {a}) - {b} == (table - {b}) - {a}
  {
  }

  /** The sum does not depend on which line is taken first. */
  lemma {:induction false} TotalUnitsRemove(table: map<int, Line>, pid: int)
    requires pid in table
    ensures TotalUnits(table) == table[pid].amounts + TotalUnits(table - {pid})
    decreases |table|
  {
    var first := PickKey(table);
    if first != pid {
      var rest := table - {first};
      TotalUnitsRemove(rest, pid);
      TotalUnitsRemove(table - {pid}, first);
      RemoveCommutes(table, first, pid);
    }
  }

  lemma UpdateThenRemove(table: map<int, Line>, pid: int, line: Line)
    ensures table[pid := line] - {pid} == table - {pid}
  {
  }

  lemma RemoveAbsent(table: map<int, Line>, pid: int)
    requires pid !in table
    ensures table - {pid} == table
  {
  }

  /** One aggregation step adds exactly one unit to the table. */
  lemma TallyStepUnits(table: map<int, Line>, item: CartItem)
    ensures TotalUnits(TallyStep(table, item)) == TotalUnits(table) + 1
  {
    var pid := item.product.id;
    var line := if pid in table then table[pid].(amounts := table[pid].amounts + 1) else Line(item.product, 1);
    var next := table[pid := line];
    assert TallyStep(table, item) == next;
    TotalUnitsRemove(next, pid);
    UpdateThenRemove(table, pid, line);
    if pid in table {
      TotalUnitsRemove(table, pid);
    } else {
      RemoveAbsent(table, pid);
    }
  }

  /** The counts of the table add up to the number of cart entries. */
  lemma {:induction false} TotalUnitsIsCartLength(cart: seq<CartItem>)
    ensures TotalUnits(Tally(cart)) == |cart|
    decreases |cart|
  {
    if |cart| > 0 {
      var init := cart[..|cart| - 1];
      TotalUnitsIsCartLength(init);
      TallyStepUnits(Tally(init), cart[|cart| - 1]);
    }
  }

  // ---------------------------------------------------------------------
  // Purchasability

  /** Purchasable: a non-empty cart whose every line is within stock. */
  predicate Purchasable(cart: seq<CartItem>)
    ensures Purchasable(cart) ==> |cart| > 0
    ensures Purchasable(cart) ==> forall pid :: pid in Tally(cart) ==> Tally(cart)[pid].amounts <= Tally(cart)[pid].product.stocks
  {
    var table := Tally(cart);
    |cart| > 0 && forall pid | pid in table :: table[pid].amounts <= table[pid].product.stocks
  }

  /** The same rule stated on the cart itself: non-empty, and no product has
      more entries than the stock its first entry reports. */
  lemma PurchasableOnCart(cart: seq<CartItem>)
    ensures Purchasable(cart) <==>
      && |cart| > 0
      && forall i :: 0 <= i < |cart| ==>
           var first := FirstIndex(cart, cart[i].product.id);
           first.Some? && Count(cart, cart[i].product.id) <= cart[first.value].product.stocks
  {
    var table := Tally(cart);
    forall i | 0 <= i < |cart|
      ensures cart[i].product.id in table
      ensures table[cart[i].product.id].amounts == Count(cart, cart[i].product.id)
      ensures FirstIndex(cart, cart[i].product.id).Some?
      ensures table[cart[i].product.id].product == cart[FirstIndex(cart, cart[i].product.id).value].product
    {
      CountPositive(cart, cart[i].product.id);
      TallyCounts(cart, cart[i].product.id);
    }
    forall pid | pid in table
      ensures exists i :: 0 <= i < |cart| && cart[i].product.id == pid
    {
      TallyCounts(cart, pid);
      CountPositive(cart, pid);
    }
  }

  /** The source's `isAblePurchase` flag: cleared by any line over stock
      while the rows are rendered, then by an empty cart. */
  method IsAblePurchase(cart: seq<CartItem>, table: map<int, Line>) returns (able: bool)
    requires table == Tally(cart)
    ensures able == Purchasable(cart)
  {
    able := true;
    var pending := table.Keys;
    while |pending| > 0
      invariant pending <= table.Keys
      invariant able <==> forall pid | pid in table.Keys - pending :: table[pid].amounts <= table[pid].product.stocks
      decreases |pending|
    {
      HasSomeKey(pending);
      var pid :| pid in pending;
      if table[pid].amounts > table[pid].product.stocks {
        able := false;
      }
      pending := pending - {pid};
    }
    if |cart| == 0 {
      able := false;
    }
  }

  // ---------------------------------------------------------------------
  // Totals

  /** Sum of the effective price of every cart entry. */
  function CartTotal(cart: seq<CartItem>): int
  {
    if |cart| == 0 then 0 else CartTotal(cart[..|cart| - 1]) + EffectivePrice(cart[|cart| - 1].product)
  }

  lemma {:induction false} CartTotalAppend(a: seq<CartItem>, b: seq<CartItem>)
    ensures CartTotal(a + b) == CartTotal(a) + CartTotal(b)
    decreases |b|
  {
    if |b| == 0 {
      assert a + b == a;
    } else {
      assert (a + b)[..|a + b| - 1] == a + b[..|b| - 1];
      CartTotalAppend(a, b[..|b| - 1]);
    }
  }

  /** With list prices and discounts in 0..1 the total is never negative. */
  lemma {:induction false} CartTotalNonNegative(cart: seq<CartItem>)
    requires forall i :: 0 <= i < |cart| ==> 0 <= cart[i].product.price
    requires forall i :: 0 <= i < |cart| && cart[i].product.onsale.Some? ==> 0.0 <= cart[i].product.onsale.value <= 1.0
    ensures CartTotal(cart) >= 0
    decreases |cart|
  {
    if |cart| > 0 {
      CartTotalNonNegative(cart[..|cart| - 1]);
      EffectivePriceBounds(cart[|cart| - 1].product);
    }
  }

  /** The source's `totalAmount` accumulator. */
  method TotalAmount(cart: seq<CartItem>) returns (totalAmount: int)
    ensures totalAmount == CartTotal(cart)
  {
    totalAmount := 0;
    for k := 0 to |cart|
      invariant totalAmount == CartTotal(cart[..k])
    {
      assert cart[..k + 1][..k] == cart[..k];
      if cart[k].product.onsale.Some? {
        totalAmount := totalAmount + Round(cart[k].product.price as real * cart[k].product.onsale.value);
      } else {
        totalAmount := totalAmount + cart[k].product.price;
      }
    }
    assert cart[..|cart|] == cart;
  }

  /** The amount charged: nothing without a user record, otherwise the total
      rounded after the member discount. */
  function DiscountedAmount(total: int, user: Option<UserInfo>): (r: int)
    ensures user.None? ==> r == 0
    ensures user.Some? && 0.0 <= user.value.discount <= 1.0 && 0 <= total ==> 0 <= r <= total
    ensures user.Some? && user.value.discount == 1.0 ==> r == total
  {
    match user
    case None => 0
    case Some(info) =>
      DiscountBelowPrice(total, info.discount);
      Round(total as real * info.discount)
  }

  // ---------------------------------------------------------------------
  // Reduce one

  /** `findCartId`: the entry id of the first entry for the product; none
      when the product is not in the cart (the source's lookup then throws
      and the handler swallows the error). */
  function FindCartId(cart: seq<CartItem>, pid: int): (r: Option<int>)
    ensures r.None? <==> forall i :: 0 <= i < |cart| ==> cart[i].product.id != pid
    ensures r.Some? ==> exists i :: 0 <= i < |cart| && cart[i].product.id == pid && cart[i].id == r.value
                                   && forall j :: 0 <= j < i ==> cart[j].product.id != pid
  {
    match FirstIndex(cart, pid)
    case None => None
    case Some(i) => Some(cart[i].id)
  }

  /** The cart without any entry whose entry id is `cartId`. */
  function WithoutEntry(cart: seq<CartItem>, cartId: int): (r: seq<CartItem>)
    ensures |r| <= |cart|
    ensures forall i :: 0 <= i < |r| ==> r[i].id != cartId
    ensures forall x :: x in r <==> x in cart && x.id != cartId
    ensures (exists x :: x in cart && x.id == cartId) ==> |r| < |cart|
    decreases |cart|
  {
    if |cart| == 0 then []
    else (if cart[0].id != cartId then [cart[0]] else []) + WithoutEntry(cart[1..], cartId)
  }

  /** The filter works entry by entry, so the kept entries stay in cart
      order. */
  lemma {:induction false} WithoutEntryAppend(a: seq<CartItem>, b: seq<CartItem>, cartId: int)
    ensures WithoutEntry(a + b, cartId) == WithoutEntry(a, cartId) + WithoutEntry(b, cartId)
    decreases |a|
  {
    if |a| == 0 {
      assert a + b == b;
    } else {
      assert (a + b)[1..] == a[1..] + b;
      WithoutEntryAppend(a[1..], b, cartId);
    }
  }

  /** Entry ids are unique within the cart. */
  predicate UniqueEntryIds(cart: seq<CartItem>)
  {
    forall i, j :: 0 <= i < j < |cart| ==> cart[i].id != cart[j].id
  }

  lemma {:induction false} WithoutAbsentEntry(cart: seq<CartItem>, cartId: int)
    requires forall i :: 0 <= i < |cart| ==> cart[i].id != cartId
    ensures WithoutEntry(cart, cartId) == cart
    decreases |cart|
  {
    if |cart| > 0 {
      WithoutAbsentEntry(cart[1..], cartId);
      assert cart == [cart[0]] + cart[1..];
    }
  }

  /** Removing an entry id held by exactly the entry at `i` drops just that
      entry and keeps the rest in order. */
  lemma {:induction false} WithoutEntryAt(cart: seq<CartItem>, i: nat)
    requires i < |cart| && UniqueEntryIds(cart)
    ensures WithoutEntry(cart, cart[i].id) == cart[..i] + cart[i + 1..]
    decreases |cart|
  {
    var tail := cart[1..];
    assert forall k :: 0 <= k < |tail| ==> tail[k] == cart[k + 1];
    if i == 0 {
      WithoutAbsentEntry(tail, cart[0].id);
    } else {
      assert UniqueEntryIds(tail);
      WithoutEntryAt(tail, i - 1);
      assert tail[i - 1] == cart[i];
      assert cart[0].id != cart[i].id;
      assert cart[..i] == [cart[0]] + tail[..i - 1];
      assert cart[i + 1..] == tail[i..];
    }
  }

  /** Dropping the entry at `i` lowers its product's count by one and leaves
      every other count alone. */
  lemma RemoveAtCount(cart: seq<CartItem>, i: nat, q: int)
    requires i < |cart|
    ensures Count(cart[..i] + cart[i + 1..], q) == Count(cart, q) - (if cart[i].product.id == q then 1 else 0)
  {
    var before, after := cart[..i], cart[i + 1..];
    assert cart[..i + 1] == before + [cart[i]];
    assert cart == cart[..i + 1] + after;
    CountAppend(before + [cart[i]], after, q);
    CountAppend(before, [cart[i]], q);
    CountAppend(before, after, q);
    assert [cart[i]][..0] == [];
  }

  /** Dropping the entry at `i` lowers the total by that entry's price. */
  lemma RemoveAtTotal(cart: seq<CartItem>, i: nat)
    requires i < |cart|
    ensures CartTotal(cart[..i] + cart[i + 1..]) == CartTotal(cart) - EffectivePrice(cart[i].product)
  {
    var before, after := cart[..i], cart[i + 1..];
    assert cart[..i + 1] == before + [cart[i]];
    assert cart == cart[..i + 1] + after;
    CartTotalAppend(before + [cart[i]], after);
    CartTotalAppend(before, [cart[i]]);
    CartTotalAppend(before, after);
    assert [cart[i]][..0] == [];
  }

  /** `handleReduceAmount`'s new cart: every entry carrying the entry id
      of the product's first entry is dropped. */
  function ReduceOne(cart: seq<CartItem>, pid: int): (r: seq<CartItem>)
    ensures FirstIndex(cart, pid).None? ==> r == cart
    ensures FirstIndex(cart, pid).Some? ==> |r| < |cart|
    ensures FirstIndex(cart, pid).Some? ==>
      forall x :: x in r <==> x in cart && x.id != cart[FirstIndex(cart, pid).value].id
  {
    match FindCartId(cart, pid)
    case None => cart
    case Some(cartId) => WithoutEntry(cart, cartId)
  }

  /** Reduce-one on a product in the cart removes exactly its first entry:
      the other entries stay in order, that product's count drops by one,
      every other product's count is unchanged, and the total drops by that
      entry's price. With the product absent the cart is unchanged. */
  lemma ReduceOneRemovesFirst(cart: seq<CartItem>, pid: int)
    requires UniqueEntryIds(cart)
    ensures FirstIndex(cart, pid).None? ==> ReduceOne(cart, pid) == cart
    ensures FirstIndex(cart, pid).Some? ==>
      var i := FirstIndex(cart, pid).value;
      && ReduceOne(cart, pid) == cart[..i] + cart[i + 1..]
      && Count(ReduceOne(cart, pid), pid) == Count(cart, pid) - 1
      && (forall q :: q != pid ==> Count(ReduceOne(cart, pid), q) == Count(cart, q))
      && CartTotal(ReduceOne(cart, pid)) == CartTotal(cart) - EffectivePrice(cart[i].product)
  {
    if FirstIndex(cart, pid).Some? {
      var i := FirstIndex(cart, pid).value;
      ReduceOneAt(cart, pid, i);
      var rest := cart[..i] + cart[i + 1..];
      forall q
        ensures Count(rest, q) == Count(cart, q) - (if q == pid then 1 else 0)
      {
        RemoveAtCount(cart, i, q);
      }
      RemoveAtTotal(cart, i);
    }
  }

  lemma ReduceOneAt(cart: seq<CartItem>, pid: int, i: nat)
    requires UniqueEntryIds(cart)
    requires FirstIndex(cart, pid) == Some(i)
    ensures ReduceOne(cart, pid) == cart[..i] + cart[i + 1..]
  {
    assert FindCartId(cart, pid) == Some(cart[i].id);
    WithoutEntryAt(cart, i);
  }

  // ---------------------------------------------------------------------
  // The order payload

  /** The product id of each cart entry, in cart order. */
  function ProductIds(cart: seq<CartItem>): (ids: seq<int>)
    ensures |ids| == |cart|
    ensures forall k :: 0 <= k < |cart| ==> ids[k] == cart[k].product.id
  {
    seq(|cart|, k requires 0 <= k < |cart| => cart[k].product.id)
  }

  /** The order lists each product as many times as the table counts it. */
  lemma {:induction false} ProductIdsMatchTable(cart: seq<CartItem>, pid: int)
    ensures multiset(ProductIds(cart))[pid] == Count(cart, pid)
    ensures pid in Tally(cart) ==> multiset(ProductIds(cart))[pid] == Tally(cart)[pid].amounts
    decreases |cart|
  {
    TallyCounts(cart, pid);
    if |cart| > 0 {
      var init := cart[..|cart| - 1];
      ProductIdsMatchTable(init, pid);
      assert ProductIds(cart) == ProductIds(init) + [cart[|cart| - 1].product.id];
    }
  }

  /** The body `handleConfirm` posts. */
  function ConfirmPayload(userId: Option<int>, address: string, cart: seq<CartItem>, user: Option<UserInfo>): (p: OrderPayload)
    ensures p.productIdList == ProductIds(cart)
    ensures p.amount == DiscountedAmount(CartTotal(cart), user)
    ensures p.userId == userId && p.address == address
  {
    OrderPayload(userId, address, ProductIds(cart), DiscountedAmount(CartTotal(cart), user))
  }

  /** Where `handleConfirm` navigates: the new order's page, or home when
      the request fails. */
  function ConfirmRoute(res: Fetch<int>): (r: Route)
    ensures res.Ok? <==> r.OrderRoute?
    ensures res.Ok? ==> r.orderId == res.data
  {
    match res
    case Ok(orderId) => OrderRoute(orderId)
    case Failed(_) => HomeRoute
  }

  // ---------------------------------------------------------------------
  // The page's state

  /** The checkout page reads its user id and its delete-from-cart callback
      from the parent route's context. `userId` is `None` and
      `deleteWired` is false when the parent does not provide them. */
  class CheckoutPage {
    const userId: Option<int>
    const deleteWired: bool
    var cart: seq<CartItem>
    var userInfo: Option<UserInfo>
    var address: string
    var isLoading: bool

    constructor (userId: Option<int>, deleteWired: bool)
      ensures this.userId == userId && this.deleteWired == deleteWired
      ensures cart == [] && userInfo == None && address == "" && !isLoading
    {
      this.userId := userId;
      this.deleteWired := deleteWired;
      cart := [];
      userInfo := None;
      address := "";
      isLoading := false;
    }

    /** The Confirm button is disabled while not purchasable or loading. */
    predicate ConfirmDisabled()
      reads this
      ensures isLoading ==> ConfirmDisabled()
      ensures !ConfirmDisabled() ==> |cart| > 0
      ensures !ConfirmDisabled() ==> forall i :: 0 <= i < |cart| ==>
        var first := FirstIndex(cart, cart[i].product.id);
        first.Some? && Count(cart, cart[i].product.id) <= cart[first.value].product.stocks
    {
      PurchasableOnCart(cart);
      !Purchasable(cart) || isLoading
    }

    /** The load effect: the cart request, then the user request only if the
        cart one succeeded. Both results are stored only when both succeed;
        a failure is only logged, so the loading flag stays set. */
    method Load(cartRes: Fetch<seq<CartItem>>, userRes: Fetch<Option<UserInfo>>) returns (userRequested: bool)
      modifies this
      ensures userRequested == cartRes.Ok?
      ensures address == old(address)
      ensures cartRes.Ok? && userRes.Ok? ==> cart == cartRes.data && userInfo == userRes.data && !isLoading
      ensures !(cartRes.Ok? && userRes.Ok?) ==> cart == old(cart) && userInfo == old(userInfo) && isLoading && ConfirmDisabled()
    {
      isLoading := true;
      userRequested := cartRes.Ok?;
      if cartRes.Ok? && userRes.Ok? {
        userInfo := userRes.data;
        cart := cartRes.data;
        isLoading := false;
      }
    }

    method SetAddress(value: string)
      modifies this`address
      ensures address == value
    {
      address := value;
    }

    /** `handleReduceAmount`: ask the parent to delete the first entry of the
        product, then drop that entry locally. A product not in the cart
        throws in the lookup, and a missing parent callback throws in the
        call; both are caught before the cart is touched. */
    method HandleReduceAmount(pid: int) returns (deleteRequest: Option<int>)
      modifies this`cart
      ensures deleteRequest == (if deleteWired then FindCartId(old(cart), pid) else None)
      ensures cart == (if deleteWired then ReduceOne(old(cart), pid) else old(cart))
      ensures !deleteWired ==> deleteRequest.None? && cart == old(cart)
    {
      var cartId := FindCartId(cart, pid);
      if cartId.None? || !deleteWired {
        return None;
      }
      deleteRequest := cartId;
      cart := WithoutEntry(cart, cartId.value);
    }

    /** `handleCartToWish`: reduce one, then always ask for a wishlist entry
        for the product. */
    method HandleCartToWish(pid: int) returns (deleteRequest: Option<int>, wishRequest: int)
      modifies this`cart
      ensures deleteRequest == (if deleteWired then FindCartId(old(cart), pid) else None)
      ensures cart == (if deleteWired then ReduceOne(old(cart), pid) else old(cart))
      ensures wishRequest == pid
    {
      deleteRequest := HandleReduceAmount(pid);
      wishRequest := pid;
    }

    /** `handleConfirm`: the posted payload and where the page goes next. */
    method HandleConfirm(res: Fetch<int>) returns (payload: OrderPayload, next: Route)
      ensures payload == ConfirmPayload(userId, address, cart, userInfo)
      ensures |payload.productIdList| == |cart|
      ensures forall k :: 0 <= k < |cart| ==> payload.productIdList[k] == cart[k].product.id
      ensures next == ConfirmRoute(res)
    {
      var total := TotalAmount(cart);
      payload := OrderPayload(userId, address, ProductIds(cart), DiscountedAmount(total, userInfo));
      next := ConfirmRoute(res);
    }
  }
}

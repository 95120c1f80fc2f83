/** `/api/orders`: confirm a gateway payment and place the order (POST), and list
    the caller's own orders, newest first (GET). */
module OrdersRoute {
  import opened Js
  import opened Models
  import opened Http
  import opened Seqs
  import opened Cart
  import opened Pricing
  import opened Store
  import CheckoutRoute
  import CartRoute

  // ------------------------------------------------------------ signature gate

  /** `razorpay_order_id + "|" + razorpay_payment_id`; an absent field is rendered "undefined". */
  function SignedPayload(orderId: Option<string>, paymentId: Option<string>): string
  {
    Render(orderId) + "|" + Render(paymentId)
  }

  /** The supplied signature equals the hex HMAC-SHA256 of the payload under the
      server's secret. `hmac(key, message)` stands for the crypto library. */
  predicate SignatureMatches(hmac: (string, string) -> string, secret: string,
                             orderId: Option<string>, paymentId: Option<string>, signature: Option<string>)
  {
    signature == Some(hmac(secret, SignedPayload(orderId, paymentId)))
  }

  lemma SeparatorAt(a: string, rest: string)
    ensures (a + "|" + rest)[|a|] == '|'
  {
  }

  lemma NoSeparatorBefore(a: string, rest: string, k: int)
    ensures 0 <= k < |a| && '|' !in a ==> (a + "|" + rest)[k] != '|'
  {
    if 0 <= k < |a| && '|' !in a {
      assert (a + "|" + rest)[k] == a[k];
    }
  }

  /** When neither identifier contains the separator, the signed payload determines both
      identifiers, so a signature for one (order, payment) pair does not cover another. */
  lemma PayloadDeterminesIds(o1: Option<string>, p1: Option<string>, o2: Option<string>, p2: Option<string>)
    requires '|' !in Render(o1) && '|' !in Render(o2)
    requires SignedPayload(o1, p1) == SignedPayload(o2, p2)
    ensures Render(o1) == Render(o2) && Render(p1) == Render(p2)
  {
    var a, b := Render(o1), Render(o2);
    var s := SignedPayload(o1, p1);
    assert s == a + "|" + Render(p1);
    assert s == b + "|" + Render(p2);
    if |a| < |b| {
      SeparatorAt(a, Render(p1));
      NoSeparatorBefore(b, Render(p2), |a|);
      assert false;
    }
    if |b| < |a| {
      SeparatorAt(b, Render(p2));
      NoSeparatorBefore(a, Render(p1), |b|);
      assert false;
    }
    assert a == s[..|a|] == b;
    assert Render(p1) == s[|a| + 1..] == Render(p2);
  }

  // ------------------------------------------------------------ order creation

  /** `user.cart.map(c => ({ item: c.item, quantity: c.quantity }))` as fields for `Order.create`. */
  function LineFieldsOf(cart: seq<LineItem>): (r: seq<LineFields>)
    ensures |r| == |cart|
    ensures forall i :: 0 <= i < |cart| ==> r[i] == LineFields(Some(cart[i].item), Some(cart[i].quantity))
  {
    if cart == [] then [] else [LineFields(Some(cart[0].item), Some(cart[0].quantity))] + LineFieldsOf(cart[1..])
  }

  /** The order lines the schema builds from the copied cart are the cart entries themselves. */
  lemma CartCopyRoundTrip(cart: seq<LineItem>)
    ensures LinesComplete(LineFieldsOf(cart))
    ensures ToLines(LineFieldsOf(cart)) == cart
  {
  }

  /** The fields the handler hands to `Order.create`. The address and phone it
      also passes are not declared by the order schema, so they are not stored. */
  function OrderFieldsFor(user: UserId, cart: seq<LineItem>, total: int, paymentId: Option<string>): OrderFields
  {
    OrderFields(Some(user), LineFieldsOf(cart), Some(total), Some("Pending"), paymentId, None)
  }

  /** The success body `{ message, order }`. */
  datatype Placed = Placed(message: string, order: Order)

  /** The caller's stored cart as `User.findById(session.user.id)` loads it; `None` when there is no such account. */
  function CartOf(db: Db, session: Session): (r: Option<seq<LineItem>>)
    reads db, db.users.Values
    ensures r.Some? <==> HasUserId(session) && UserIdOf(session) in db.users
    ensures r.Some? ==> r.value == db.users[UserIdOf(session)].cart
  {
    if HasUserId(session) && UserIdOf(session) in db.users then Some(db.users[UserIdOf(session)].cart) else None
  }

  /** POST's answer, decided from the request, the signature check and the caller's
      cart as loaded after the check. An absent payment id fails the schema's
      `required` check when the order is created, which the framework answers with 500. */
  function PlaceOutcome(session: Session, signatureOk: bool, cart: Option<seq<LineItem>>, catalog: seq<Item>,
                        paymentId: Option<string>, newId: OrderId, now: int): (r: Response<Placed>)
    ensures !HasUserId(session) ==> r == Error(401, Unauthorized)
    ensures HasUserId(session) && !signatureOk ==> r == Error(400, "Payment verification failed")
    ensures HasUserId(session) && signatureOk && (cart.None? || cart.value == []) ==> r == Error(400, "Cart is empty")
    ensures HasUserId(session) && signatureOk && cart.Some? && cart.value != [] && FalsyText(paymentId) ==>
      r == Error(500, InternalError)
    ensures HasUserId(session) && signatureOk && cart.Some? && cart.value != [] && !FalsyText(paymentId) ==>
      r == Ok(Placed("Order placed successfully",
                     Order(newId, UserIdOf(session), cart.value, CartTotal(cart.value, catalog), Pending, paymentId.value, now)))
  {
    if !HasUserId(session) then Error(401, Unauthorized)
    else if !signatureOk then Error(400, "Payment verification failed")
    else if cart.None? || |cart.value| == 0 then Error(400, "Cart is empty")
    else
      var total := Total(Populate(cart.value, catalog));
      CartCopyRoundTrip(cart.value);
      match NewOrder(newId, OrderFieldsFor(UserIdOf(session), cart.value, total, paymentId), now)
      case None => Error(500, InternalError)
      case Some(order) => Ok(Placed("Order placed successfully", order))
  }

  /** POST `{ razorpay_payment_id, razorpay_order_id, razorpay_signature }`.
      `newId` and `now` are the identity and the clock reading the store assigns
      to the new order. On success the order is stored and then the cart is
      emptied; on every failure nothing is stored and the cart is untouched. */
  method Post(db: Db, session: Session,
              paymentId: Option<string>, orderId: Option<string>, signature: Option<string>,
              hmac: (string, string) -> string, secret: string, newId: OrderId, now: int)
    returns (r: Response<Placed>)
    requires db.Valid()
    requires forall k :: 0 <= k < |db.orders| ==> db.orders[k].id != newId
    modifies db`orders, db.AccountOf(session)`cart
    ensures db.Valid()
    ensures db.items == old(db.items) && db.users == old(db.users)
    ensures r == PlaceOutcome(session, SignatureMatches(hmac, secret, orderId, paymentId, signature),
                              old(CartOf(db, session)), db.items, paymentId, newId, now)
    ensures r.Ok? ==> db.orders == old(db.orders) + [r.value.order] && CartOf(db, session) == Some([])
    ensures !r.Ok? ==> db.orders == old(db.orders) && unchanged(db.AccountOf(session))
  {
    r := PlaceOutcome(session, SignatureMatches(hmac, secret, orderId, paymentId, signature),
                      CartOf(db, session), db.items, paymentId, newId, now);
    if r.Ok? {
      var account := db.users[UserIdOf(session)];
      db.orders := db.orders + [r.value.order];
      account.ClearCart();
    }
  }

  // ------------------------------------------------------------ listing

  /** `Order.find({ user: id })`. */
  function OwnOrders(orders: seq<Order>, id: UserId): (r: seq<Order>)
    ensures forall o :: o in r <==> o in orders && o.user == id
    ensures forall o :: multiset(r)[o] == if o.user == id then multiset(orders)[o] else 0
    ensures IsSubsequence(r, orders)
  {
    var r := Filter(orders, (o: Order) => o.user == id);
    forall o ensures multiset(r)[o] == if o.user == id then multiset(orders)[o] else 0 {
      FilterCounts(orders, (o: Order) => o.user == id, o);
    }
    r
  }

  predicate NewestFirstOrder(s: seq<Order>)
  {
    forall i, j :: 0 <= i < j < |s| ==> s[i].createdAt >= s[j].createdAt
  }

  /** Insert one order into a list sorted newest first, ahead of the older ones. */
  function InsertNewestFirst(o: Order, s: seq<Order>): (r: seq<Order>)
    ensures multiset(r) == multiset(s) + multiset{o}
  {
    if s == [] || o.createdAt >= s[0].createdAt then
      [o] + s
    else
      assert s == [s[0]] + s[1..];
      [s[0]] + InsertNewestFirst(o, s[1..])
  }

  lemma {:induction false} InsertKeepsNewestFirst(o: Order, s: seq<Order>)
    requires NewestFirstOrder(s)
    ensures NewestFirstOrder(InsertNewestFirst(o, s))
  {
    if s != [] && o.createdAt < s[0].createdAt {
      var rest := InsertNewestFirst(o, s[1..]);
      InsertKeepsNewestFirst(o, s[1..]);
      forall k | 0 <= k < |rest| ensures rest[k].createdAt <= s[0].createdAt {
        assert rest[k] in multiset(rest);
        if rest[k] != o {
          assert rest[k] in multiset(s[1..]);
          var m :| 0 <= m < |s[1..]| && s[1..][m] == rest[k];
          assert s[m + 1] == rest[k];
        }
      }
      assert InsertNewestFirst(o, s) == [s[0]] + rest;
    }
  }

  /** `.sort({ createdAt: -1 })`: the same orders, each as often, newest first. */
  function NewestFirst(s: seq<Order>): (r: seq<Order>)
    ensures multiset(r) == multiset(s)
    ensures NewestFirstOrder(r)
  {
    if s == [] then []
    else
      assert s == [s[0]] + s[1..];
      InsertKeepsNewestFirst(s[0], NewestFirst(s[1..]));
      InsertNewestFirst(s[0], NewestFirst(s[1..]))
  }

  /** Every listed order belongs to the caller. */
  lemma OnlyOwnListed(orders: seq<Order>, id: UserId)
    ensures forall i :: 0 <= i < |NewestFirst(OwnOrders(orders, id))| ==> NewestFirst(OwnOrders(orders, id))[i].user == id
  {
    var own := OwnOrders(orders, id);
    var listed := NewestFirst(own);
    forall i | 0 <= i < |listed| ensures listed[i].user == id {
      assert listed[i] in multiset(listed);
      assert listed[i] in multiset(own);
      assert listed[i] in own;
    }
  }

  /** An order with each line's item reference replaced by the catalog item or null. */
  datatype PopulatedOrder = PopulatedOrder(
    id: OrderId,
    user: UserId,
    items: seq<PopulatedLine>,
    total: int,
    status: OrderStatus,
    paymentId: string,
    createdAt: int)

  function PopulateOrder(o: Order, catalog: seq<Item>): PopulatedOrder
  {
    PopulatedOrder(o.id, o.user, Populate(o.items, catalog), o.total, o.status, o.paymentId, o.createdAt)
  }

  /** The GET handler's nested loops, replacing every line's `item` by `Item.findById(item)`. */
  method PopulateOrders(orders: seq<Order>, catalog: seq<Item>) returns (r: seq<PopulatedOrder>)
    ensures |r| == |orders|
    ensures forall i :: 0 <= i < |orders| ==> r[i] == PopulateOrder(orders[i], catalog)
  {
    r := [];
    var i := 0;
    while i < |orders|
      invariant 0 <= i <= |orders|
      invariant |r| == i
      invariant forall k :: 0 <= k < i ==> r[k] == PopulateOrder(orders[k], catalog)
    {
      var o := orders[i];
      var lines: seq<PopulatedLine> := [];
      var j := 0;
      while j < |o.items|
        invariant 0 <= j <= |o.items|
        invariant |lines| == j
        invariant forall k :: 0 <= k < j ==>
          lines[k] == PopulatedLine(FindItem(catalog, o.items[k].item), o.items[k].quantity)
      {
        lines := lines + [PopulatedLine(FindItem(catalog, o.items[j].item), o.items[j].quantity)];
        j := j + 1;
      }
      assert lines == Populate(o.items, catalog);
      r := r + [PopulatedOrder(o.id, o.user, lines, o.total, o.status, o.paymentId, o.createdAt)];
      i := i + 1;
    }
  }

  /** GET: 401 without a session user id; otherwise every order of the caller and
      no other, newest first, each line populated. */
  method Get(db: Db, session: Session) returns (r: Response<seq<PopulatedOrder>>)
    ensures !HasUserId(session) ==> r == Error(401, Unauthorized)
    ensures HasUserId(session) ==>
      var listed := NewestFirst(OwnOrders(db.orders, UserIdOf(session)));
      && r.Ok?
      && |r.value| == |listed|
      && (forall i :: 0 <= i < |listed| ==> r.value[i] == PopulateOrder(listed[i], db.items))
      && (forall i :: 0 <= i < |r.value| ==> r.value[i].user == UserIdOf(session))
      && (forall i, j :: 0 <= i < j < |r.value| ==> r.value[i].createdAt >= r.value[j].createdAt)
      && multiset(listed) == multiset(OwnOrders(db.orders, UserIdOf(session)))
  {
    if !HasUserId(session) {
      return Error(401, Unauthorized);
    }
    var id := UserIdOf(session);
    var listed := NewestFirst(OwnOrders(db.orders, id));
    OnlyOwnListed(db.orders, id);
    var populated := PopulateOrders(listed, db.items);
    r := Ok(populated);
  }

  // ------------------------------------------------------------ the two phases

  /** Checkout followed by confirmation with no change to the cart or the catalog in
      between: the amount the gateway was asked to charge is exactly 100 times the
      total recorded in the order. */
  method CheckoutThenConfirm(db: Db, session: Session, gateway: CheckoutRoute.GatewayRequest -> Option<CheckoutRoute.GatewayOrder>,
                             paymentId: Option<string>, orderId: Option<string>, signature: Option<string>,
                             hmac: (string, string) -> string, secret: string, newId: OrderId, now: int)
    returns (intent: Response<CheckoutRoute.CheckoutBody>, confirmed: Response<Placed>)
    requires db.Valid()
    requires forall k :: 0 <= k < |db.orders| ==> db.orders[k].id != newId
    modifies db`orders, db.AccountOf(session)`cart
    ensures intent.Ok? && confirmed.Ok? ==>
      && CheckoutRoute.RequestFor(intent.value.total).amount == 100 * confirmed.value.order.total
      && intent.value.total == confirmed.value.order.total
  {
    intent := CheckoutRoute.Post(db, session, gateway);
    confirmed := Post(db, session, paymentId, orderId, signature, hmac, secret, newId, now);
  }

  /** A confirmation repeated right after a successful one, before anything is
      added to the cart, finds the emptied cart and places nothing more. */
  method ReplayAtOnce(db: Db, session: Session,
                      paymentId: Option<string>, orderId: Option<string>, signature: Option<string>,
                      hmac: (string, string) -> string, secret: string,
                      firstId: OrderId, secondId: OrderId, now: int, later: int)
    returns (first: Response<Placed>, second: Response<Placed>)
    requires db.Valid()
    requires firstId != secondId
    requires forall k :: 0 <= k < |db.orders| ==> db.orders[k].id != firstId && db.orders[k].id != secondId
    modifies db`orders, db.AccountOf(session)`cart
    ensures first.Ok? ==>
      && second == Error(400, "Cart is empty")
      && db.orders == old(db.orders) + [first.value.order]
      && CartOf(db, session) == Some([])
  {
    first := Post(db, session, paymentId, orderId, signature, hmac, secret, firstId, now);
    second := Post(db, session, paymentId, orderId, signature, hmac, secret, secondId, later);
  }

  /** The signature covers only the gateway order id and payment id, and nothing
      records a payment as used. So once the cart is refilled, the same signed
      confirmation places a second order for the same payment. */
  method ReplayAfterRefill(db: Db, session: Session,
                           paymentId: Option<string>, orderId: Option<string>, signature: Option<string>,
                           hmac: (string, string) -> string, secret: string,
                           itemId: Option<ItemId>, quantity: Option<int>,
                           firstId: OrderId, secondId: OrderId, now: int, later: int)
    returns (first: Response<Placed>, refill: Response<seq<PopulatedLine>>, second: Response<Placed>)
    requires db.Valid()
    requires firstId != secondId
    requires forall k :: 0 <= k < |db.orders| ==> db.orders[k].id != firstId && db.orders[k].id != secondId
    modifies db`orders, db.AccountOf(session)`cart
    ensures first.Ok? && !FalsyText(itemId) && !FalsyNumber(quantity) ==>
      && refill.Ok?
      && second.Ok?
      && |db.orders| == |old(db.orders)| + 2
      && db.orders[|old(db.orders)|] == first.value.order
      && db.orders[|old(db.orders)| + 1] == second.value.order
      && first.value.order.paymentId == second.value.order.paymentId
  {
    first := Post(db, session, paymentId, orderId, signature, hmac, secret, firstId, now);
    refill := CartRoute.Post(db, session, itemId, quantity);
    second := Post(db, session, paymentId, orderId, signature, hmac, secret, secondId, later);
  }

  /** A price change between checkout and confirmation: the gateway is asked for
      ₹200 but the order records ₹240. */
  lemma RepricedBetweenPhases()
    ensures
      var cart := [LineItem("i1", 2)];
      var before, after := [Item("i1", "Dosa", 100, "dosa.png")], [Item("i1", "Dosa", 120, "dosa.png")];
      var placed := PlaceOutcome(Some(SessionUser(Some("u1"), false)), true, Some(cart), after, Some("pay_1"), "o1", 0);
      && CheckoutRoute.RequestFor(CartTotal(cart, before)).amount == 20000
      && placed.Ok?
      && placed.value.order.total == 240
  {
    var cart := [LineItem("i1", 2)];
    var before, after := [Item("i1", "Dosa", 100, "dosa.png")], [Item("i1", "Dosa", 120, "dosa.png")];
    assert Populate(cart, before) == [PopulatedLine(Some(before[0]), 2)];
    assert Populate(cart, after) == [PopulatedLine(Some(after[0]), 2)];
    TotalSingle(PopulatedLine(Some(before[0]), 2));
    TotalSingle(PopulatedLine(Some(after[0]), 2));
  }
}

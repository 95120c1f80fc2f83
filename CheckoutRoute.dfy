/** `/api/checkout` POST: price the caller's cart and ask the payment gateway for
    a payment order of that amount. The handler only reads the store. */
module CheckoutRoute {
  import opened Js
  import opened Models
  import opened Http
  import opened Cart
  import opened Pricing
  import opened Store

  /** The options handed to the gateway's `orders.create`. */
  datatype GatewayRequest = GatewayRequest(amount: int, currency: string, paymentCapture: int)

  /** The payment order the gateway returns. */
  datatype GatewayOrder = GatewayOrder(id: string, amount: int, currency: string)

  /** The success body `{ order, total }`. */
  datatype CheckoutBody = CheckoutBody(order: GatewayOrder, total: int)

  /** `{ amount: total * 100, currency: "INR", payment_capture: 1 }`. */
  function RequestFor(total: int): (q: GatewayRequest)
    ensures q.amount == PaisePerRupee * total && q.currency == "INR" && q.paymentCapture == 1
    ensures q.amount % PaisePerRupee == 0 && q.amount / PaisePerRupee == total
  {
    GatewayRequest(Paise(total), "INR", 1)
  }

  /** POST. `gateway` is the payment client's `orders.create`: `None` when it throws. */
  function Post(db: Db, session: Session, gateway: GatewayRequest -> Option<GatewayOrder>): (r: Response<CheckoutBody>)
    reads db, db.users.Values
    ensures !HasUserId(session) ==> r == Error(401, Unauthorized)
    ensures HasUserId(session) && (UserIdOf(session) !in db.users || db.users[UserIdOf(session)].cart == []) ==>
      r == Error(400, "Cart is empty")
    ensures HasUserId(session) && UserIdOf(session) in db.users && db.users[UserIdOf(session)].cart != [] ==>
      var total := CartTotal(db.users[UserIdOf(session)].cart, db.items);
      var sent := GatewayRequest(100 * total, "INR", 1);
      && (gateway(sent).Some? ==> r == Ok(CheckoutBody(gateway(sent).value, total)))
      && (gateway(sent).None? ==> r == Error(500, "Razorpay order creation failed"))
  {
    if !HasUserId(session) then Error(401, Unauthorized)
    else
      var id := UserIdOf(session);
      if id !in db.users || |db.users[id].cart| == 0 then Error(400, "Cart is empty")
      else
        var total := Total(Populate(db.users[id].cart, db.items));
        match gateway(RequestFor(total))
        case Some(order) => Ok(CheckoutBody(order, total))
        case None => Error(500, "Razorpay order creation failed")
  }
}

/** `/api/cart`: read, add-or-set and remove on the caller's own cart. */
module CartRoute {
  import opened Js
  import opened Models
  import opened Http
  import opened Cart
  import opened Store

  /** `getPopulatedCart(userId)`: null when the account does not exist, otherwise
      one populated line per stored entry, a dangling item reference giving `null`. */
  function GetPopulatedCart(db: Db, id: Option<UserId>): (r: Option<seq<PopulatedLine>>)
    reads db, db.users.Values
    ensures r.None? <==> id.None? || id.value !in db.users
    ensures r.Some? ==>
      && |r.value| == |db.users[id.value].cart|
      && forall i :: 0 <= i < |r.value| ==>
           && r.value[i].quantity == db.users[id.value].cart[i].quantity
           && r.value[i].item == FindItem(db.items, db.users[id.value].cart[i].item)
  {
    if id.None? || id.value !in db.users then None
    else Some(Populate(db.users[id.value].cart, db.items))
  }

  /** GET: 401 without a session, 404 when the account is missing, else the populated cart. */
  function Get(db: Db, session: Session): (r: Response<seq<PopulatedLine>>)
    reads db, db.users.Values
    ensures session.None? ==> r == Error(401, Unauthorized)
    ensures session.Some? && !(HasUserId(session) && UserIdOf(session) in db.users) ==>
      r == Error(404, "User not found")
    ensures HasUserId(session) && UserIdOf(session) in db.users ==>
      r.Ok? && |r.value| == |db.users[UserIdOf(session)].cart|
      && r.value == Populate(db.users[UserIdOf(session)].cart, db.items)
  {
    if session.None? then Error(401, Unauthorized)
    else match GetPopulatedCart(db, session.value.id)
      case None => Error(404, "User not found")
      case Some(lines) => Ok(lines)
  }

  /** POST `{ itemId, quantity }`: a falsy `itemId` or `quantity` (0 included) is
      rejected; a negative quantity is accepted. When the account is missing the
      handler dereferences null and the request fails with 500. */
  method Post(db: Db, session: Session, itemId: Option<ItemId>, quantity: Option<int>)
    returns (r: Response<seq<PopulatedLine>>)
    requires db.Valid()
    modifies db.AccountOf(session)`cart
    ensures db.Valid()
    ensures !HasUserId(session) ==> r == Error(401, Unauthorized)
    ensures HasUserId(session) && (FalsyText(itemId) || FalsyNumber(quantity)) ==>
      r == Error(400, "itemId and quantity required") && unchanged(db.AccountOf(session))
    ensures HasUserId(session) && !FalsyText(itemId) && !FalsyNumber(quantity) && UserIdOf(session) !in db.users ==>
      r == Error(500, InternalError)
    ensures HasUserId(session) && !FalsyText(itemId) && !FalsyNumber(quantity) && UserIdOf(session) in db.users ==>
      var account := db.users[UserIdOf(session)];
      && account.cart == AddOrSet(old(account.cart), itemId.value, quantity.value)
      && r == Ok(Populate(account.cart, db.items))
  {
    if !HasUserId(session) {
      return Error(401, Unauthorized);
    }
    if FalsyText(itemId) || FalsyNumber(quantity) {
      return Error(400, "itemId and quantity required");
    }
    var id := UserIdOf(session);
    if id !in db.users {
      return Error(500, InternalError);
    }
    var account := db.users[id];
    account.SetQuantity(itemId.value, quantity.value);
    r := Ok(Populate(account.cart, db.items));
  }

  /** DELETE `{ itemId }`: removes every entry for the item; removing an absent item succeeds. */
  method Delete(db: Db, session: Session, itemId: Option<ItemId>)
    returns (r: Response<seq<PopulatedLine>>)
    requires db.Valid()
    modifies db.AccountOf(session)`cart
    ensures db.Valid()
    ensures !HasUserId(session) ==> r == Error(401, Unauthorized)
    ensures HasUserId(session) && FalsyText(itemId) ==>
      r == Error(400, "itemId required") && unchanged(db.AccountOf(session))
    ensures HasUserId(session) && !FalsyText(itemId) && UserIdOf(session) !in db.users ==>
      r == Error(500, InternalError)
    ensures HasUserId(session) && !FalsyText(itemId) && UserIdOf(session) in db.users ==>
      var account := db.users[UserIdOf(session)];
      && account.cart == RemoveAll(old(account.cart), itemId.value)
      && r == Ok(Populate(account.cart, db.items))
  {
    if !HasUserId(session) {
      return Error(401, Unauthorized);
    }
    if FalsyText(itemId) {
      return Error(400, "itemId required");
    }
    var id := UserIdOf(session);
    if id !in db.users {
      return Error(500, InternalError);
    }
    var account := db.users[id];
    account.RemoveItem(itemId.value);
    r := Ok(Populate(account.cart, db.items));
  }

  /** Any truthy item id with any quantity other than 0, negative ones included,
      passes the guard, and the cart then holds exactly that quantity for the item. */
  lemma NonZeroQuantityStored(cart: seq<LineItem>, itemId: Option<ItemId>, quantity: Option<int>)
    requires !FalsyText(itemId) && quantity.Some? && quantity.value != 0
    ensures !FalsyNumber(quantity)
    ensures var r := AddOrSet(cart, itemId.value, quantity.value);
      && FirstIndex(r, itemId.value) < |r|
      && r[FirstIndex(r, itemId.value)] == LineItem(itemId.value, quantity.value)
  {
    var id := itemId.value;
    var r := AddOrSet(cart, id, quantity.value);
    var k := FirstIndex(cart, id);
    assert k < |r| && r[k] == LineItem(id, quantity.value);
    assert forall j :: 0 <= j < k ==> r[j].item != id;
    var m := FirstIndex(r, id);
    assert m == k;
  }

  /** A POST with a negative quantity is stored as given: only falsy quantities are refused. */
  lemma NegativeQuantityPassesGuard()
    ensures !FalsyNumber(Some(-1)) && !FalsyText(Some("665f1c2a"))
    ensures AddOrSet([], "665f1c2a", -1) == [LineItem("665f1c2a", -1)]
  {
  }
}

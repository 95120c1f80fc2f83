/** The document store as the handlers see it: the catalog, the accounts (each
    a mutable document with an embedded cart) and the orders. */
module Store {
  import opened Js
  import opened Models
  import opened Http
  import opened Cart

  /** A user document. The handlers load it, change its cart in place and save it. */
  class Account {
    var name: string
    var email: string
    var password: string
    var isAdmin: bool
    var cart: seq<LineItem>
    var address: Option<string>
    var phone: Option<string>

    /** The stored document as a value. */
    function Record(): UserRecord
      reads this
    {
      UserRecord(name, email, password, isAdmin, cart, address, phone)
    }

    constructor (r: UserRecord)
      ensures Record() == r
    {
      name, email, password, isAdmin := r.name, r.email, r.password, r.isAdmin;
      cart, address, phone := r.cart, r.address, r.phone;
    }

    /** `existing.quantity = quantity` on the first entry for the item, or else
        `user.cart.push({ item, quantity })`. */
    method SetQuantity(id: ItemId, quantity: int)
      modifies this`cart
      ensures cart == AddOrSet(old(cart), id, quantity)
    {
      var i := FirstIndex(cart, id);
      if i < |cart| {
        cart := cart[i := cart[i].(quantity := quantity)];
      } else {
        cart := cart + [LineItem(id, quantity)];
      }
    }

    /** `user.cart = user.cart.filter(c => c.item !== id)`. */
    method RemoveItem(id: ItemId)
      modifies this`cart
      ensures cart == RemoveAll(old(cart), id)
    {
      cart := RemoveAll(cart, id);
    }

    /** `user.cart = []`. */
    method ClearCart()
      modifies this`cart
      ensures cart == []
    {
      cart := [];
    }
  }

  class Db {
    var items: seq<Item>
    var users: map<UserId, Account>
    var orders: seq<Order>

    /** Identities are unique in each collection, every identity names its own
        document, and the `unique` index on email holds. */
    ghost predicate Valid()
      reads this, users.Values
    {
      && DistinctItemIds(items)
      && (forall i, j :: 0 <= i < j < |orders| ==> orders[i].id != orders[j].id)
      && (forall a, b :: a in users && b in users && a != b ==>
            users[a] != users[b] && users[a].email != users[b].email)
    }

    constructor ()
      ensures Valid() && items == [] && users == map[] && orders == []
    {
      items, users, orders := [], map[], [];
    }

    /** The account `User.findById(session.user.id)` loads, as a frame. */
    function AccountOf(session: Session): set<Account>
      reads this
    {
      if HasUserId(session) && UserIdOf(session) in users then {users[UserIdOf(session)]} else {}
    }

    /** `User.findOne({ email })` finds a document. */
    predicate EmailTaken(email: string)
      reads this, users.Values
    {
      exists id :: id in users && users[id].email == email
    }
  }
}

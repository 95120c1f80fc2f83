/** The stored records of the three collections (items, users, orders) and what
    their schemas do when a document is created: required fields, enumerated
    values and defaults. */
module Models {
  import opened Js

  type ItemId = string
  type UserId = string
  type OrderId = string

  // ---------------------------------------------------------------- Item

  /** A catalog item; `name`, `price` and `image` are all required. */
  datatype Item = Item(id: ItemId, name: string, price: int, image: string)

  /** `Item.findById(id)`: the stored item with that identity, or null. */
  function FindItem(catalog: seq<Item>, id: ItemId): (r: Option<Item>)
    ensures r.Some? <==> exists i :: 0 <= i < |catalog| && catalog[i].id == id
    ensures r.Some? ==> r.value in catalog && r.value.id == id
  {
    if catalog == [] then None
    else if catalog[0].id == id then Some(catalog[0])
    else FindItem(catalog[1..], id)
  }

  /** The identities of the catalog are pairwise distinct. */
  predicate DistinctItemIds(catalog: seq<Item>)
  {
    forall i, j :: 0 <= i < j < |catalog| ==> catalog[i].id != catalog[j].id
  }

  // ---------------------------------------------------------------- Order

  /** The four values the order schema admits for `status`. */
  datatype OrderStatus = Pending | Preparing | OutForDelivery | Delivered

  function StatusName(s: OrderStatus): string
  {
    match s
    case Pending => "Pending"
    case Preparing => "Preparing"
    case OutForDelivery => "Out for Delivery"
    case Delivered => "Delivered"
  }

  const StatusNames: seq<string> := ["Pending", "Preparing", "Out for Delivery", "Delivered"]

  /** The schema's enum check: a status string is accepted iff it names one of the four values. */
  function ParseStatus(name: string): (r: Option<OrderStatus>)
    ensures r.Some? <==> name in StatusNames
    ensures r.Some? ==> StatusName(r.value) == name
  {
    if name == "Pending" then Some(Pending)
    else if name == "Preparing" then Some(Preparing)
    else if name == "Out for Delivery" then Some(OutForDelivery)
    else if name == "Delivered" then Some(Delivered)
    else None
  }

  /** Parsing inverts naming, so the four names are distinct. */
  lemma ParseStatusName(s: OrderStatus)
    ensures ParseStatus(StatusName(s)) == Some(s)
  {
  }

  /** One `{ item, quantity }` entry; the shape of both a cart entry and an order line. */
  datatype LineItem = LineItem(item: ItemId, quantity: int)

  /** A stored order. The schema declares exactly these fields; any other field
      handed to `create` (such as an address) is not stored. */
  datatype Order = Order(
    id: OrderId,
    user: UserId,
    items: seq<LineItem>,
    total: int,
    status: OrderStatus,
    paymentId: string,
    createdAt: int)

  /** The fields handed to `Order.create`; `None` stands for `undefined`. */
  datatype LineFields = LineFields(item: Option<ItemId>, quantity: Option<int>)
  datatype OrderFields = OrderFields(
    user: Option<UserId>,
    items: seq<LineFields>,
    total: Option<int>,
    status: Option<string>,
    paymentId: Option<string>,
    createdAt: Option<int>)

  /** Every order line carries both an item reference and a quantity. */
  predicate LinesComplete(lines: seq<LineFields>)
  {
    forall i :: 0 <= i < |lines| ==> lines[i].item.Some? && lines[i].quantity.Some?
  }

  function ToLines(lines: seq<LineFields>): (r: seq<LineItem>)
    requires LinesComplete(lines)
    ensures |r| == |lines|
    ensures forall i :: 0 <= i < |lines| ==> r[i] == LineItem(lines[i].item.value, lines[i].quantity.value)
  {
    if lines == [] then [] else [LineItem(lines[0].item.value, lines[0].quantity.value)] + ToLines(lines[1..])
  }

  /** `Order.create` as the schema validates it: `None` when validation fails.
      `user`, `total` and `paymentId` are required (an empty string fails a
      required string), every line needs both fields, `status` must be one of the
      four names and defaults to Pending, and `createdAt` defaults to `now`. */
  function NewOrder(id: OrderId, f: OrderFields, now: int): (r: Option<Order>)
    ensures r.Some? <==>
      && f.user.Some?
      && f.total.Some?
      && !FalsyText(f.paymentId)
      && LinesComplete(f.items)
      && (f.status.None? || f.status.value in StatusNames)
    ensures r.Some? ==>
      && r.value.id == id
      && r.value.user == f.user.value
      && |r.value.items| == |f.items|
      && (forall i :: 0 <= i < |f.items| ==>
            r.value.items[i] == LineItem(f.items[i].item.value, f.items[i].quantity.value))
      && r.value.total == f.total.value
      && StatusName(r.value.status) == (if f.status.None? then "Pending" else f.status.value)
      && r.value.paymentId == f.paymentId.value
      && r.value.createdAt == (if f.createdAt.None? then now else f.createdAt.value)
  {
    var status := if f.status.None? then Some(Pending) else ParseStatus(f.status.value);
    if f.user.None? || f.total.None? || FalsyText(f.paymentId) || !LinesComplete(f.items) || status.None? then None
    else Some(Order(id, f.user.value, ToLines(f.items), f.total.value, status.value, f.paymentId.value,
                    match f.createdAt case Some(t) => t case None => now))
  }

  // ---------------------------------------------------------------- User

  /** A stored user document. `address` and `phone` are optional. */
  datatype UserRecord = UserRecord(
    name: string,
    email: string,
    password: string,
    isAdmin: bool,
    cart: seq<LineItem>,
    address: Option<string>,
    phone: Option<string>)

  /** The fields handed to `User.create`. */
  datatype CartFields = CartFields(item: Option<ItemId>, quantity: Option<int>)
  datatype UserFields = UserFields(
    name: Option<string>,
    email: Option<string>,
    password: Option<string>,
    isAdmin: Option<bool>,
    cart: seq<CartFields>,
    address: Option<string>,
    phone: Option<string>)

  /** A cart entry as the schema builds it: the item reference is required and
      the quantity defaults to 1. */
  function NewCartEntry(c: CartFields): (r: Option<LineItem>)
    ensures r.Some? <==> c.item.Some?
    ensures r.Some? ==> r.value.item == c.item.value
    ensures r.Some? && c.quantity.None? ==> r.value.quantity == 1
    ensures r.Some? && c.quantity.Some? ==> r.value.quantity == c.quantity.value
  {
    match c.item
    case None => None
    case Some(id) => Some(LineItem(id, match c.quantity case Some(q) => q case None => 1))
  }

  function NewCart(cart: seq<CartFields>): (r: Option<seq<LineItem>>)
    ensures r.Some? <==> forall i :: 0 <= i < |cart| ==> cart[i].item.Some?
    ensures r.Some? ==> |r.value| == |cart| && forall i :: 0 <= i < |cart| ==> Some(r.value[i]) == NewCartEntry(cart[i])
  {
    if cart == [] then Some([])
    else match (NewCartEntry(cart[0]), NewCart(cart[1..]))
      case (Some(e), Some(rest)) => Some([e] + rest)
      case _ => None
  }

  /** `User.create` as the schema validates it: `name`, `email` and `password`
      are required, `isAdmin` defaults to false, the cart defaults to empty and each
      cart entry is built by NewCartEntry. */
  function NewUser(f: UserFields): (r: Option<UserRecord>)
    ensures r.Some? <==>
      !FalsyText(f.name) && !FalsyText(f.email) && !FalsyText(f.password)
      && forall i :: 0 <= i < |f.cart| ==> f.cart[i].item.Some?
    ensures r.Some? ==>
      && r.value.name == f.name.value
      && r.value.email == f.email.value
      && r.value.password == f.password.value
      && r.value.isAdmin == (f.isAdmin == Some(true))
      && |r.value.cart| == |f.cart|
      && r.value.address == f.address
      && r.value.phone == f.phone
    ensures r.Some? ==> NewCart(f.cart) == Some(r.value.cart)
    ensures r.Some? && f.cart == [] ==> r.value.cart == []
  {
    if FalsyText(f.name) || FalsyText(f.email) || FalsyText(f.password) then None
    else match NewCart(f.cart)
      case None => None
      case Some(cart) =>
        Some(UserRecord(f.name.value, f.email.value, f.password.value,
                        match f.isAdmin case Some(b) => b case None => false,
                        cart, f.address, f.phone))
  }
}

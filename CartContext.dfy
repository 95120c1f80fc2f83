/** The cart badge (`contexts/CartContext.tsx`): a count of portions, refreshed from
    the cart endpoint and reset whenever there is no signed-in user. */
module CartContext {
  import opened Models
  import opened Http
  import opened Cart
  import opened Store
  import CartRoute

  /** `cart.reduce((sum, c) => sum + c.quantity, 0)`, folding from the left. */
  function QuantitySum(lines: seq<PopulatedLine>): int
  {
    if lines == [] then 0 else QuantitySum(lines[..|lines| - 1]) + lines[|lines| - 1].quantity
  }

  /** The number of portions in a stored cart. */
  function CartQuantity(cart: seq<LineItem>): int
  {
    if cart == [] then 0 else CartQuantity(cart[..|cart| - 1]) + cart[|cart| - 1].quantity
  }

  lemma {:induction false} QuantitySumAppend(a: seq<PopulatedLine>, b: seq<PopulatedLine>)
    ensures QuantitySum(a + b) == QuantitySum(a) + QuantitySum(b)
    decreases |b|
  {
    if b == [] {
      assert a + b == a;
    } else {
      assert (a + b)[..|a + b| - 1] == a + b[..|b| - 1];
      QuantitySumAppend(a, b[..|b| - 1]);
    }
  }

  lemma {:induction false} CartQuantityAppend(a: seq<LineItem>, b: seq<LineItem>)
    ensures CartQuantity(a + b) == CartQuantity(a) + CartQuantity(b)
    decreases |b|
  {
    if b == [] {
      assert a + b == a;
    } else {
      assert (a + b)[..|a + b| - 1] == a + b[..|b| - 1];
      CartQuantityAppend(a, b[..|b| - 1]);
    }
  }

  /** The badge counts portions whether or not their items still exist in the catalog. */
  lemma {:induction false} BadgeIgnoresCatalog(cart: seq<LineItem>, catalog: seq<Item>)
    ensures QuantitySum(Populate(cart, catalog)) == CartQuantity(cart)
    decreases |cart|
  {
    if cart != [] {
      var init, last := cart[..|cart| - 1], cart[|cart| - 1];
      assert cart == init + [last];
      PopulateAppend(init, [last], catalog);
      BadgeIgnoresCatalog(init, catalog);
      QuantitySumAppend(Populate(init, catalog), Populate([last], catalog));
      assert QuantitySum(Populate([last], catalog)) == last.quantity by {
        assert Populate([last], catalog)[..0] == [];
      }
    }
  }

  /** A new item adds its quantity to the badge; an existing one replaces its old quantity. */
  lemma BadgeAfterAddOrSet(cart: seq<LineItem>, id: ItemId, quantity: int)
    ensures !InCart(cart, id) ==> CartQuantity(AddOrSet(cart, id, quantity)) == CartQuantity(cart) + quantity
    ensures InCart(cart, id) ==>
      CartQuantity(AddOrSet(cart, id, quantity)) == CartQuantity(cart) - cart[FirstIndex(cart, id)].quantity + quantity
  {
    var r := AddOrSet(cart, id, quantity);
    if !InCart(cart, id) {
      CartQuantityAppend(cart, [LineItem(id, quantity)]);
      assert [LineItem(id, quantity)][..0] == [];
    } else {
      var k := FirstIndex(cart, id);
      assert cart == cart[..k] + [cart[k]] + cart[k + 1..];
      assert r == cart[..k] + [LineItem(id, quantity)] + cart[k + 1..];
      CartQuantityAppend(cart[..k] + [cart[k]], cart[k + 1..]);
      CartQuantityAppend(cart[..k], [cart[k]]);
      CartQuantityAppend(cart[..k] + [LineItem(id, quantity)], cart[k + 1..]);
      CartQuantityAppend(cart[..k], [LineItem(id, quantity)]);
      assert [cart[k]][..0] == [];
      assert [LineItem(id, quantity)][..0] == [];
    }
  }

  /** The outcome of `fetch("/api/cart")`: a non-OK status, or the populated cart. */
  datatype CartFetch = NotOk | OkCart(lines: seq<PopulatedLine>)

  /** The session status `useSession` reports. */
  datatype SessionStatus = Loading | Authenticated | Unauthenticated

  /** The response the cart endpoint gives, as the client sees it. */
  function FetchOf(r: Response<seq<PopulatedLine>>): (f: CartFetch)
    ensures f.OkCart? <==> r.Ok?
    ensures r.Ok? ==> f.lines == r.value
  {
    if r.Ok? then OkCart(r.value) else NotOk
  }

  /** The provider's state. The context's default value also starts the count at 0. */
  class CartProvider {
    var count: int

    constructor()
      ensures count == 0
    {
      count := 0;
    }

    /** `refreshCart`: 0 without a session user; the portion count on an OK answer;
        any other answer leaves the badge as it was. */
    method RefreshCart(hasUser: bool, response: CartFetch)
      modifies this`count
      ensures !hasUser ==> count == 0
      ensures hasUser && response.OkCart? ==> count == QuantitySum(response.lines)
      ensures hasUser && response.NotOk? ==> count == old(count)
    {
      if !hasUser {
        count := 0;
        return;
      }
      if response.OkCart? {
        count := QuantitySum(response.lines);
      }
    }

    /** The effect run on a change of session status or user id: refresh when
        authenticated, otherwise reset. */
    method OnSessionChange(status: SessionStatus, hasUser: bool, response: CartFetch)
      modifies this`count
      ensures status != Authenticated ==> count == 0
      ensures status == Authenticated && !hasUser ==> count == 0
      ensures status == Authenticated && hasUser && response.OkCart? ==> count == QuantitySum(response.lines)
      ensures status == Authenticated && hasUser && response.NotOk? ==> count == old(count)
    {
      if status == Authenticated {
        RefreshCart(hasUser, response);
      } else {
        count := 0;
      }
    }
  }

  /** A refresh against the cart endpoint: for a signed-in account the badge ends
      equal to the number of portions stored in that account's cart. */
  method RefreshFromServer(provider: CartProvider, db: Db, session: Session)
    modifies provider`count
    ensures session.None? ==> provider.count == 0
    ensures HasUserId(session) && UserIdOf(session) in db.users ==>
      provider.count == CartQuantity(db.users[UserIdOf(session)].cart)
    ensures session.Some? && !(HasUserId(session) && UserIdOf(session) in db.users) ==>
      provider.count == old(provider.count)
  {
    var response := CartRoute.Get(db, session);
    if HasUserId(session) && UserIdOf(session) in db.users {
      BadgeIgnoresCatalog(db.users[UserIdOf(session)].cart, db.items);
    }
    provider.RefreshCart(session.Some?, FetchOf(response));
  }
}

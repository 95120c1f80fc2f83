/** The admin dashboard (`admin/dashboard/page.tsx`): the fetched order list, the
    seven-way conjunctive filter over it and the status update applied after a
    successful PATCH. */
module Dashboard {
  import opened Js
  import opened Models
  import opened Seqs

  /** The account projection the admin order list attaches; `None` when the account is gone. */
  datatype UserSummary = UserSummary(name: string, email: string)

  /** One order line as listed: the item's name, or `None` when the item no longer exists. */
  datatype DashLine = DashLine(itemName: Option<string>, quantity: int)

  /** One order as the admin order list returns it; `createdAt` is the instant in milliseconds. */
  datatype DashOrder = DashOrder(id: string, user: Option<UserSummary>, items: seq<DashLine>,
                                 total: int, status: string, paymentId: string, createdAt: int)

  /** The filter controls. `status` is "All" or a status name; the text queries are
      empty when unused. `startDate` is the instant the start-date field denotes and
      `endDate` the midnight that opens the end-date day, each `None` when the field
      is empty. */
  datatype Criteria = Criteria(status: string, search: string, startDate: Option<int>, endDate: Option<int>,
                               itemName: string, paymentId: string, orderId: string)

  /** The controls as the page opens: "All" and every field empty. */
  const NoCriteria := Criteria("All", "", None, None, "", "", "")

  /** The options of each row's status selector. */
  const AllowedStatuses: seq<string> := ["Pending", "Preparing", "Out for Delivery", "Delivered"]

  /** The selector offers exactly the statuses the order schema accepts. */
  lemma AllowedStatusesAreSchemaStatuses(name: string)
    ensures name in AllowedStatuses <==> ParseStatus(name).Some?
    ensures |AllowedStatuses| == 4
  {
  }

  /** `T23:59:59` after midnight, in milliseconds. */
  const EndOfDayOffset := 86_399_000

  /** `text.toLowerCase().includes(query.toLowerCase())`. */
  predicate Contains(text: string, query: string)
  {
    Includes(Lower(text), Lower(query))
  }

  predicate StatusMatch(o: DashOrder, status: string)
  {
    status == "All" || o.status == status
  }

  /** `user.name?.toLowerCase().includes(search) || user.email?...`; a missing user matches nothing. */
  predicate UserMatch(o: DashOrder, search: string)
  {
    o.user.Some? && (Contains(o.user.value.name, search) || Contains(o.user.value.email, search))
  }

  predicate StartMatch(o: DashOrder, startDate: Option<int>)
  {
    startDate.None? || o.createdAt >= startDate.value
  }

  predicate EndMatch(o: DashOrder, endDate: Option<int>)
  {
    endDate.None? || o.createdAt <= endDate.value + EndOfDayOffset
  }

  /** Some line names an existing item whose name contains the query. */
  predicate ItemMatch(o: DashOrder, query: string)
  {
    query == "" || exists i :: 0 <= i < |o.items| && o.items[i].itemName.Some? && Contains(o.items[i].itemName.value, query)
  }

  predicate PaymentIdMatch(o: DashOrder, query: string)
  {
    query == "" || Contains(o.paymentId, query)
  }

  predicate OrderIdMatch(o: DashOrder, query: string)
  {
    query == "" || Contains(o.id, query)
  }

  /** The filter callback: all seven tests must pass. */
  predicate Keep(o: DashOrder, c: Criteria)
  {
    && StatusMatch(o, c.status)
    && (c.search == "" || UserMatch(o, c.search))
    && StartMatch(o, c.startDate)
    && EndMatch(o, c.endDate)
    && ItemMatch(o, c.itemName)
    && PaymentIdMatch(o, c.paymentId)
    && OrderIdMatch(o, c.orderId)
  }

  /** `filteredOrders`: the orders that pass every test, in their fetched order. */
  function FilteredOrders(orders: seq<DashOrder>, c: Criteria): (r: seq<DashOrder>)
    ensures forall o :: o in r <==>
      && o in orders
      && (c.status == "All" || o.status == c.status)
      && (c.search == "" || UserMatch(o, c.search))
      && (c.startDate.Some? ==> o.createdAt >= c.startDate.value)
      && (c.endDate.Some? ==> o.createdAt <= c.endDate.value + EndOfDayOffset)
      && ItemMatch(o, c.itemName)
      && (c.paymentId == "" || Contains(o.paymentId, c.paymentId))
      && (c.orderId == "" || Contains(o.id, c.orderId))
    ensures IsSubsequence(r, orders)
    ensures c.status != "All" ==> forall i :: 0 <= i < |r| ==> r[i].status == c.status
    ensures c.search != "" ==> forall i :: 0 <= i < |r| ==>
      && r[i].user.Some?
      && (Includes(Lower(r[i].user.value.name), Lower(c.search)) || Includes(Lower(r[i].user.value.email), Lower(c.search)))
  {
    var r := Filter(orders, o => Keep(o, c));
    assert forall i :: 0 <= i < |r| ==> r[i] in r;
    r
  }

  /** With the opening controls every fetched order is listed. */
  lemma NoCriteriaKeepsAll(orders: seq<DashOrder>)
    ensures FilteredOrders(orders, NoCriteria) == orders
  {
    FilterAllPass(orders, o => Keep(o, NoCriteria));
  }

  /** `narrow` sets each control either as `wide` does or anywhere `wide` leaves it unused. */
  predicate NarrowerThan(narrow: Criteria, wide: Criteria)
  {
    && (wide.status == "All" || narrow.status == wide.status)
    && (wide.search == "" || narrow.search == wide.search)
    && (wide.startDate.None? || narrow.startDate == wide.startDate)
    && (wide.endDate.None? || narrow.endDate == wide.endDate)
    && (wide.itemName == "" || narrow.itemName == wide.itemName)
    && (wide.paymentId == "" || narrow.paymentId == wide.paymentId)
    && (wide.orderId == "" || narrow.orderId == wide.orderId)
  }

  /** Setting more controls only removes orders from the list, never reorders it. */
  lemma NarrowingKeepsSubsequence(orders: seq<DashOrder>, narrow: Criteria, wide: Criteria)
    requires NarrowerThan(narrow, wide)
    ensures IsSubsequence(FilteredOrders(orders, narrow), FilteredOrders(orders, wide))
  {
    FilterStronger(orders, o => Keep(o, narrow), o => Keep(o, wide));
  }

  /** The `prev.map` after a successful PATCH: each order with the given id gets the new status. */
  function WithStatus(orders: seq<DashOrder>, id: string, status: string): (r: seq<DashOrder>)
    ensures |r| == |orders|
    ensures forall i :: 0 <= i < |r| ==>
      && r[i].status == (if orders[i].id == id then status else orders[i].status)
      && r[i].(status := orders[i].status) == orders[i]
  {
    if orders == [] then []
    else [if orders[0].id == id then orders[0].(status := status) else orders[0]] + WithStatus(orders[1..], id, status)
  }

  /** An update for an id that is not listed changes nothing. */
  lemma {:induction false} WithStatusAbsent(orders: seq<DashOrder>, id: string, status: string)
    requires forall i :: 0 <= i < |orders| ==> orders[i].id != id
    ensures WithStatus(orders, id, status) == orders
  {
    if orders != [] {
      WithStatusAbsent(orders[1..], id, status);
    }
  }

  /** Of two updates to the same order the later one decides. */
  lemma WithStatusLastWins(orders: seq<DashOrder>, id: string, first: string, second: string)
    ensures WithStatus(WithStatus(orders, id, first), id, second) == WithStatus(orders, id, second)
  {
    var a, b := WithStatus(WithStatus(orders, id, first), id, second), WithStatus(orders, id, second);
    assert forall i :: 0 <= i < |a| ==> a[i] == b[i];
  }

  /** The page state: the fetched orders and the filter controls. */
  class DashboardPage {
    var orders: seq<DashOrder>
    var criteria: Criteria

    constructor()
      ensures orders == [] && criteria == NoCriteria
    {
      orders := [];
      criteria := NoCriteria;
    }

    /** What the table shows. */
    function Visible(): (r: seq<DashOrder>)
      reads this
      ensures IsSubsequence(r, orders)
      ensures forall o :: o in r <==> o in orders && Keep(o, criteria)
      ensures forall i :: 0 <= i < |r| ==> Keep(r[i], criteria)
    {
      var r := FilteredOrders(orders, criteria);
      assert forall i :: 0 <= i < |r| ==> r[i] in r;
      r
    }

    /** `setOrders(data)` once the admin order list arrives. */
    method OnOrdersLoaded(data: seq<DashOrder>)
      modifies this`orders
      ensures orders == data
    {
      orders := data;
    }

    /** A change of any filter control. */
    method OnCriteriaChange(c: Criteria)
      modifies this`criteria
      ensures criteria == c
    {
      criteria := c;
    }

    /** The status selector of the row for order `id`: the list changes only when the
        PATCH answered OK, and then only that order's status. */
    method OnStatusChange(id: string, newStatus: string, responseOk: bool)
      modifies this`orders
      ensures responseOk ==> orders == WithStatus(old(orders), id, newStatus)
      ensures !responseOk ==> orders == old(orders)
      ensures |orders| == |old(orders)|
    {
      if responseOk {
        orders := WithStatus(orders, id, newStatus);
      }
    }
  }
}

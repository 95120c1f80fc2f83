/** The list logic of the cart route: add-or-set, remove, and populating the
    stored entries with their catalog items. */
module Cart {
  import opened Js
  import opened Models
  import opened Seqs

  /** Some entry of the cart refers to `id`. */
  predicate InCart(cart: seq<LineItem>, id: ItemId)
  {
    exists j :: 0 <= j < |cart| && cart[j].item == id
  }

  /** No item appears in two entries. */
  predicate NoDuplicateItems(cart: seq<LineItem>)
  {
    forall i, j :: 0 <= i < j < |cart| ==> cart[i].item != cart[j].item
  }

  /** `cart.find(c => c.item === id)`, as an index: the first entry for `id`, or
      `|cart|` when there is none. */
  function FirstIndex(cart: seq<LineItem>, id: ItemId): (i: nat)
    ensures i <= |cart|
    ensures i < |cart| <==> InCart(cart, id)
    ensures i < |cart| ==> cart[i].item == id
    ensures forall j :: 0 <= j < i ==> cart[j].item != id
  {
    if cart == [] then 0
    else if cart[0].item == id then 0
    else 1 + FirstIndex(cart[1..], id)
  }

  /** The POST update: overwrite the quantity of the first entry for `id`, or else
      push a new entry. */
  function AddOrSet(cart: seq<LineItem>, id: ItemId, quantity: int): (r: seq<LineItem>)
    ensures InCart(cart, id) ==>
      && |r| == |cart|
      && r[FirstIndex(cart, id)] == LineItem(id, quantity)
      && forall j :: 0 <= j < |cart| && j != FirstIndex(cart, id) ==> r[j] == cart[j]
    ensures !InCart(cart, id) ==> r == cart + [LineItem(id, quantity)]
    ensures InCart(r, id)
  {
    var i := FirstIndex(cart, id);
    if i < |cart| then cart[i := cart[i].(quantity := quantity)]
    else
      var r := cart + [LineItem(id, quantity)];
      assert r[|cart|].item == id;
      r
  }

  /** The DELETE update: `cart.filter(c => c.item !== id)`. */
  function RemoveAll(cart: seq<LineItem>, id: ItemId): (r: seq<LineItem>)
    ensures !InCart(r, id)
    ensures forall e :: e in r <==> e in cart && e.item != id
    ensures forall e :: multiset(r)[e] == if e.item != id then multiset(cart)[e] else 0
    ensures IsSubsequence(r, cart)
  {
    var r := Filter(cart, (e: LineItem) => e.item != id);
    assert forall j :: 0 <= j < |r| ==> r[j] in r;
    forall e ensures multiset(r)[e] == if e.item != id then multiset(cart)[e] else 0 {
      FilterCounts(cart, (e: LineItem) => e.item != id, e);
    }
    r
  }

  /** An item with no entry in the cart is removed as a no-op. */
  lemma RemoveAbsent(cart: seq<LineItem>, id: ItemId)
    requires !InCart(cart, id)
    ensures RemoveAll(cart, id) == cart
  {
    FilterAllPass(cart, (e: LineItem) => e.item != id);
  }

  /** Repeating a DELETE for the same item changes nothing the second time. */
  lemma RemoveTwice(cart: seq<LineItem>, id: ItemId)
    ensures RemoveAll(RemoveAll(cart, id), id) == RemoveAll(cart, id)
  {
    RemoveAbsent(RemoveAll(cart, id), id);
  }

  /** Removing from a cart without duplicates drops exactly one entry when the item is present. */
  lemma {:induction false} RemoveOne(cart: seq<LineItem>, id: ItemId)
    requires NoDuplicateItems(cart)
    ensures |RemoveAll(cart, id)| == if InCart(cart, id) then |cart| - 1 else |cart|
  {
    if cart == [] {
    } else {
      assert NoDuplicateItems(cart[1..]);
      RemoveOne(cart[1..], id);
      if cart[0].item == id {
        assert !InCart(cart[1..], id) by {
          forall j | 0 <= j < |cart[1..]| ensures cart[1..][j].item != id {
            assert cart[1..][j] == cart[j + 1];
          }
        }
      } else {
        assert InCart(cart, id) ==> InCart(cart[1..], id) by {
          if InCart(cart, id) {
            var j :| 0 <= j < |cart| && cart[j].item == id;
            assert cart[1..][j - 1] == cart[j];
          }
        }
        assert InCart(cart[1..], id) ==> InCart(cart, id) by {
          if InCart(cart[1..], id) {
            var j :| 0 <= j < |cart[1..]| && cart[1..][j].item == id;
            assert cart[j + 1] == cart[1..][j];
          }
        }
      }
    }
  }

  /** POST changes only the first matching entry, so it never introduces a duplicate. */
  lemma AddOrSetKeepsNoDuplicates(cart: seq<LineItem>, id: ItemId, quantity: int)
    requires NoDuplicateItems(cart)
    ensures NoDuplicateItems(AddOrSet(cart, id, quantity))
  {
    var r := AddOrSet(cart, id, quantity);
    if InCart(cart, id) {
      var k := FirstIndex(cart, id);
      forall i, j | 0 <= i < j < |r| ensures r[i].item != r[j].item {
        assert r[i].item == cart[i].item && r[j].item == cart[j].item;
      }
    }
  }

  /** Setting the same item twice keeps the later quantity and does not duplicate the entry. */
  lemma AddOrSetTwice(cart: seq<LineItem>, id: ItemId, q1: int, q2: int)
    ensures AddOrSet(AddOrSet(cart, id, q1), id, q2) == AddOrSet(cart, id, q2)
    ensures |AddOrSet(AddOrSet(cart, id, q1), id, q2)| == |AddOrSet(cart, id, q1)|
  {
    var once := AddOrSet(cart, id, q1);
    var k := FirstIndex(cart, id);
    var k' := FirstIndex(once, id);
    assert once[k].item == id;
    if k < |cart| {
      assert forall j :: 0 <= j < k ==> once[j] == cart[j];
    } else {
      assert forall j :: 0 <= j < |cart| ==> once[j] == cart[j];
    }
    assert k' == k;
  }

  // ------------------------------------------------------------ populating

  /** An entry with its item looked up in the catalog (`null` when the item is gone). */
  datatype PopulatedLine = PopulatedLine(item: Option<Item>, quantity: int)

  /** `getPopulatedCart`'s map: each entry becomes its catalog item (or null) and
      its quantity. It never fails on a dangling reference. */
  function Populate(lines: seq<LineItem>, catalog: seq<Item>): (r: seq<PopulatedLine>)
    ensures |r| == |lines|
    ensures forall i :: 0 <= i < |lines| ==>
      r[i].quantity == lines[i].quantity && r[i].item == FindItem(catalog, lines[i].item)
    ensures forall i :: 0 <= i < |lines| ==> (r[i].item.None? <==> !exists k :: 0 <= k < |catalog| && catalog[k].id == lines[i].item)
  {
    if lines == [] then []
    else [PopulatedLine(FindItem(catalog, lines[0].item), lines[0].quantity)] + Populate(lines[1..], catalog)
  }

  /** Populating distributes over concatenation. */
  lemma PopulateAppend(a: seq<LineItem>, b: seq<LineItem>, catalog: seq<Item>)
    ensures Populate(a + b, catalog) == Populate(a, catalog) + Populate(b, catalog)
  {
    var l := Populate(a + b, catalog);
    var r := Populate(a, catalog) + Populate(b, catalog);
    forall i | 0 <= i < |l| ensures l[i] == r[i] {
      if i < |a| {
        assert (a + b)[i] == a[i];
      } else {
        assert (a + b)[i] == b[i - |a|];
      }
    }
  }
}

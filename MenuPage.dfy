/** The admin menu page (`admin/menu/page.tsx`): the item list it shows and the
    row being edited, updated by delete, edit-save, edit-cancel and add. */
module MenuPage {
  import opened Js
  import opened Models
  import opened Seqs

  /** `prev.filter(item => item._id !== id)`. */
  function WithoutItem(items: seq<Item>, id: ItemId): (r: seq<Item>)
    ensures forall i :: 0 <= i < |r| ==> r[i].id != id
    ensures forall x :: x in r <==> x in items && x.id != id
    ensures forall x :: multiset(r)[x] == if x.id != id then multiset(items)[x] else 0
    ensures IsSubsequence(r, items)
  {
    var r := Filter(items, (x: Item) => x.id != id);
    assert forall i :: 0 <= i < |r| ==> r[i] in r;
    forall x ensures multiset(r)[x] == if x.id != id then multiset(items)[x] else 0 {
      FilterCounts(items, (x: Item) => x.id != id, x);
    }
    r
  }

  /** `prev.map(i => i._id === updated._id ? updated : i)`. */
  function ReplaceItem(items: seq<Item>, updated: Item): (r: seq<Item>)
    ensures |r| == |items|
    ensures forall i :: 0 <= i < |r| ==> (items[i].id == updated.id ==> r[i] == updated)
    ensures forall i :: 0 <= i < |r| ==> (items[i].id != updated.id ==> r[i] == items[i])
  {
    if items == [] then []
    else [if items[0].id == updated.id then updated else items[0]] + ReplaceItem(items[1..], updated)
  }

  /** Saving an item that is not listed leaves the list as it was. */
  lemma {:induction false} ReplaceAbsent(items: seq<Item>, updated: Item)
    requires forall i :: 0 <= i < |items| ==> items[i].id != updated.id
    ensures ReplaceItem(items, updated) == items
  {
    if items != [] {
      ReplaceAbsent(items[1..], updated);
    }
  }

  /** Replacing keeps the ids where they were, so distinct ids stay distinct. */
  lemma ReplaceKeepsIds(items: seq<Item>, updated: Item)
    ensures forall i :: 0 <= i < |items| ==> ReplaceItem(items, updated)[i].id == items[i].id
    ensures DistinctItemIds(items) ==> DistinctItemIds(ReplaceItem(items, updated))
  {
  }

  /** Deleting an item after editing it leaves the same list as deleting it unedited. */
  lemma {:induction false} DeleteAfterEdit(items: seq<Item>, updated: Item)
    ensures WithoutItem(ReplaceItem(items, updated), updated.id) == WithoutItem(items, updated.id)
  {
    if items != [] {
      DeleteAfterEdit(items[1..], updated);
      var r := ReplaceItem(items, updated);
      assert r[1..] == ReplaceItem(items[1..], updated);
    }
  }

  /** Deleting removes exactly the entries with that id. */
  lemma {:induction false} DeleteCount(items: seq<Item>, id: ItemId)
    requires DistinctItemIds(items)
    ensures |WithoutItem(items, id)| == if exists i :: 0 <= i < |items| && items[i].id == id then |items| - 1 else |items|
  {
    if items != [] {
      assert DistinctItemIds(items[1..]) by {
        forall i, j | 0 <= i < j < |items[1..]| ensures items[1..][i].id != items[1..][j].id {
          assert items[1..][i] == items[i + 1] && items[1..][j] == items[j + 1];
        }
      }
      DeleteCount(items[1..], id);
      if items[0].id == id {
        forall j | 0 <= j < |items[1..]| ensures items[1..][j].id != id {
          assert items[1..][j] == items[j + 1];
        }
      } else {
        if exists i :: 0 <= i < |items| && items[i].id == id {
          var i :| 0 <= i < |items| && items[i].id == id;
          assert items[1..][i - 1].id == id;
        }
        if exists i :: 0 <= i < |items[1..]| && items[1..][i].id == id {
          var i :| 0 <= i < |items[1..]| && items[1..][i].id == id;
          assert items[i + 1].id == id;
        }
      }
    }
  }

  /** The page state: the listed items and the id of the row showing the edit form. */
  class AdminMenu {
    var menuItems: seq<Item>
    var editingId: Option<ItemId>

    constructor()
      ensures menuItems == [] && editingId == None
    {
      menuItems := [];
      editingId := None;
    }

    /** The row of `item` shows the edit form. */
    predicate IsEditing(item: Item)
      reads this
    {
      editingId == Some(item.id)
    }

    /** `setMenuItems(data)` once the catalog arrives. */
    method OnItemsLoaded(data: seq<Item>)
      modifies this`menuItems
      ensures menuItems == data
    {
      menuItems := data;
    }

    /** `handleDelete`: the list changes only when the user confirmed and the DELETE answered OK. */
    method HandleDelete(id: ItemId, confirmed: bool, responseOk: bool)
      modifies this`menuItems
      ensures confirmed && responseOk ==> menuItems == WithoutItem(old(menuItems), id)
      ensures !(confirmed && responseOk) ==> menuItems == old(menuItems)
    {
      if !confirmed {
        return;
      }
      if !responseOk {
        return;
      }
      menuItems := WithoutItem(menuItems, id);
    }

    /** `handleEdit`: open the edit form on that row. */
    method HandleEdit(item: Item)
      modifies this`editingId
      ensures editingId == Some(item.id)
      ensures IsEditing(item)
    {
      editingId := Some(item.id);
    }

    /** `handleEditSave`: put the saved item in place and close the form. */
    method HandleEditSave(updated: Item)
      modifies this`menuItems, this`editingId
      ensures menuItems == ReplaceItem(old(menuItems), updated)
      ensures editingId == None
    {
      menuItems := ReplaceItem(menuItems, updated);
      editingId := None;
    }

    /** `handleEditCancel`: close the form, leaving the list alone. */
    method HandleEditCancel()
      modifies this`editingId
      ensures editingId == None
      ensures forall item :: !IsEditing(item)
    {
      editingId := None;
    }

    /** `onAdd`: the created item goes at the end. */
    method OnAdd(item: Item)
      modifies this`menuItems
      ensures menuItems == old(menuItems) + [item]
      ensures |menuItems| == |old(menuItems)| + 1 && menuItems[|menuItems| - 1] == item
    {
      menuItems := menuItems + [item];
    }
  }
}

/** `/api/items`: list the catalog (GET) and add an item (POST, administrators only). */
module ItemsRoute {
  import opened Js
  import opened Models
  import opened Http
  import opened Store

  /** GET needs no session and answers with every catalog item, in store order. */
  function Get(db: Db): (r: Response<seq<Item>>)
    reads db
    ensures r.Ok? && |r.value| == |db.items|
    ensures forall i :: 0 <= i < |db.items| ==> r.value[i] == db.items[i]
  {
    Ok(db.items)
  }

  /** `Item.findOne({ name })` finds a document. */
  predicate NameTaken(catalog: seq<Item>, name: string)
  {
    exists i :: 0 <= i < |catalog| && catalog[i].name == name
  }

  /** No two catalog items share a name. */
  predicate UniqueNames(catalog: seq<Item>)
  {
    forall i, j :: 0 <= i < j < |catalog| ==> catalog[i].name != catalog[j].name
  }

  /** POST `{ name, price, image }`. A falsy field (a price of 0 included) is
      rejected; a negative price is not. `newId` is the identity the store
      assigns to the new document. */
  method Post(db: Db, session: Session, name: Option<string>, price: Option<int>, image: Option<string>, newId: ItemId)
    returns (r: Response<Item>)
    requires db.Valid()
    requires forall i :: 0 <= i < |db.items| ==> db.items[i].id != newId
    modifies db`items
    ensures db.Valid()
    ensures !IsAdmin(session) ==> r == Error(401, Unauthorized) && db.items == old(db.items)
    ensures IsAdmin(session) && (FalsyText(name) || FalsyNumber(price) || FalsyText(image)) ==>
      r == Error(400, "All fields required") && db.items == old(db.items)
    ensures IsAdmin(session) && !FalsyText(name) && !FalsyNumber(price) && !FalsyText(image)
            && NameTaken(old(db.items), name.value) ==>
      r == Error(400, "Item already exists") && db.items == old(db.items)
    ensures IsAdmin(session) && !FalsyText(name) && !FalsyNumber(price) && !FalsyText(image)
            && !NameTaken(old(db.items), name.value) ==>
      && r == Created(Item(newId, name.value, price.value, image.value))
      && db.items == old(db.items) + [r.value]
    ensures UniqueNames(old(db.items)) ==> UniqueNames(db.items)
  {
    if !IsAdmin(session) {
      return Error(401, Unauthorized);
    }
    if FalsyText(name) || FalsyNumber(price) || FalsyText(image) {
      return Error(400, "All fields required");
    }
    if NameTaken(db.items, name.value) {
      return Error(400, "Item already exists");
    }
    var item := Item(newId, name.value, price.value, image.value);
    db.items := db.items + [item];
    r := Created(item);
  }

  /** A GET after a POST lists the created item last, after every item listed before;
      a refused POST leaves the listing as it was. */
  method CreateThenList(db: Db, session: Session, name: Option<string>, price: Option<int>, image: Option<string>, newId: ItemId)
    returns (created: Response<Item>, listed: Response<seq<Item>>)
    requires db.Valid()
    requires forall i :: 0 <= i < |db.items| ==> db.items[i].id != newId
    modifies db`items
    ensures created.Created? ==> listed == Ok(old(Get(db)).value + [created.value])
    ensures !created.Created? ==> listed == old(Get(db))
  {
    created := Post(db, session, name, price, image, newId);
    listed := Get(db);
  }
}

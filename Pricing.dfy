/** The `Σ price × quantity` reduction used by checkout, order placement and the
    cart page. Prices are whole rupees; the payment gateway counts in paise. */
module Pricing {
  import opened Js
  import opened Models
  import opened Cart

  /** `(c.item?.price || 0) * c.quantity`: a missing item is priced 0. */
  function LineTotal(line: PopulatedLine): (t: int)
    ensures line.item.None? ==> t == 0
    ensures line.item.Some? ==> t == line.item.value.price * line.quantity
  {
    match line.item
    case Some(item) => item.price * line.quantity
    case None => 0
  }

  /** `lines.reduce((sum, c) => sum + LineTotal(c), 0)`, folding from the left. */
  function Total(lines: seq<PopulatedLine>): int
  {
    if lines == [] then 0 else Total(lines[..|lines| - 1]) + LineTotal(lines[|lines| - 1])
  }

  /** The total of a stored cart against the current catalog. */
  function CartTotal(cart: seq<LineItem>, catalog: seq<Item>): int
  {
    Total(Populate(cart, catalog))
  }

  const PaisePerRupee: int := 100

  /** The amount handed to the gateway: `total * 100`. */
  function Paise(rupees: int): (p: int)
    ensures p == PaisePerRupee * rupees
    ensures p % PaisePerRupee == 0 && p / PaisePerRupee == rupees
  {
    rupees * 100
  }

  /** The total of a concatenation is the sum of the totals. */
  lemma {:induction false} TotalAppend(a: seq<PopulatedLine>, b: seq<PopulatedLine>)
    ensures Total(a + b) == Total(a) + Total(b)
    decreases |b|
  {
    if b == [] {
      assert a + b == a;
    } else {
      var b' := b[..|b| - 1];
      assert (a + b)[..|a + b| - 1] == a + b';
      assert (a + b)[|a + b| - 1] == b[|b| - 1];
      TotalAppend(a, b');
    }
  }

  /** The total of a single line is its line total. */
  lemma TotalSingle(line: PopulatedLine)
    ensures Total([line]) == LineTotal(line)
  {
    assert [line][..0] == [];
  }

  /** A line whose item no longer exists contributes nothing: dropping it keeps the total. */
  lemma MissingItemCountsZero(lines: seq<PopulatedLine>, i: nat)
    requires i < |lines| && lines[i].item.None?
    ensures Total(lines) == Total(lines[..i] + lines[i + 1..])
  {
    assert lines == lines[..i] + [lines[i]] + lines[i + 1..];
    TotalAppend(lines[..i] + [lines[i]], lines[i + 1..]);
    TotalAppend(lines[..i], [lines[i]]);
    TotalSingle(lines[i]);
    TotalAppend(lines[..i], lines[i + 1..]);
  }

  /** With non-negative prices and quantities the total is non-negative. */
  lemma {:induction false} TotalNonNegative(lines: seq<PopulatedLine>)
    requires forall i :: 0 <= i < |lines| ==> lines[i].quantity >= 0
    requires forall i :: 0 <= i < |lines| && lines[i].item.Some? ==> lines[i].item.value.price >= 0
    ensures Total(lines) >= 0
  {
    if lines != [] {
      TotalNonNegative(lines[..|lines| - 1]);
    }
  }

  /** Overwriting one entry's quantity moves the cart total by exactly that line's difference. */
  lemma SetQuantityTotal(cart: seq<LineItem>, catalog: seq<Item>, id: ItemId, quantity: int)
    requires InCart(cart, id)
    ensures CartTotal(AddOrSet(cart, id, quantity), catalog)
         == CartTotal(cart, catalog)
          - LineTotal(PopulatedLine(FindItem(catalog, id), cart[FirstIndex(cart, id)].quantity))
          + LineTotal(PopulatedLine(FindItem(catalog, id), quantity))
  {
    var k := FirstIndex(cart, id);
    var r := AddOrSet(cart, id, quantity);
    assert cart == cart[..k] + [cart[k]] + cart[k + 1..];
    assert r == cart[..k] + [LineItem(id, quantity)] + cart[k + 1..];
    PopulateAppend(cart[..k] + [cart[k]], cart[k + 1..], catalog);
    PopulateAppend(cart[..k], [cart[k]], catalog);
    PopulateAppend(cart[..k] + [LineItem(id, quantity)], cart[k + 1..], catalog);
    PopulateAppend(cart[..k], [LineItem(id, quantity)], catalog);
    var pre, post := Populate(cart[..k], catalog), Populate(cart[k + 1..], catalog);
    TotalAppend(pre + Populate([cart[k]], catalog), post);
    TotalAppend(pre, Populate([cart[k]], catalog));
    TotalAppend(pre + Populate([LineItem(id, quantity)], catalog), post);
    TotalAppend(pre, Populate([LineItem(id, quantity)], catalog));
    TotalSingle(Populate([cart[k]], catalog)[0]);
    TotalSingle(Populate([LineItem(id, quantity)], catalog)[0]);
    assert Populate([cart[k]], catalog) == [Populate([cart[k]], catalog)[0]];
    assert Populate([LineItem(id, quantity)], catalog) == [Populate([LineItem(id, quantity)], catalog)[0]];
  }

  /** Adding a new item grows the cart total by that item's line total. */
  lemma AddItemTotal(cart: seq<LineItem>, catalog: seq<Item>, id: ItemId, quantity: int)
    requires !InCart(cart, id)
    ensures CartTotal(AddOrSet(cart, id, quantity), catalog)
         == CartTotal(cart, catalog) + LineTotal(PopulatedLine(FindItem(catalog, id), quantity))
  {
    PopulateAppend(cart, [LineItem(id, quantity)], catalog);
    TotalAppend(Populate(cart, catalog), Populate([LineItem(id, quantity)], catalog));
    assert Populate([LineItem(id, quantity)], catalog) == [PopulatedLine(FindItem(catalog, id), quantity)];
    TotalSingle(PopulatedLine(FindItem(catalog, id), quantity));
  }

  /** Two ₹100 portions of one item and one ₹50 portion of another total ₹250. */
  lemma ExampleTotal()
    ensures CartTotal([LineItem("a", 2), LineItem("b", 1)],
                      [Item("a", "Dosa", 100, "dosa.png"), Item("b", "Idli", 50, "idli.png")]) == 250
  {
    var catalog := [Item("a", "Dosa", 100, "dosa.png"), Item("b", "Idli", 50, "idli.png")];
    var p := Populate([LineItem("a", 2), LineItem("b", 1)], catalog);
    assert FindItem(catalog, "a") == Some(catalog[0]);
    assert FindItem(catalog, "b") == Some(catalog[1]);
    assert p[..1] == [p[0]];
    TotalSingle(p[0]);
  }
}

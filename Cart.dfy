/** The billing page's cart: a list of lines, each a snapshot of a stock
    row taken when the item was first added, plus a quantity. The page
    replaces the whole list on every change; these functions give the new
    list. */
module Cart {
  import opened Records
  import opened Folds

  /** `{ ...item, qty }`: the stock row as it was at add time, and a quantity. */
  datatype Line = Line(item: StockItem, qty: int)

  /** What a line costs: `price * qty`. */
  function Amount(l: Line): int
  {
    l.item.price * l.qty
  }

  /** `cart.reduce((sum, i) => sum + i.price * i.qty, 0)`. */
  function Total(cart: seq<Line>): int
  {
    Sum(Amount, cart)
  }

  /** `cart.find(c => c.id === id)` finds something. */
  predicate InCart(cart: seq<Line>, id: Id)
  {
    exists k :: 0 <= k < |cart| && cart[k].item.id == id
  }

  predicate DistinctIds(cart: seq<Line>)
  {
    forall j, k :: 0 <= j < k < |cart| ==> cart[j].item.id != cart[k].item.id
  }

  predicate PositiveQtys(cart: seq<Line>)
  {
    forall k :: 0 <= k < |cart| ==> cart[k].qty >= 1
  }

  /** What every cart the page builds satisfies: one line per stock id,
      and no line with a quantity below 1. */
  predicate WellFormed(cart: seq<Line>)
  {
    DistinctIds(cart) && PositiveQtys(cart)
  }

  /** `cart.map(c => c.id === id ? { ...c, qty: c.qty + 1 } : c)`. */
  function Bumped(cart: seq<Line>, id: Id): seq<Line>
  {
    seq(|cart|, k requires 0 <= k < |cart| =>
      if cart[k].item.id == id then cart[k].(qty := cart[k].qty + 1) else cart[k])
  }

  /** `addItem(item)`: nothing for an item whose stock is exactly 0; one more
      of an item already in the cart; otherwise a new last line of 1. */
  function AddItem(cart: seq<Line>, item: StockItem): seq<Line>
  {
    if item.quantity == 0 then cart
    else if InCart(cart, item.id) then Bumped(cart, item.id)
    else cart + [Line(item, 1)]
  }

  /** `updateQty(index, change)`: the line takes `qty + change` only when
      that stays positive; otherwise the cart is left as it was. */
  function UpdatedQty(cart: seq<Line>, index: int, change: int): seq<Line>
    requires 0 <= index < |cart|
  {
    if cart[index].qty + change > 0 then cart[index := cart[index].(qty := cart[index].qty + change)]
    else cart
  }

  /** `removeItem(index)`. */
  function RemoveItem(cart: seq<Line>, index: int): seq<Line>
  {
    RemoveAt(cart, index)
  }

  /** An empty cart costs nothing, and a cart is the sum of its lines. */
  lemma {:induction false} TotalOfLines(a: seq<Line>, b: seq<Line>)
    ensures Total([]) == 0
    ensures Total(a + b) == Total(a) + Total(b)
  {
    SumAppend(Amount, a, b);
  }

  /** Nothing is added for an item whose stock is 0. Negative stock, which
      a commit can leave behind, is not refused. */
  lemma AddItemRefusesOutOfStock(cart: seq<Line>, item: StockItem)
    requires item.quantity == 0
    ensures AddItem(cart, item) == cart
  {
  }

  /** An item already in the cart gets exactly one more unit on its own line;
      the line keeps its add-time snapshot, so the total grows by the price
      recorded then, not by the item's current price. */
  lemma AddItemIncrementsExisting(cart: seq<Line>, item: StockItem, k: int)
    requires DistinctIds(cart)
    requires item.quantity != 0
    requires 0 <= k < |cart| && cart[k].item.id == item.id
    ensures |AddItem(cart, item)| == |cart|
    ensures AddItem(cart, item) == cart[k := cart[k].(qty := cart[k].qty + 1)]
    ensures Total(AddItem(cart, item)) == Total(cart) + cart[k].item.price
  {
    var r := AddItem(cart, item);
    var updated := cart[k := cart[k].(qty := cart[k].qty + 1)];
    assert r == Bumped(cart, item.id);
    assert forall j :: 0 <= j < |cart| ==> r[j] == updated[j];
    assert r == updated;
    SumUpdate(Amount, cart, k, cart[k].(qty := cart[k].qty + 1));
  }

  /** A new item becomes one more line at the end, with quantity 1 and the
      item's current price; the earlier lines are untouched. */
  lemma AddItemAppendsNew(cart: seq<Line>, item: StockItem)
    requires item.quantity != 0
    requires !InCart(cart, item.id)
    ensures AddItem(cart, item) == cart + [Line(item, 1)]
    ensures Total(AddItem(cart, item)) == Total(cart) + item.price
  {
    SumAppend(Amount, cart, [Line(item, 1)]);
    assert [Line(item, 1)][..0] == [];
  }

  /** Adding keeps ids distinct and quantities positive. */
  lemma AddItemKeepsWellFormed(cart: seq<Line>, item: StockItem)
    requires WellFormed(cart)
    ensures WellFormed(AddItem(cart, item))
  {
    if item.quantity != 0 && InCart(cart, item.id) {
      var k :| 0 <= k < |cart| && cart[k].item.id == item.id;
      AddItemIncrementsExisting(cart, item, k);
    }
  }

  /** A change is applied to line `index` alone, exactly when the result is
      positive; the total moves by `change` units of that line's price. */
  lemma UpdatedQtyEffect(cart: seq<Line>, index: int, change: int)
    requires 0 <= index < |cart|
    ensures var r := UpdatedQty(cart, index, change);
      && |r| == |cart|
      && (forall j :: 0 <= j < |cart| && j != index ==> r[j] == cart[j])
      && r[index].item == cart[index].item
      && (cart[index].qty + change > 0 ==> r[index].qty == cart[index].qty + change)
      && (cart[index].qty + change <= 0 ==> r == cart)
      && Total(r) == Total(cart) + (if cart[index].qty + change > 0 then change * cart[index].item.price else 0)
  {
    var l := cart[index];
    if l.qty + change > 0 {
      SumUpdate(Amount, cart, index, l.(qty := l.qty + change));
      assert Amount(l.(qty := l.qty + change)) == Amount(l) + change * l.item.price by {
        assert l.item.price * (l.qty + change) == l.item.price * l.qty + change * l.item.price;
      }
    }
  }

  /** A quantity change never takes a line below 1 and never touches ids. */
  lemma UpdatedQtyKeepsWellFormed(cart: seq<Line>, index: int, change: int)
    requires WellFormed(cart)
    requires 0 <= index < |cart|
    ensures WellFormed(UpdatedQty(cart, index, change))
  {
  }

  /** Removing a line drops exactly that line, keeps the others in order, and
      takes exactly its amount off the total. */
  lemma RemoveItemEffect(cart: seq<Line>, index: int)
    requires 0 <= index < |cart|
    ensures var r := RemoveItem(cart, index);
      && |r| == |cart| - 1
      && r == cart[..index] + cart[index + 1..]
      && Total(r) == Total(cart) - Amount(cart[index])
  {
    SumRemoveAt(Amount, cart, index);
  }

  /** Removing a line keeps a well-formed cart well-formed. */
  lemma RemoveItemKeepsWellFormed(cart: seq<Line>, index: int)
    requires WellFormed(cart)
    ensures WellFormed(RemoveItem(cart, index))
  {
    var r := RemoveItem(cart, index);
    if 0 <= index < |cart| {
      forall j, k | 0 <= j < k < |r|
        ensures r[j].item.id != r[k].item.id
      {
        var j' := if j < index then j else j + 1;
        var k' := if k < index then k else k + 1;
        assert r[j] == cart[j'] && r[k] == cart[k'] && j' < k';
      }
    }
  }
}

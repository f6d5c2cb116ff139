/** The billing page: pick items into a cart, take the seller's name and the
    payment split, and commit the sale as one bill, one bill item per cart
    line and one stock write per cart line. */
module BillPage {
  import opened Optional
  import opened Records
  import opened Folds
  import opened Amounts
  import opened Cart
  import opened Store

  /** The category selector's value that shows every item. */
  const AllCategories: string := "all"

  /** `filteredItems`: every item under "all", otherwise the items of the
      selected category. */
  function FilteredItems(items: seq<StockItem>, selected: string): seq<StockItem>
  {
    if selected == AllCategories then items
    else Filter((item: StockItem) => item.categoryId == selected, items)
  }

  /** The category filter keeps exactly the items of the selected category,
      and keeps all of them under "all". */
  lemma FilteredItemsSelects(items: seq<StockItem>, selected: string, x: StockItem)
    ensures selected == AllCategories ==> FilteredItems(items, selected) == items
    ensures selected != AllCategories ==>
      (x in FilteredItems(items, selected) <==> x in items && x.categoryId == selected)
  {
    FilterMembership((item: StockItem) => item.categoryId == selected, items, x);
  }

  /** `remaining`: what is still to be paid (negative when overpaid). A
      field left empty pays nothing, so with neither field typed the whole
      total remains. */
  function Remaining(cart: seq<Line>, cash: string, upi: string): (r: int)
    ensures cash == "" && upi == "" ==> r == Total(cart)
  {
    Total(cart) - NumberOr0(cash) - NumberOr0(upi)
  }

  /** With amounts typed as the number inputs hold them, what remains is the
      total less both amounts; paying the total in cash leaves nothing. */
  lemma RemainingOfTypedAmounts(cart: seq<Line>, cash: int, upi: int)
    ensures Remaining(cart, Decimal(cash), Decimal(upi)) == Total(cart) - cash - upi
    ensures Remaining(cart, Decimal(cash), "") == Total(cart) - cash
    ensures Remaining(cart, Decimal(Total(cart)), "") == 0
  {
    DecimalRoundTrip(cash);
    DecimalRoundTrip(upi);
    DecimalRoundTrip(Total(cart));
  }

  /** The payment badge under the payment fields. */
  datatype PaymentStatus = Complete | Due(amount: int) | Excess(amount: int)

  /** The badge: drawn only inside the payment section, which exists only
      while the cart has lines, and only once cash or UPI is typed. It reads
      complete when nothing remains, otherwise the amount still due or the
      excess paid. */
  function Status(cart: seq<Line>, cash: string, upi: string): (r: Option<PaymentStatus>)
    ensures r.Some? <==> cart != [] && (cash != "" || upi != "")
    ensures r.Some? ==> (r.value == Complete <==> Remaining(cart, cash, upi) == 0)
    ensures r.Some? && Remaining(cart, cash, upi) > 0 ==> r.value == Due(Remaining(cart, cash, upi))
    ensures r.Some? && Remaining(cart, cash, upi) < 0 ==> r.value == Excess(-Remaining(cart, cash, upi))
    ensures r.Some? && (r.value.Due? || r.value.Excess?) ==> r.value.amount > 0
  {
    if cart == [] || (cash == "" && upi == "") then None
    else
      var rem := Remaining(cart, cash, upi);
      Some(if rem == 0 then Complete else if rem > 0 then Due(rem) else Excess(-rem))
  }

  /** Why `saveBill` refused, one `alert` each. */
  datatype Rejection = SellerRequired | CartEmpty | PaymentMismatch

  datatype Check = Pass | Reject(reason: Rejection)

  /** The three checks of `saveBill`, in order; the first that fails wins.
      The payment check passes exactly when nothing remains to be paid. */
  function Validate(seller: string, cart: seq<Line>, cash: string, upi: string): (r: Check)
    ensures r == Pass <==> seller != "" && cart != [] && Remaining(cart, cash, upi) == 0
    ensures r == Reject(SellerRequired) <==> seller == ""
    ensures r == Reject(CartEmpty) <==> seller != "" && cart == []
  {
    if seller == "" then Reject(SellerRequired)
    else if |cart| == 0 then Reject(CartEmpty)
    else if NumberOr0(cash) + NumberOr0(upi) != Total(cart) then Reject(PaymentMismatch)
    else Pass
  }

  /** Once a seller and a non-empty cart are in place and a payment has been
      typed, the bill can be saved exactly when the badge says complete. */
  lemma SaveableIffComplete(seller: string, cart: seq<Line>, cash: string, upi: string)
    requires seller != "" && cart != []
    requires cash != "" || upi != ""
    ensures Validate(seller, cart, cash, upi) == Pass <==> Status(cart, cash, upi) == Some(Complete)
  {
  }

  /** The `bill_items` record for one cart line. */
  function BillItemFor(billId: int, l: Line): (r: BillItemRow)
    ensures r.subtotal == r.qty * r.price
    ensures r.billId == billId && r.itemName == l.item.name && r.qty == l.qty && r.price == l.item.price
  {
    BillItemRow(billId, l.item.name, l.qty, l.item.price, l.qty * l.item.price)
  }

  /** The stock write for one cart line: the add-time quantity minus the
      quantity sold, written as an absolute value with no lower bound. */
  function StockWriteFor(l: Line): Write
  {
    SetStockQuantity(l.item.id, l.item.quantity - l.qty)
  }

  /** The loop of `saveBill`: for each line in order, its bill item and then
      its stock write. */
  function LineWrites(billId: int, lines: seq<Line>): (r: seq<Write>)
    ensures |r| == 2 * |lines|
  {
    if lines == [] then []
    else
      var last := lines[|lines| - 1];
      LineWrites(billId, lines[..|lines| - 1]) + [InsertBillItem(BillItemFor(billId, last)), StockWriteFor(last)]
  }

  /** The header of the bill `saveBill` sends. */
  function BillFor(cart: seq<Line>, cash: int, upi: int, today: string): BillRow
  {
    BillRow(Total(cart), cash, upi, today)
  }

  /** Everything a successful `saveBill` writes, in order. */
  function CommitWrites(billId: int, cart: seq<Line>, cash: int, upi: int, today: string): seq<Write>
  {
    [Write.InsertBill(billId, BillFor(cart, cash, upi, today))] + LineWrites(billId, cart)
  }

  /** Line `k` of the cart produces write `2k` (its bill item) and write
      `2k + 1` (its stock quantity). */
  lemma {:induction false} LineWritesAt(billId: int, lines: seq<Line>, k: int)
    requires 0 <= k < |lines|
    ensures LineWrites(billId, lines)[2 * k] == InsertBillItem(BillItemFor(billId, lines[k]))
    ensures LineWrites(billId, lines)[2 * k + 1] == StockWriteFor(lines[k])
  {
    if k < |lines| - 1 {
      LineWritesAt(billId, lines[..|lines| - 1], k);
    }
  }

  /** The bill items among a sequence of writes, in order. */
  function BillItemsOf(log: seq<Write>): seq<BillItemRow>
  {
    if log == [] then []
    else
      var last := log[|log| - 1];
      BillItemsOf(log[..|log| - 1]) + (if last.InsertBillItem? then [last.item] else [])
  }

  lemma {:induction false} BillItemsOfAppend(a: seq<Write>, b: seq<Write>)
    ensures BillItemsOf(a + b) == BillItemsOf(a) + BillItemsOf(b)
  {
    if b == [] {
      assert a + b == a;
    } else {
      assert (a + b)[..|a + b| - 1] == a + b[..|b| - 1];
      BillItemsOfAppend(a, b[..|b| - 1]);
    }
  }

  function Subtotal(row: BillItemRow): int
  {
    row.subtotal
  }

  /** A committed bill's items are its cart's lines, one each, in order, and
      their subtotals add up to the bill's total. */
  lemma {:induction false} CommittedItemsMatchBill(billId: int, cart: seq<Line>, cash: int, upi: int, today: string)
    ensures var items := BillItemsOf(CommitWrites(billId, cart, cash, upi, today));
      && |items| == |cart|
      && (forall k :: 0 <= k < |cart| ==> items[k] == BillItemFor(billId, cart[k]))
      && Sum(Subtotal, items) == BillFor(cart, cash, upi, today).total
  {
    var header := [Write.InsertBill(billId, BillFor(cart, cash, upi, today))];
    BillItemsOfAppend(header, LineWrites(billId, cart));
    assert BillItemsOf(header) == [] by { assert header[..0] == []; }
    assert BillItemsOf(CommitWrites(billId, cart, cash, upi, today)) == BillItemsOf(LineWrites(billId, cart));
    LineItemsMatch(billId, cart);
  }

  lemma {:induction false} LineItemsMatch(billId: int, lines: seq<Line>)
    ensures var items := BillItemsOf(LineWrites(billId, lines));
      && |items| == |lines|
      && (forall k :: 0 <= k < |lines| ==> items[k] == BillItemFor(billId, lines[k]))
      && Sum(Subtotal, items) == Total(lines)
  {
    if lines != [] {
      var init, last := lines[..|lines| - 1], lines[|lines| - 1];
      var pair := [InsertBillItem(BillItemFor(billId, last)), StockWriteFor(last)];
      LineItemsMatch(billId, init);
      BillItemsOfAppend(LineWrites(billId, init), pair);
      assert BillItemsOf(pair) == [BillItemFor(billId, last)] by {
        var first := [pair[0]];
        assert first[..0] == [];
        assert BillItemsOf(first) == [BillItemFor(billId, last)];
        assert pair[..1] == first;
      }
      var items := BillItemsOf(LineWrites(billId, lines));
      assert items == BillItemsOf(LineWrites(billId, init)) + [BillItemFor(billId, last)];
      assert items[..|items| - 1] == BillItemsOf(LineWrites(billId, init));
      assert Subtotal(BillItemFor(billId, last)) == Amount(last);
    }
  }

  /** The stock quantities after applying the quantity writes of `log` in
      order; other writes are skipped, and a commit issues no other stock
      writes. A quantity write is an update filtered by id: it overwrites
      the quantity of an existing row and does nothing when no row has that
      id. */
  function StockAfter(stock: map<Id, int>, log: seq<Write>): map<Id, int>
  {
    if log == [] then stock
    else
      var before := StockAfter(stock, log[..|log| - 1]);
      match log[|log| - 1]
      case SetStockQuantity(id, q) => if id in before then before[id := q] else before
      case _ => before
  }

  lemma {:induction false} StockAfterAppend(stock: map<Id, int>, a: seq<Write>, b: seq<Write>)
    ensures StockAfter(stock, a + b) == StockAfter(StockAfter(stock, a), b)
  {
    if b == [] {
      assert a + b == a;
    } else {
      assert (a + b)[..|a + b| - 1] == a + b[..|b| - 1];
      StockAfterAppend(stock, a, b[..|b| - 1]);
    }
  }

  /** After a commit the stock table has the same rows as before; every cart
      item that has a row reads its add-time quantity minus the quantity sold
      (negative if more was sold than was in stock then), and no other row
      changes. The cart's ids are distinct, so no write is overwritten by a
      later one. */
  lemma CommitSetsStock(stock: map<Id, int>, billId: int, cart: seq<Line>, cash: int, upi: int, today: string)
    requires DistinctIds(cart)
    ensures var after := StockAfter(stock, CommitWrites(billId, cart, cash, upi, today));
      && after.Keys == stock.Keys
      && (forall k :: 0 <= k < |cart| && cart[k].item.id in stock ==>
            after[cart[k].item.id] == cart[k].item.quantity - cart[k].qty)
      && (forall id :: !InCart(cart, id) && id in stock ==> after[id] == stock[id])
  {
    var header := [Write.InsertBill(billId, BillFor(cart, cash, upi, today))];
    StockAfterAppend(stock, header, LineWrites(billId, cart));
    assert StockAfter(stock, header) == stock by { assert header[..0] == []; }
    StockAfterLines(stock, billId, cart);
  }

  lemma {:induction false} StockAfterLines(stock: map<Id, int>, billId: int, lines: seq<Line>)
    requires DistinctIds(lines)
    ensures var after := StockAfter(stock, LineWrites(billId, lines));
      && after.Keys == stock.Keys
      && (forall k :: 0 <= k < |lines| && lines[k].item.id in stock ==>
            after[lines[k].item.id] == lines[k].item.quantity - lines[k].qty)
      && (forall id :: !InCart(lines, id) && id in stock ==> after[id] == stock[id])
  {
    if lines != [] {
      var init, last := lines[..|lines| - 1], lines[|lines| - 1];
      var pair := [InsertBillItem(BillItemFor(billId, last)), StockWriteFor(last)];
      assert DistinctIds(init);
      StockAfterLines(stock, billId, init);
      assert LineWrites(billId, lines) == LineWrites(billId, init) + pair;
      StockAfterAppend(stock, LineWrites(billId, init), pair);
      var before := StockAfter(stock, LineWrites(billId, init));
      var after := StockAfter(stock, LineWrites(billId, lines));
      assert after == (if last.item.id in before then before[last.item.id := last.item.quantity - last.qty] else before) by {
        var first := [pair[0]];
        assert first[..0] == [];
        assert StockAfter(before, first) == before;
        assert pair[..1] == first;
      }
      forall k | 0 <= k < |lines| && lines[k].item.id in stock
        ensures after[lines[k].item.id] == lines[k].item.quantity - lines[k].qty
      {
        if k < |init| {
          assert init[k] == lines[k];
        }
      }
      forall id | !InCart(lines, id) && id in stock
        ensures after[id] == stock[id]
      {
        assert id != lines[|lines| - 1].item.id;
      }
    }
  }

  /** The sale of two cones at 20 and a cup at 30, paid 70 in cash: it is
      accepted and written as one bill of 70, two items and two stock writes.
      Paid 50 in cash and 10 by UPI instead, it is refused. */
  lemma ConeAndCupSale(billId: int, cones: int, cups: int, today: string)
    ensures var cone := StockItem("1", "Cone", None, "7", 20, cones);
      var cup := StockItem("2", "Cup", None, "7", 30, cups);
      var cart := [Line(cone, 2), Line(cup, 1)];
      && Validate("Asha", cart, "70", "") == Pass
      && Validate("Asha", cart, "50", "10") == Reject(PaymentMismatch)
      && CommitWrites(billId, cart, 70, 0, today) == [
           Write.InsertBill(billId, BillRow(70, 70, 0, today)),
           InsertBillItem(BillItemRow(billId, "Cone", 2, 20, 40)),
           SetStockQuantity("1", cones - 2),
           InsertBillItem(BillItemRow(billId, "Cup", 1, 30, 30)),
           SetStockQuantity("2", cups - 1)]
  {
    var cone := StockItem("1", "Cone", None, "7", 20, cones);
    var cup := StockItem("2", "Cup", None, "7", 30, cups);
    var cart := [Line(cone, 2), Line(cup, 1)];
    assert cart[..1] == [Line(cone, 2)] && cart[..1][..0] == [];
    assert Total([Line(cone, 2)]) == 40 by {
      assert Sum(Amount, [Line(cone, 2)]) == Sum(Amount, []) + Amount(Line(cone, 2));
    }
    assert Total(cart) == 70;
    assert LineWrites(billId, cart[..1]) == [InsertBillItem(BillItemFor(billId, cart[0])), StockWriteFor(cart[0])];
    assert NumberOr0("70") == 70 by {
      assert "70"[..1] == "7" && "7"[..0] == "";
    }
    assert NumberOr0("50") == 50 by {
      assert "50"[..1] == "5" && "5"[..0] == "";
    }
    assert NumberOr0("10") == 10 by {
      assert "10"[..1] == "1" && "1"[..0] == "";
    }
  }

  /** What `lastBill` keeps for the printed receipt: the stored bill, the cart
      as committed, the seller and the contact. */
  datatype Receipt = Receipt(billId: int, bill: BillRow, items: seq<Line>, seller: string, contact: string)

  datatype SaveOutcome = Saved(billId: int) | Rejected(reason: Rejection)

  /** The page's state: the stock list and category selector, the cart, the
      customer and payment fields, and the last saved bill. */
  class Page {
    var items: seq<StockItem>
    var categories: seq<Category>
    var selectedCategory: string
    var cart: seq<Line>
    var seller: string
    var contact: string
    var cash: string
    var upi: string
    var lastBill: Option<Receipt>
    const ledger: Ledger

    ghost predicate Valid()
      reads this
    {
      WellFormed(cart)
    }

    constructor (ledger: Ledger)
      ensures Valid() && this.ledger == ledger
      ensures items == [] && categories == [] && selectedCategory == AllCategories
      ensures cart == [] && seller == "" && contact == "" && cash == "" && upi == ""
      ensures lastBill == None
    {
      this.ledger := ledger;
      items, categories, selectedCategory := [], [], AllCategories;
      cart, seller, contact, cash, upi := [], "", "", "", "";
      lastBill := None;
    }

    /** `loadData`: a missing result shows as an empty list. */
    method LoadData(stockData: Option<seq<StockItem>>, categoryData: Option<seq<Category>>)
      modifies this`items, this`categories
      ensures items == stockData.GetOr([]) && categories == categoryData.GetOr([])
    {
      items := stockData.GetOr([]);
      categories := categoryData.GetOr([]);
    }

    method AddItem(item: StockItem)
      requires Valid()
      modifies this`cart
      ensures Valid()
      ensures cart == Cart.AddItem(old(cart), item)
    {
      AddItemKeepsWellFormed(cart, item);
      cart := Cart.AddItem(cart, item);
    }

    /** `updateQty`: copies the cart, sets the line's quantity in the copy
        and keeps the copy only when the new quantity is positive. */
    method UpdateQty(index: int, change: int)
      requires Valid()
      requires 0 <= index < |cart|
      modifies this`cart
      ensures Valid()
      ensures cart == UpdatedQty(old(cart), index, change)
    {
      var copy := cart;
      var newQty := copy[index].qty + change;
      if newQty > 0 {
        copy := copy[index := copy[index].(qty := newQty)];
        cart := copy;
      }
    }

    method RemoveItem(index: int)
      requires Valid()
      modifies this`cart
      ensures Valid()
      ensures cart == Cart.RemoveItem(old(cart), index)
    {
      RemoveItemKeepsWellFormed(cart, index);
      cart := Cart.RemoveItem(cart, index);
    }

    /** `saveBill`: validate, then write the bill, then for each line its
        bill item and its stock quantity, then keep the receipt and clear the
        form. A refused save writes nothing and changes nothing. */
    method SaveBill(today: string) returns (outcome: SaveOutcome)
      requires Valid()
      modifies this`cart, this`seller, this`contact, this`cash, this`upi, this`lastBill, ledger
      ensures Valid()
      ensures var check := Validate(old(seller), old(cart), old(cash), old(upi));
        check.Reject? ==> outcome == Rejected(check.reason) && unchanged(this) && unchanged(ledger)
      ensures Validate(old(seller), old(cart), old(cash), old(upi)) == Pass ==>
        var cashAmt, upiAmt := NumberOr0(old(cash)), NumberOr0(old(upi));
        && outcome == Saved(old(ledger.nextBillId))
        && ledger.nextBillId == old(ledger.nextBillId) + 1
        && ledger.log == old(ledger.log) + CommitWrites(outcome.billId, old(cart), cashAmt, upiAmt, today)
        && lastBill == Some(Receipt(outcome.billId, BillFor(old(cart), cashAmt, upiAmt, today),
                                    old(cart), old(seller), old(contact)))
        && cart == [] && seller == "" && contact == "" && cash == "" && upi == ""
    {
      var total := Total(cart);
      var cashAmt := NumberOr0(cash);
      var upiAmt := NumberOr0(upi);
      if seller == "" {
        return Rejected(SellerRequired);
      }
      if |cart| == 0 {
        return Rejected(CartEmpty);
      }
      if cashAmt + upiAmt != total {
        return Rejected(PaymentMismatch);
      }
      var bill := BillRow(total, cashAmt, upiAmt, today);
      var billId := ledger.InsertBill(bill);
      var i := 0;
      while i < |cart|
        invariant 0 <= i <= |cart|
        invariant ledger.nextBillId == billId + 1
        invariant ledger.log == old(ledger.log) + [Write.InsertBill(billId, bill)] + LineWrites(billId, cart[..i])
        modifies ledger
      {
        var line := cart[i];
        ledger.Issue(InsertBillItem(BillItemFor(billId, line)));
        ledger.Issue(StockWriteFor(line));
        assert cart[..i + 1][..i] == cart[..i];
        i := i + 1;
      }
      assert cart[..i] == cart;
      lastBill := Some(Receipt(billId, bill, cart, seller, contact));
      cart, seller, contact, cash, upi := [], "", "", "", "";
      outcome := Saved(billId);
    }
  }
}

/** The hosted store, reduced to what the pages can observe of it: the
    ordered log of writes they issue and the ids it hands out to new bills. */
module Store {
  import opened Records

  class Ledger {
    /** Every write issued so far, oldest first. */
    var log: seq<Write>
    /** The id the next inserted bill receives (a serial column). */
    var nextBillId: int

    constructor (firstBillId: int)
      ensures log == [] && nextBillId == firstBillId
    {
      log := [];
      nextBillId := firstBillId;
    }

    /** `insert(...).select().single()` on `bills`: records the row and
        returns the id the store gave it. */
    method InsertBill(row: BillRow) returns (id: int)
      modifies this
      ensures id == old(nextBillId) && nextBillId == id + 1
      ensures log == old(log) + [Write.InsertBill(id, row)]
    {
      id := nextBillId;
      nextBillId := nextBillId + 1;
      log := log + [Write.InsertBill(id, row)];
    }

    /** Any other insert, update or delete. */
    method Issue(w: Write)
      requires !w.InsertBill?
      modifies this
      ensures log == old(log) + [w] && nextBillId == old(nextBillId)
    {
      log := log + [w];
    }
  }
}

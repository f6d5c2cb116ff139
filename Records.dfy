/** The rows the pages read from and write to the store's tables
    (`stock`, `categories`, `bills`, `bill_items`). Prices, totals and
    quantities are whole rupees and whole units. */
module Records {
  import opened Optional

  /** A row key as the pages compare it with `===`. */
  type Id = string

  /** A row of `stock`. `variant` is a nullable column. */
  datatype StockItem = StockItem(
    id: Id,
    name: string,
    variant: Option<string>,
    categoryId: Id,
    price: int,
    quantity: int)

  /** A row of `categories`. */
  datatype Category = Category(id: Id, name: string)

  /** The record sent to `bills`; the store assigns the id. */
  datatype BillRow = BillRow(total: int, cash: int, upi: int, date: string)

  /** The record sent to `bill_items`: a snapshot of one cart line. */
  datatype BillItemRow = BillItemRow(billId: int, itemName: string, qty: int, price: int, subtotal: int)

  /** The record sent to `stock` by the add-item form. `Number` of a field
      that is not a number is `NaN`, written `None`. */
  datatype NewStockRow = NewStockRow(
    name: string,
    variant: string,
    categoryId: Id,
    price: Option<int>,
    quantity: Option<int>)

  /** The inline edit form of the stock table, sent whole as an update. */
  datatype EditForm = EditForm(name: string, variant: string, categoryId: Id, price: int, quantity: int)

  /** One write the pages issue to the store, in the order issued. */
  datatype Write =
    | InsertBill(billId: int, bill: BillRow)
    | InsertBillItem(item: BillItemRow)
    | SetStockQuantity(stockId: Id, quantity: int)
    | InsertStock(row: NewStockRow)
    | UpdateStock(stockId: Id, form: EditForm)
    | DeleteStock(stockId: Id)
}

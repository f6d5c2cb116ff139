# Bill management: cart, bill commit, inventory summaries, daily report

A Dafny model of the business logic in the three pages of a point-of-sale
front end for one shop. The hosted store that keeps the `stock`,
`categories`, `bills` and `bill_items` tables is reduced to an abstract
ledger: an ordered log of the writes the pages issue, plus the serial id
the next bill receives.

- **Billing page** (`Cart.dfy`, `BillPage.dfy`). The cart is a list of
  lines. Each line is a stock row as it was when the item was first added,
  plus a quantity. `AddItem`, `UpdatedQty` and `RemoveItem` give the new
  cart, and `Total` is Σ price×qty. Every cart the page builds has distinct
  ids and quantities of at least 1 (`WellFormed`, the class invariant of
  `BillPage.Page`). `SaveBill` checks three things in order: a seller, a
  non-empty cart, and cash + UPI equal to the total. A field that is not a
  number counts as 0. A refused save writes nothing and changes nothing.
  An accepted save writes the bill, then for each line its bill item and
  its stock quantity. It then keeps the receipt and clears the form.
- **Stock page** (`StockPage.dfy`). It has a case-insensitive name search,
  the inventory value Σ price×quantity, the low-stock count (quantity < 3)
  and the row badge that uses the same threshold. The add form inserts only
  when name, price, quantity and category are all filled in. The inline
  edit form is opened with a row's values, closed, or saved whole.
- **Report page** (`Report.dfy`). Over the bills fetched for the day it
  computes the total (a missing total counts as 0), the count, the
  average, the highest and the lowest bill. Each is 0 without bills. It
  also shows the first ten bills.
- Shared pieces: `Folds.dfy` (filter and summing reduce, recursing on the
  last element like `reduce`), `Text.dfy` (ASCII lower-casing, substring
  search), `Amounts.dfy` (`Number(...)` on form text), `Records.dfy` (rows
  and writes), `Ledger.dfy` (the store), `Optional.dfy`.

Notable behaviours of the code, which the model keeps:

- The commit interleaves the writes: bill item, then stock write, line by
  line (`LineWrites`). It does not write all items first and all stock
  writes after.
- Nothing at commit time checks the cart against current stock. `addItem`
  refuses only a quantity of exactly 0, so a negative quantity left by an
  earlier commit is accepted.
- The stock write is the line's add-time quantity minus the quantity sold.
  It has no lower bound and can be negative (`CommitSetsStock`).
- The stock write is an update filtered by the row's id. If the row is
  gone, it changes nothing and creates no row (`StockAfter`).
- The payment badge sits inside the payment section, which is drawn only
  while the cart has lines (`Status`).
- A line already in the cart keeps its add-time price and quantity
  snapshot. Adding the item again does not refresh them
  (`AddItemIncrementsExisting`).
- The UPI input is commented out of the page's markup. The `upi` field is
  still read by `saveBill` and `remaining`, so the model keeps it.

## Model

| member | source | states |
|---|---|---|
| Cart.TotalOfLines | src/pages/Bill.jsx:75 | an empty cart totals 0 and the total of a concatenation is the sum of the totals |
| Cart.AddItemRefusesOutOfStock | src/pages/Bill.jsx:50 | adding an item whose stock is exactly 0 leaves the cart unchanged |
| Cart.AddItemIncrementsExisting | src/pages/Bill.jsx:52-56 | with distinct ids, adding an item already at line k raises only that line's qty by 1, keeps the length, and raises the total by the line's recorded price |
| Cart.AddItemAppendsNew | src/pages/Bill.jsx:57-59 | adding an item not in the cart appends one line with qty 1 and the item's current price, and raises the total by that price |
| Cart.AddItemKeepsWellFormed | src/pages/Bill.jsx:49-60 | adding keeps the cart ids pairwise distinct and every qty at least 1 |
| Cart.UpdatedQtyEffect | src/pages/Bill.jsx:62-69 | a change applies to line i alone, exactly when qty+change > 0, and otherwise the cart is unchanged; the total moves by change×price when applied |
| Cart.UpdatedQtyKeepsWellFormed | src/pages/Bill.jsx:62-69 | a quantity change never produces a qty below 1 and never breaks id distinctness |
| Cart.RemoveItemEffect | src/pages/Bill.jsx:71-73 | removing index i drops exactly that line, keeps the others in order, shortens the cart by 1 and lowers the total by that line's price×qty |
| Cart.RemoveItemKeepsWellFormed | src/pages/Bill.jsx:71-73 | removing a line keeps a well-formed cart well-formed |
| BillPage.FilteredItemsSelects | src/pages/Bill.jsx:43-46 | under "all" every item is shown, otherwise exactly the items of the selected category |
| BillPage.Remaining | src/pages/Bill.jsx:138 | with neither payment field typed, the whole cart total remains to be paid |
| BillPage.RemainingOfTypedAmounts | src/pages/Bill.jsx:138 | with amounts typed as integer text, what remains is the total less both amounts, and paying the total in cash leaves 0 |
| BillPage.Status | src/pages/Bill.jsx:320-356 | the payment badge is shown exactly when the cart has lines and cash or UPI is typed; it reads complete exactly when nothing remains, otherwise Due of the remaining amount or Excess of its negation, always positive |
| BillPage.Validate | src/pages/Bill.jsx:79-85 | the save is refused for a missing seller first, then for an empty cart, and is accepted exactly when seller and cart are present and nothing remains to be paid |
| BillPage.SaveableIffComplete | src/pages/Bill.jsx:138 | with a seller, a non-empty cart and a payment typed, the save is accepted exactly when the badge shows the payment complete |
| BillPage.BillItemFor | src/pages/Bill.jsx:100-106 | a bill item carries the bill id, the line's name, qty and price, and subtotal = qty×price |
| BillPage.LineWrites | src/pages/Bill.jsx:99-112 | the commit loop issues exactly two writes per cart line |
| BillPage.LineWritesAt | src/pages/Bill.jsx:99-112 | cart line k produces write 2k, its bill item, and write 2k+1, its stock quantity |
| BillPage.CommittedItemsMatchBill | src/pages/Bill.jsx:88-106 | a commit's bill items are the cart's lines one for one in order, and their subtotals add up to the bill header's total |
| BillPage.CommitSetsStock | src/pages/Bill.jsx:108-111 | a commit creates and removes no stock rows; each cart item that has a row reads its add-time quantity minus the qty sold, possibly negative, and no other row changes |
| BillPage.ConeAndCupSale | src/pages/Bill.jsx:79-112 | two cones at 20 and a cup at 30 paid 70 in cash commit as a bill of 70, items with subtotals 40 and 30, and stock writes of cones−2 and cups−1; paid 50+10 the save is refused |
| BillPage.Page.constructor | src/pages/Bill.jsx:18-27 | the page starts with no items, category "all", an empty cart, empty form fields and no receipt |
| BillPage.Page.LoadData | src/pages/Bill.jsx:30-40 | a missing stock or category result loads as an empty list |
| BillPage.Page.AddItem | src/pages/Bill.jsx:49-60 | the cart becomes `AddItem` of the old cart and stays well-formed |
| BillPage.Page.UpdateQty | src/pages/Bill.jsx:62-69 | the copy-and-set update leaves the cart equal to `UpdatedQty` of the old cart and well-formed |
| BillPage.Page.RemoveItem | src/pages/Bill.jsx:71-73 | the cart becomes `RemoveItem` of the old cart and stays well-formed |
| BillPage.Page.SaveBill | src/pages/Bill.jsx:78-120 | a refused save returns its reason and changes neither the page nor the ledger; an accepted one appends exactly the commit writes under the next bill id, keeps the receipt and clears cart, seller, contact, cash and UPI |
| Store.Ledger.InsertBill | src/pages/Bill.jsx:88-97 | inserting a bill logs it and returns the next serial id |
| Amounts.DecimalRoundTrip | src/pages/Bill.jsx:79-80 | the text of any integer reads back through `Number` (and `Number(...) || 0`) as that integer |
| Amounts.NumberOr0Defaults | src/pages/Bill.jsx:79-80 | an empty field counts as 0, and so does text with a non-digit after its first character, text starting with neither a digit nor a sign, and a bare sign |
| Text.Lower | src/pages/Stock.jsx:100 | lower-casing keeps the length, maps each upper-case ASCII letter to its lower-case partner and keeps every other character |
| Text.ContainsAtSomeIndex | src/pages/Stock.jsx:100 | the substring search succeeds exactly when the term occurs at some index of the text |
| StockPage.FilteredItemsSelects | src/pages/Stock.jsx:99-101 | a row is shown exactly when its lower-cased name has the lower-cased term at some position |
| StockPage.FilteredItemsKeepOrder | src/pages/Stock.jsx:99-101 | the search keeps the list's order and never shows more rows than there are |
| StockPage.EmptySearchShowsAll | src/pages/Stock.jsx:99-101 | an empty search shows every row |
| StockPage.SearchIgnoresCase | src/pages/Stock.jsx:99-101 | searching for the lower-cased term shows the same rows as searching for the term |
| StockPage.TotalValueIgnoresSearch | src/pages/Stock.jsx:103-106 | the value card is the worth of the shown rows plus the worth of the hidden rows, whatever the search |
| StockPage.TotalValueNonNegative | src/pages/Stock.jsx:103-106 | with no negative price or quantity the inventory value is at least 0 |
| StockPage.LowStockCount | src/pages/Stock.jsx:108 | the low-stock count is at most the number of rows |
| StockPage.LowStockCountMatchesBadges | src/pages/Stock.jsx:357-365 | the card uses the badge's threshold: over all rows, shown or not, it counts those whose badge would read "Low Stock", and with the "In Stock" ones they make up all rows |
| StockPage.LowStockCountCoversHidden | src/pages/Stock.jsx:108 | the card counts the low-stock rows the search shows plus those it hides, so a search never raises it |
| StockPage.NewRow | src/pages/Stock.jsx:56-62 | the inserted row carries the typed name, variant and category id as typed, and a price and quantity that are the numbers whose text was typed |
| StockPage.EditFormFor | src/pages/Stock.jsx:80-86 | the edit form takes the row's name, variant, category, price and quantity, with a missing variant shown as empty |
| StockPage.Page.constructor | src/pages/Stock.jsx:18-34 | the page starts with empty lists and fields, no row being edited, the zero edit form and the add form hidden |
| StockPage.Page.LoadStock | src/pages/Stock.jsx:36-41 | a missing result loads as an empty table |
| StockPage.Page.LoadCategories | src/pages/Stock.jsx:43-46 | a missing result loads as an empty category list |
| StockPage.Page.AddItem | src/pages/Stock.jsx:53-71 | with name, price, quantity or category empty nothing changes and nothing is written; otherwise exactly one insert of the form's row is logged, the five fields are cleared and the form is hidden |
| StockPage.Page.DeleteItem | src/pages/Stock.jsx:73-76 | exactly one delete of the row is logged |
| StockPage.Page.StartEdit | src/pages/Stock.jsx:78-87 | the row becomes the one being edited and the form takes its values |
| StockPage.Page.CancelEdit | src/pages/Stock.jsx:89-91 | no row is being edited afterwards |
| StockPage.Page.SaveEdit | src/pages/Stock.jsx:93-97 | exactly one update of the row with the whole edit form is logged, then editing ends |
| Report.LoadedBills | src/pages/Report.jsx:13-20 | after a failed fetch the list stays empty; otherwise it is the fetched data |
| Report.Totals | src/pages/Report.jsx:158 | the list of totals has one entry per bill, a missing total read as 0 |
| Report.Max | src/pages/Report.jsx:158 | the maximum is at least every element and is one of them |
| Report.Min | src/pages/Report.jsx:164 | the minimum is at most every element and is one of them |
| Report.Recent | src/pages/Report.jsx:180 | the recent list is the first min(10, count) bills in fetched order |
| Report.EmptyReport | src/pages/Report.jsx:27-28 | without bills, including after a failed fetch, total, count, average, highest and lowest are all 0 and the recent list is empty |
| Report.TotalSplits | src/pages/Report.jsx:27 | the report total of no bills is 0 and the total of two lists joined is the sum of their totals |
| Report.HighestAndLowestBound | src/pages/Report.jsx:158-164 | with bills, lowest ≤ every bill's total ≤ highest |
| Report.HighestAndLowestAttained | src/pages/Report.jsx:158-164 | with bills, the highest and the lowest are each the total of an actual bill |
| Report.AverageBetweenLowestAndHighest | src/pages/Report.jsx:152 | with bills, lowest ≤ average ≤ highest, and average × count = total |
| Report.TwoBillReport | src/pages/Report.jsx:27-164 | bills of 100 and 50 report total 150, count 2, average 75, highest 100 and lowest 50 |

## Left out

- Every call to the hosted store is replaced by the ledger log (writes) or
  by a parameter (fetch results). The stock reload after a save
  (src/pages/Bill.jsx:124-125) and after each stock-page change is a read,
  so it is not modelled.
- The try/catch of `saveBill`: the model assumes every write succeeds.
  A failed write, the partial state it leaves and the alert are not
  modelled, because the store's error conventions are not visible here.
- Concurrency: one sequential commit is modelled. The lost-update race
  between two terminals overwriting the same stock row is not.
- Clocks and environment: today's date is a parameter of `SaveBill`.
  `setTimeout`/`window.print`, currency, date and time formatting, and
  `alert` are not modelled. A refusal's reason stands in for its alert
  text.
- Amounts.Number: only the empty string, and an optional sign followed by
  decimal digits, are read as numbers. JavaScript's `Number` also accepts
  surrounding white space, fractions, exponents and hexadecimal, which
  this model reads as not-a-number. Money and quantities are whole rupees
  and whole units, so JavaScript floating point is not modelled.
- Text.Lower: lower-cases ASCII letters only. `toLowerCase` also maps
  other Unicode letters.
- Report.Average: the average is an exact rational. The rounding done
  when it is displayed is not modelled.
- Report.Totals: a `null` total counts as 0 in `Math.max`/`Math.min`, as
  the model reads it. An absent (`undefined`) total would make them
  `NaN`; rows from the store carry `null`, so that case is not modelled.
- Ids are modelled as strings compared with `===`. If the store returned
  numeric category ids, the billing page's comparison with the selector's
  string value would never match. The model does not distinguish value
  types.
- BillPage.Page.UpdateQty requires a valid index. The page only passes
  indices of displayed lines; an out-of-range index would throw in the
  source.
- BillPage.Page.UpdateQty: the source's shallow copy shares line objects
  with the previous cart array. Lines are values here, so that aliasing
  is not modelled. No later code reads the old array.
- Form-field `onChange` handlers are plain assignments to the pages'
  public fields. These cover seller, contact, cash, UPI, category
  selector, search term, add-form fields, edit-form fields and the
  show/hide of the add form. They are not separate methods.
- src/App.jsx, src/routes/protectedRoutes.jsx, src/pages/Login.jsx and
  src/components/PrintBills.jsx hold routing, session handling, a
  commented-out login form and print markup. None of them is part of this
  model. Neither is the pages' layout.

/** The inventory page: a searchable stock table with summary cards, an
    add-item form and an inline edit form. */
module StockPage {
  import opened Optional
  import opened Records
  import opened Folds
  import opened Text
  import opened Amounts
  import opened Store

  /** `item.name.toLowerCase().includes(searchTerm.toLowerCase())`. */
  predicate MatchesSearch(item: StockItem, term: string)
  {
    Contains(Lower(item.name), Lower(term))
  }

  /** `filteredItems`: the rows the table shows for the search term. */
  function FilteredItems(items: seq<StockItem>, term: string): seq<StockItem>
  {
    Filter((item: StockItem) => MatchesSearch(item, term), items)
  }

  /** A row is shown exactly when it is in the list and its lower-cased
      name has the lower-cased term at some position. */
  lemma FilteredItemsSelects(items: seq<StockItem>, term: string, x: StockItem)
    ensures x in FilteredItems(items, term) <==>
      x in items && exists i :: OccursAt(Lower(x.name), Lower(term), i)
  {
    FilterMembership((item: StockItem) => MatchesSearch(item, term), items, x);
    ContainsAtSomeIndex(Lower(x.name), Lower(term));
  }

  /** The search keeps the list's order: the rows shown for a list made of
      two parts are those shown for the first part, then for the second. */
  lemma FilteredItemsKeepOrder(a: seq<StockItem>, b: seq<StockItem>, term: string)
    ensures FilteredItems(a + b, term) == FilteredItems(a, term) + FilteredItems(b, term)
    ensures |FilteredItems(a, term)| <= |a|
  {
    FilterAppend((item: StockItem) => MatchesSearch(item, term), a, b);
  }

  /** An empty search shows every row. */
  lemma EmptySearchShowsAll(items: seq<StockItem>)
    ensures FilteredItems(items, "") == items
  {
    forall k | 0 <= k < |items|
      ensures MatchesSearch(items[k], "")
    {
      assert Lower("") == "";
      ContainsEmpty(Lower(items[k].name));
    }
    FilterKeepsAll((item: StockItem) => MatchesSearch(item, ""), items);
  }

  /** The search ignores the case of the term. */
  lemma SearchIgnoresCase(items: seq<StockItem>, term: string)
    ensures FilteredItems(items, Lower(term)) == FilteredItems(items, term)
  {
    LowerIdempotent(term);
    FilterCongruent((item: StockItem) => MatchesSearch(item, Lower(term)),
                    (item: StockItem) => MatchesSearch(item, term), items);
  }

  /** What one row is worth: `price * quantity`. */
  function ItemValue(item: StockItem): int
  {
    item.price * item.quantity
  }

  /** `totalValue`: the worth of the whole inventory. */
  function TotalValue(items: seq<StockItem>): int
  {
    Sum(ItemValue, items)
  }

  /** The rows the search hides. */
  function HiddenItems(items: seq<StockItem>, term: string): seq<StockItem>
  {
    Filter((item: StockItem) => !MatchesSearch(item, term), items)
  }

  /** The value card covers every row, not only the rows the search shows:
      it is what the shown rows are worth plus what the hidden rows are worth. */
  lemma TotalValueIgnoresSearch(items: seq<StockItem>, term: string)
    ensures TotalValue(items) == TotalValue(FilteredItems(items, term)) + TotalValue(HiddenItems(items, term))
  {
    SumPartition(ItemValue, (item: StockItem) => MatchesSearch(item, term),
                 (item: StockItem) => !MatchesSearch(item, term), items);
  }

  /** An inventory in which no price or quantity is negative is worth at
      least nothing. */
  lemma TotalValueNonNegative(items: seq<StockItem>)
    requires forall k :: 0 <= k < |items| ==> items[k].price >= 0 && items[k].quantity >= 0
    ensures TotalValue(items) >= 0
  {
    SumLowerBound(ItemValue, items, 0);
  }

  /** The threshold of the low-stock card. */
  predicate IsLowStock(item: StockItem)
  {
    item.quantity < 3
  }

  /** `lowStockCount`. */
  function LowStockCount(items: seq<StockItem>): (r: nat)
    ensures r <= |items|
  {
    |Filter(IsLowStock, items)|
  }

  /** The status badge of a row of the table. */
  datatype Badge = LowStock | InStock

  function BadgeFor(item: StockItem): Badge
  {
    if item.quantity < 3 then LowStock else InStock
  }

  /** The card counts exactly the rows whose badge reads "Low Stock"; the
      others read "In Stock", and together they are all the rows. */
  lemma LowStockCountMatchesBadges(items: seq<StockItem>)
    ensures LowStockCount(items) == |Filter((item: StockItem) => BadgeFor(item) == LowStock, items)|
    ensures LowStockCount(items) + |Filter((item: StockItem) => BadgeFor(item) == InStock, items)| == |items|
  {
    FilterCongruent(IsLowStock, (item: StockItem) => BadgeFor(item) == LowStock, items);
    FilterPartitionLength(IsLowStock, (item: StockItem) => BadgeFor(item) == InStock, items);
  }

  /** The card counts every low-stock row, not only the rows the search
      shows: its count is the low-stock rows shown plus the low-stock rows
      hidden, so a search never raises it. */
  lemma LowStockCountCoversHidden(items: seq<StockItem>, term: string)
    ensures LowStockCount(items) == LowStockCount(FilteredItems(items, term)) + LowStockCount(HiddenItems(items, term))
    ensures LowStockCount(FilteredItems(items, term)) <= LowStockCount(items)
  {
    FilterSplitCount(IsLowStock, (item: StockItem) => MatchesSearch(item, term),
                     (item: StockItem) => !MatchesSearch(item, term), items);
  }

  /** The guard of `addItem`: name, price, quantity and category are all
      filled in (the variant is optional). */
  predicate AddFormComplete(name: string, price: string, qty: string, categoryId: string)
  {
    name != "" && price != "" && qty != "" && categoryId != ""
  }

  /** The record `addItem` inserts: the form's text, with price and
      quantity passed through `Number`. */
  function NewRow(name: string, variant: string, categoryId: string, price: string, qty: string): (r: NewStockRow)
    ensures r.name == name && r.variant == variant && r.categoryId == categoryId
    ensures forall n :: r.price == Some(n) <== price == Decimal(n)
    ensures forall n :: r.quantity == Some(n) <== qty == Decimal(n)
  {
    forall n | price == Decimal(n) ensures Number(price) == Some(n) {
      DecimalRoundTrip(n);
    }
    forall n | qty == Decimal(n) ensures Number(qty) == Some(n) {
      DecimalRoundTrip(n);
    }
    NewStockRow(name, variant, categoryId, Number(price), Number(qty))
  }

  /** What `startEdit` puts into the edit form for a row. */
  function EditFormFor(item: StockItem): (f: EditForm)
    ensures f.variant == item.variant.GetOr("")
    ensures f.variant == "" <==> item.variant.None? || item.variant == Some("")
    ensures f.name == item.name && f.categoryId == item.categoryId
    ensures f.price == item.price && f.quantity == item.quantity
  {
    EditForm(item.name, item.variant.GetOr(""), item.categoryId, item.price, item.quantity)
  }

  /** The page's state: the rows, the add form's fields, the search term and
      the edit form. */
  class Page {
    var items: seq<StockItem>
    var categories: seq<Category>
    var name: string
    var variant: string
    var categoryId: string
    var price: string
    var qty: string
    var searchTerm: string
    var editingId: Option<Id>
    var editForm: EditForm
    var showAddForm: bool
    const ledger: Ledger

    constructor (ledger: Ledger)
      ensures this.ledger == ledger
      ensures items == [] && categories == []
      ensures name == "" && variant == "" && categoryId == "" && price == "" && qty == ""
      ensures searchTerm == "" && editingId == None && editForm == EditForm("", "", "", 0, 0)
      ensures !showAddForm
    {
      this.ledger := ledger;
      items, categories := [], [];
      name, variant, categoryId, price, qty := "", "", "", "", "";
      searchTerm, editingId, editForm := "", None, EditForm("", "", "", 0, 0);
      showAddForm := false;
    }

    /** `loadStock`: a missing result shows as an empty table. */
    method LoadStock(data: Option<seq<StockItem>>)
      modifies this`items
      ensures items == data.GetOr([])
    {
      items := data.GetOr([]);
    }

    /** `loadCategories`. */
    method LoadCategories(data: Option<seq<Category>>)
      modifies this`categories
      ensures categories == data.GetOr([])
    {
      categories := data.GetOr([]);
    }

    /** `addItem`: with a field missing nothing happens; otherwise the row is
        inserted, the five fields are cleared and the form is hidden. */
    method AddItem()
      modifies this`name, this`variant, this`categoryId, this`price, this`qty, this`showAddForm, ledger
      ensures !AddFormComplete(old(name), old(price), old(qty), old(categoryId)) ==>
        unchanged(this) && unchanged(ledger)
      ensures AddFormComplete(old(name), old(price), old(qty), old(categoryId)) ==>
        && ledger.log == old(ledger.log) + [InsertStock(NewRow(old(name), old(variant), old(categoryId), old(price), old(qty)))]
        && ledger.nextBillId == old(ledger.nextBillId)
        && name == "" && variant == "" && categoryId == "" && price == "" && qty == ""
        && !showAddForm
    {
      if name == "" || price == "" || qty == "" || categoryId == "" {
        return;
      }
      ledger.Issue(InsertStock(NewRow(name, variant, categoryId, price, qty)));
      name, variant, categoryId, price, qty := "", "", "", "", "";
      showAddForm := false;
    }

    /** `deleteItem`. */
    method DeleteItem(id: Id)
      modifies ledger
      ensures ledger.log == old(ledger.log) + [DeleteStock(id)]
      ensures ledger.nextBillId == old(ledger.nextBillId)
    {
      ledger.Issue(DeleteStock(id));
    }

    /** `startEdit`: the row becomes the one being edited and the form takes
        its values. */
    method StartEdit(item: StockItem)
      modifies this`editingId, this`editForm
      ensures editingId == Some(item.id)
      ensures editForm == EditFormFor(item)
    {
      editingId := Some(item.id);
      editForm := EditFormFor(item);
    }

    /** `cancelEdit`: no row is being edited; the form keeps its values. */
    method CancelEdit()
      modifies this`editingId
      ensures editingId == None
    {
      editingId := None;
    }

    /** `saveEdit`: the whole form is written to the row, then editing ends. */
    method SaveEdit(id: Id)
      modifies this`editingId, ledger
      ensures ledger.log == old(ledger.log) + [UpdateStock(id, editForm)]
      ensures ledger.nextBillId == old(ledger.nextBillId)
      ensures editingId == None
    {
      ledger.Issue(UpdateStock(id, editForm));
      CancelEdit();
    }
  }
}

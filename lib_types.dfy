/**
 * The invoice schema of lib/types.ts: an item has a non-empty description,
 * a quantity of at least 1 and a price of at least 0; a form has a non-empty
 * client name and invoice number, a valid date and at least one valid item.
 * Validation is a pure function returning the field issues, in the order the
 * schema lists its fields; a record is accepted exactly when there are none.
 */
module LibTypes {

  /**
   * A JavaScript `Date`: a calendar day (only the year, month and day are
   * modelled), or the Invalid Date that `new Date(...)` makes of a string it
   * cannot read.
   */
  datatype Date = Date(year: nat, month: nat, day: nat) | InvalidDate

  /** One line of the invoice. */
  datatype Item = Item(description: string, quantity: real, price: real)

  /** The record the renderer consumes. */
  datatype InvoiceForm = InvoiceForm(clientName: string, invoiceNumber: string, date: Date, items: seq<Item>)

  /** A step of the path to a field: an object key or an array index. */
  datatype PathKey = Key(name: string) | Index(i: nat)

  /** A failed constraint: where, and the schema's message for it. */
  datatype Issue = Issue(path: seq<PathKey>, message: string)

  const DescriptionRequired := "Description is required"
  const QuantityTooSmall := "Quantity must be at least 1"
  const PriceNegative := "Price must be positive"
  const ClientNameRequired := "Client name is required"
  const InvoiceNumberRequired := "Invoice number is required"
  /** zod's message for an Invalid Date given to `z.date()`. */
  const InvalidDateMessage := "Invalid date"
  const ItemsRequired := "At least one item is required"

  /** The item constraints, all together. */
  predicate ItemValid(item: Item) {
    |item.description| >= 1 && item.quantity >= 1.0 && item.price >= 0.0
  }

  /** The form constraints, all together; nothing else is demanded of any field. */
  predicate FormValid(f: InvoiceForm) {
    && |f.clientName| >= 1
    && |f.invoiceNumber| >= 1
    && f.date.Date?
    && |f.items| >= 1
    && forall k :: 0 <= k < |f.items| ==> ItemValid(f.items[k])
  }

  /** The issues an item raises, each at `path` followed by the field's key. */
  function ItemIssues(item: Item, path: seq<PathKey>): (r: seq<Issue>)
    ensures r == [] <==> ItemValid(item)
    ensures Issue(path + [Key("description")], DescriptionRequired) in r <==> |item.description| < 1
    ensures Issue(path + [Key("quantity")], QuantityTooSmall) in r <==> item.quantity < 1.0
    ensures Issue(path + [Key("price")], PriceNegative) in r <==> item.price < 0.0
  {
    (if |item.description| < 1 then [Issue(path + [Key("description")], DescriptionRequired)] else [])
    + (if item.quantity < 1.0 then [Issue(path + [Key("quantity")], QuantityTooSmall)] else [])
    + (if item.price < 0.0 then [Issue(path + [Key("price")], PriceNegative)] else [])
  }

  /** The issues of the items array elements, the first of them at index `start`. */
  function ElementIssues(items: seq<Item>, start: nat): (r: seq<Issue>)
    ensures r == [] <==> forall k :: 0 <= k < |items| ==> ItemValid(items[k])
    decreases |items|
  {
    if items == [] then []
    else ItemIssues(items[0], [Key("items"), Index(start)]) + ElementIssues(items[1..], start + 1)
  }

  /** The issues of a whole form, field by field in schema order. */
  function FormIssues(f: InvoiceForm): (r: seq<Issue>)
    ensures r == [] <==> FormValid(f)
    ensures Issue([Key("clientName")], ClientNameRequired) in r <==> |f.clientName| < 1
    ensures Issue([Key("invoiceNumber")], InvoiceNumberRequired) in r <==> |f.invoiceNumber| < 1
    ensures Issue([Key("date")], InvalidDateMessage) in r <==> f.date.InvalidDate?
    ensures Issue([Key("items")], ItemsRequired) in r <==> |f.items| < 1
  {
    var elements := ElementIssues(f.items, 0);
    ElementPathsLong(f.items, 0);
    assert Issue([Key("clientName")], ClientNameRequired) !in elements;
    assert Issue([Key("invoiceNumber")], InvoiceNumberRequired) !in elements;
    assert Issue([Key("date")], InvalidDateMessage) !in elements;
    assert Issue([Key("items")], ItemsRequired) !in elements;
    (if |f.clientName| < 1 then [Issue([Key("clientName")], ClientNameRequired)] else [])
    + (if |f.invoiceNumber| < 1 then [Issue([Key("invoiceNumber")], InvoiceNumberRequired)] else [])
    + (if f.date.InvalidDate? then [Issue([Key("date")], InvalidDateMessage)] else [])
    + (if |f.items| < 1 then [Issue([Key("items")], ItemsRequired)] else [])
    + elements
  }

  /** Every issue of an item sits at `path` followed by the key of one of its three fields. */
  lemma ItemIssuePaths(item: Item, path: seq<PathKey>)
    ensures forall e :: e in ItemIssues(item, path) ==>
              e.path == path + [e.path[|path|]] && e.path[|path|] in {Key("description"), Key("quantity"), Key("price")}
  {
  }

  /**
   * Every element issue sits at `items.<index>.<field>`, for the index of one of
   * the items and one of the item's fields, so it is never a form-level issue.
   */
  lemma {:induction false} ElementPathsLong(items: seq<Item>, start: nat)
    ensures forall e :: e in ElementIssues(items, start) ==>
              && |e.path| == 3
              && e.path[0] == Key("items")
              && e.path[1].Index? && start <= e.path[1].i < start + |items|
              && e.path[2] in {Key("description"), Key("quantity"), Key("price")}
    decreases |items|
  {
    if items != [] {
      ElementPathsLong(items[1..], start + 1);
      ItemIssuePaths(items[0], [Key("items"), Index(start)]);
    }
  }
}

/**
 * The form logic of components/invoice-generator.tsx: the default values,
 * the live-preview totals, the item list behind "Add Item" and the remove
 * buttons, the hint row of the preview table, and the submit handler's
 * `isGenerating` / `error` state. The React rendering around them is not
 * modelled.
 */
module InvoiceGenerator {
  import opened Wrappers
  import opened LibTypes
  import opened PdfPage
  import PdfGenerator

  // ---------------------------------------------------------------------------
  // Items as the form holds them.

  /**
   * An item as the inputs hold it: a number input may hold no usable number
   * (`undefined`, or `NaN` from `Number(...)`), which is `None` here.
   */
  datatype DraftItem = DraftItem(description: string, quantity: Option<real>, price: Option<real>)

  /** An item with both numbers filled in. */
  function Draft(item: Item): DraftItem {
    DraftItem(item.description, Some(item.quantity), Some(item.price))
  }

  /** The items as the inputs hold them, in order. */
  function Drafts(items: seq<Item>): (r: seq<DraftItem>)
    ensures |r| == |items|
    decreases |items|
  {
    if items == [] then [] else Drafts(items[..|items| - 1]) + [Draft(items[|items| - 1])]
  }

  /** `{ description: "", quantity: 1, price: 0 }`: the item of the defaults and of "Add Item". */
  const DefaultItem := Item("", 1.0, 0.0)

  // ---------------------------------------------------------------------------
  // Default values.

  /** The character of a decimal digit. */
  function DigitChar(d: nat): char
    requires d < 10
  {
    "0123456789"[d]
  }

  /** The decimal digits of `n`, most significant first, zero-padded on the left to at least `width`. */
  function Digits(n: nat, width: nat): (s: string)
    ensures |s| >= 1 && |s| >= width
    ensures forall k :: 0 <= k < |s| ==> '0' <= s[k] <= '9'
    decreases n + width
  {
    if n < 10 && width <= 1 then [DigitChar(n)]
    else Digits(n / 10, if width > 0 then width - 1 else 0) + [DigitChar(n % 10)]
  }

  /** The number a string of decimal digits denotes. */
  function DigitsValue(s: string): nat
    decreases |s|
  {
    if s == [] then 0
    else
      var last := s[|s| - 1];
      DigitsValue(s[..|s| - 1]) * 10 + (if '0' <= last <= '9' then (last as int - '0' as int) as nat else 0)
  }

  function Pow10(k: nat): nat {
    if k == 0 then 1 else 10 * Pow10(k - 1)
  }

  /** The digit a `DigitChar` stands for. */
  lemma DigitCharValue(d: nat)
    requires d < 10
    ensures '0' <= DigitChar(d) <= '9'
    ensures DigitChar(d) as int - '0' as int == d
  {
  }

  /** A number below `10 * p` has a quotient by ten below `p`. */
  lemma QuotientBelow(n: nat, p: nat)
    requires n < 10 * p
    ensures n / 10 < p
  {
  }

  /** One step of `Digits`, when more than one digit is written. */
  lemma DigitsUnfold(n: nat, width: nat)
    requires !(n < 10 && width <= 1)
    ensures Digits(n, width) == Digits(n / 10, if width > 0 then width - 1 else 0) + [DigitChar(n % 10)]
  {
  }

  /** `DigitsValue` of a string with one more character at the end. */
  lemma DigitsValueSnoc(s: string, c: char)
    requires '0' <= c <= '9'
    ensures DigitsValue(s + [c]) == DigitsValue(s) * 10 + (c as int - '0' as int)
  {
    assert (s + [c])[..|s|] == s;
  }

  /** Reading the digits back gives the number; below `10^width` exactly `width` digits are written (at least one). */
  lemma {:induction false} DigitsRoundTrip(n: nat, width: nat)
    ensures DigitsValue(Digits(n, width)) == n
    ensures 1 <= width && n < Pow10(width) ==> |Digits(n, width)| == width
    decreases n + width
  {
    if n < 10 && width <= 1 {
      DigitCharValue(n);
      DigitsValueSnoc([], DigitChar(n));
      assert [] + [DigitChar(n)] == Digits(n, width);
    } else {
      var w' := if width > 0 then width - 1 else 0;
      DigitsRoundTrip(n / 10, w');
      var d := n % 10;
      DigitsUnfold(n, width);
      DigitCharValue(d);
      DigitsValueSnoc(Digits(n / 10, w'), DigitChar(d));
      if 1 <= width && n < Pow10(width) {
        QuotientBelow(n, Pow10(w'));
      }
    }
  }

  /** `INV-${format(new Date(), "yyyyMMdd")}-001`: the year in four digits, month and day in two. */
  function DefaultInvoiceNumber(today: Date): string
    requires today.Date?
  {
    "INV-" + Digits(today.year, 4) + Digits(today.month, 2) + Digits(today.day, 2) + "-001"
  }

  /** The form's `defaultValues`, with today's date (`new Date()`, always a calendar day). */
  function DefaultValues(today: Date): InvoiceForm
    requires today.Date?
  {
    InvoiceForm("", DefaultInvoiceNumber(today), today, [DefaultItem])
  }

  /**
   * For a calendar date, the default invoice number is "INV-", eight digits
   * that read back as the year, month and day, and "-001".
   */
  lemma DefaultInvoiceNumberShape(today: Date)
    requires today.Date? && today.year < 10000 && 1 <= today.month <= 12 && 1 <= today.day <= 31
    ensures var s := DefaultInvoiceNumber(today);
            && |s| == 16
            && s[..4] == "INV-" && s[12..] == "-001"
            && DigitsValue(s[4..8]) == today.year
            && DigitsValue(s[8..10]) == today.month
            && DigitsValue(s[10..12]) == today.day
  {
    DigitsRoundTrip(today.year, 4);
    DigitsRoundTrip(today.month, 2);
    DigitsRoundTrip(today.day, 2);
    FieldsOfNumber("INV-", Digits(today.year, 4), Digits(today.month, 2), Digits(today.day, 2), "-001");
  }

  /** The fields of a string laid out as 4 + 4 + 2 + 2 characters and a tail. */
  lemma FieldsOfNumber(p: string, y: string, m: string, d: string, q: string)
    requires |p| == 4 && |y| == 4 && |m| == 2 && |d| == 2
    ensures var s := p + y + m + d + q;
            && |s| == 12 + |q|
            && s[..4] == p && s[4..8] == y && s[8..10] == m && s[10..12] == d && s[12..] == q
  {
  }

  /** The default invoice number's badge shows everything after "INV-": the date digits and "-001". */
  lemma DefaultBadge(today: Date)
    requires today.Date?
    ensures PdfGenerator.BadgeText(DefaultInvoiceNumber(today)) == DefaultInvoiceNumber(today)[4..]
  {
    var s := DefaultInvoiceNumber(today);
    assert s[..4] == "INV-";
  }

  /**
   * The defaults are not yet a valid form: submitting them untouched reports
   * exactly the empty client name and the empty description of the one item.
   */
  lemma DefaultsNeedClientAndDescription(today: Date)
    requires today.Date?
    ensures FormIssues(DefaultValues(today)) ==
              [Issue([Key("clientName")], ClientNameRequired),
               Issue([Key("items"), Index(0), Key("description")], DescriptionRequired)]
  {
    var f := DefaultValues(today);
    assert |f.invoiceNumber| >= 1;
    assert f.items[1..] == [];
    assert ElementIssues(f.items, 0) == ItemIssues(DefaultItem, [Key("items"), Index(0)]);
    assert [Key("items"), Index(0)] + [Key("description")] == [Key("items"), Index(0), Key("description")];
  }

  // ---------------------------------------------------------------------------
  // The date input.

  /** `yyyy-mm-dd`, with a month from 1 to 12 and a day from 1 to 31: what a filled-in date input holds. */
  predicate IsoDay(value: string) {
    && |value| == 10 && value[4] == '-' && value[7] == '-'
    && (forall k :: 0 <= k < 10 && k != 4 && k != 7 ==> '0' <= value[k] <= '9')
    && 1 <= DigitsValue(value[5..7]) <= 12 && 1 <= DigitsValue(value[8..]) <= 31
  }

  /**
   * `new Date(e.target.value)` of the date input: a filled-in input gives that
   * day; a cleared input holds "", which gives an Invalid Date.
   */
  function DateInput(value: string): (d: Date)
    ensures d.Date? <==> IsoDay(value)
  {
    if IsoDay(value) then Date(DigitsValue(value[..4]), DigitsValue(value[5..7]), DigitsValue(value[8..])) else InvalidDate
  }

  /** A day written as yyyy-mm-dd reads back as that day. */
  lemma DateInputRoundTrip(year: nat, month: nat, day: nat)
    requires year < 10000 && 1 <= month <= 12 && 1 <= day <= 31
    ensures DateInput(Digits(year, 4) + "-" + Digits(month, 2) + "-" + Digits(day, 2)) == Date(year, month, day)
  {
    DateFields(year, month, day);
    IsoLayout(Digits(year, 4), Digits(month, 2), Digits(day, 2));
  }

  /** The three fields of a day below the year 10000 are written in 4, 2 and 2 digits and read back. */
  lemma DateFields(year: nat, month: nat, day: nat)
    requires year < 10000 && month < 100 && day < 100
    ensures |Digits(year, 4)| == 4 && |Digits(month, 2)| == 2 && |Digits(day, 2)| == 2
    ensures DigitsValue(Digits(year, 4)) == year && DigitsValue(Digits(month, 2)) == month && DigitsValue(Digits(day, 2)) == day
  {
    PowersOfTen();
    DigitsRoundTrip(year, 4);
    DigitsRoundTrip(month, 2);
    DigitsRoundTrip(day, 2);
  }

  lemma PowersOfTen()
    ensures Pow10(2) == 100 && Pow10(4) == 10000
  {
    assert Pow10(1) == 10;
    assert Pow10(3) == 1000;
  }

  /** Four, two and two digits joined by dashes: the fields sit at 0-3, 5-6 and 8-9. */
  lemma IsoLayout(y: string, m: string, d: string)
    requires |y| == 4 && |m| == 2 && |d| == 2
    requires forall k :: 0 <= k < 4 ==> '0' <= y[k] <= '9'
    requires forall k :: 0 <= k < 2 ==> '0' <= m[k] <= '9' && '0' <= d[k] <= '9'
    ensures var s := y + "-" + m + "-" + d;
            && |s| == 10 && s[4] == '-' && s[7] == '-'
            && (forall k :: 0 <= k < 10 && k != 4 && k != 7 ==> '0' <= s[k] <= '9')
            && s[..4] == y && s[5..7] == m && s[8..] == d
  {
    var s := y + "-" + m + "-" + d;
    assert forall k :: 0 <= k < 4 ==> s[k] == y[k];
    assert forall k :: 5 <= k < 7 ==> s[k] == m[k - 5];
    assert forall k :: 8 <= k < 10 ==> s[k] == d[k - 8];
  }

  /** Clearing the date input gives a form that fails validation on its date, with zod's message. */
  lemma ClearedDateIsRejected(f: InvoiceForm)
    ensures DateInput("") == InvalidDate
    ensures Issue([Key("date")], InvalidDateMessage) in FormIssues(f.(date := DateInput("")))
    ensures !FormValid(f.(date := DateInput("")))
  {
  }

  // ---------------------------------------------------------------------------
  // Live-preview totals.

  /** `(item.quantity || 0) * (item.price || 0)`: a missing number counts as 0. */
  function LineTotal(d: DraftItem): (r: real)
    ensures d.quantity.None? || d.price.None? ==> r == 0.0
    ensures d.quantity.Some? && d.price.Some? ==> r == d.quantity.value * d.price.value
  {
    (if d.quantity.Some? then d.quantity.value else 0.0) * (if d.price.Some? then d.price.value else 0.0)
  }

  /** `items.reduce((sum, item) => sum + line total, 0)`, folded from the left. */
  function PreviewTotal(items: seq<DraftItem>): real
    decreases |items|
  {
    if items == [] then 0.0 else PreviewTotal(items[..|items| - 1]) + LineTotal(items[|items| - 1])
  }

  /** The three figures under the preview table. */
  datatype PreviewTotals = PreviewTotals(subtotal: real, tax: real, grandTotal: real)

  /** `subtotal = total`, `tax = total * 0.1`, `grandTotal = subtotal + tax`. */
  function Preview(items: seq<DraftItem>): PreviewTotals {
    var total := PreviewTotal(items);
    var tax := total * 0.1;
    PreviewTotals(total, tax, total + tax)
  }

  /** The preview total of two runs of items is the sum of their totals. */
  lemma {:induction false} PreviewTotalConcat(a: seq<DraftItem>, b: seq<DraftItem>)
    ensures PreviewTotal(a + b) == PreviewTotal(a) + PreviewTotal(b)
    decreases |b|
  {
    if b == [] {
      assert a + b == a;
    } else {
      var n := |b| - 1;
      assert (a + b)[..|a + b| - 1] == a + b[..n];
      assert (a + b)[|a + b| - 1] == b[n];
      PreviewTotalConcat(a, b[..n]);
    }
  }

  /** One more item adds its line total to the preview total. */
  lemma PreviewTotalSnoc(ds: seq<DraftItem>, d: DraftItem)
    ensures PreviewTotal(ds + [d]) == PreviewTotal(ds) + LineTotal(d)
  {
    assert (ds + [d])[..|ds|] == ds;
  }

  /** One step of `Drafts`, from the back. */
  lemma DraftsUnfold(items: seq<Item>)
    requires items != []
    ensures Drafts(items) == Drafts(items[..|items| - 1]) + [Draft(items[|items| - 1])]
  {
  }

  /** With every number filled in, the preview total is the subtotal the PDF draws. */
  lemma {:induction false} PreviewTotalIsSubtotal(items: seq<Item>)
    ensures PreviewTotal(Drafts(items)) == PdfGenerator.Subtotal(items)
    decreases |items|
  {
    if items != [] {
      var n := |items| - 1;
      PreviewTotalIsSubtotal(items[..n]);
      DraftsUnfold(items);
      PreviewTotalSnoc(Drafts(items[..n]), Draft(items[n]));
    }
  }

  /**
   * With every number filled in, the preview's three figures are the
   * subtotal, tax and total the PDF draws for the same items.
   */
  lemma PreviewAgreesWithPdf(items: seq<Item>)
    ensures Preview(Drafts(items)) ==
              PreviewTotals(PdfGenerator.Subtotal(items),
                            PdfGenerator.Subtotal(items) * PdfGenerator.TaxRate,
                            PdfGenerator.Subtotal(items) + PdfGenerator.Subtotal(items) * PdfGenerator.TaxRate)
  {
    PreviewTotalIsSubtotal(items);
  }

  // ---------------------------------------------------------------------------
  // The item list of `useFieldArray`.

  /** `append(item)`: the new item goes after all the others. */
  function Appended(items: seq<DraftItem>, item: DraftItem): (r: seq<DraftItem>)
    ensures |r| == |items| + 1 && r[..|items|] == items && r[|items|] == item
  {
    items + [item]
  }

  /** `remove(index)`: that one item goes, the others keep their order. */
  function Removed(items: seq<DraftItem>, index: nat): (r: seq<DraftItem>)
    requires index < |items|
    ensures |r| == |items| - 1
    ensures forall j :: 0 <= j < index ==> r[j] == items[j]
    ensures forall j :: index <= j < |r| ==> r[j] == items[j + 1]
  {
    items[..index] + items[index + 1..]
  }

  /** Removing loses the removed item and nothing else. */
  lemma RemovedMultiset(items: seq<DraftItem>, index: nat)
    requires index < |items|
    ensures multiset(Removed(items, index)) + multiset{items[index]} == multiset(items)
  {
    assert items == items[..index] + [items[index]] + items[index + 1..];
  }

  /** "Add Item" leaves the preview total unchanged: the new item is worth 1 × 0. */
  lemma AppendKeepsPreviewTotal(items: seq<DraftItem>)
    ensures PreviewTotal(Appended(items, Draft(DefaultItem))) == PreviewTotal(items)
  {
    PreviewTotalSnoc(items, Draft(DefaultItem));
  }

  /** A list with one item picked out, and the same list without it. */
  lemma RemovedParts(items: seq<DraftItem>, index: nat)
    requires index < |items|
    ensures items == items[..index] + [items[index]] + items[index + 1..]
    ensures Removed(items, index) == items[..index] + items[index + 1..]
  {
  }

  /** A sum of three parts less its middle part is the sum of the outer two. */
  lemma SumWithout(whole: real, rest: real, first: real, middle: real, last: real)
    requires whole == first + middle + last && rest == first + last
    ensures rest == whole - middle
  {
  }

  /** Removing an item takes exactly its line total off the preview total. */
  lemma RemoveSubtractsLineTotal(items: seq<DraftItem>, index: nat)
    requires index < |items|
    ensures PreviewTotal(Removed(items, index)) == PreviewTotal(items) - LineTotal(items[index])
  {
    var a, x, b := items[..index], items[index], items[index + 1..];
    RemovedParts(items, index);
    PreviewTotalConcat(a + [x], b);
    PreviewTotalSnoc(a, x);
    PreviewTotalConcat(a, b);
    SumWithout(PreviewTotal(items), PreviewTotal(Removed(items, index)), PreviewTotal(a), LineTotal(x), PreviewTotal(b));
  }

  /** The list behind the item cards. */
  class ItemList {
    var items: seq<DraftItem>

    /** The list always holds at least one item. */
    ghost predicate Valid()
      reads this
    {
      |items| >= 1
    }

    /** The defaults: one default item. */
    constructor ()
      ensures items == [Draft(DefaultItem)]
      ensures Valid()
    {
      items := [Draft(DefaultItem)];
    }

    /** `fields.length > 1`: whether the cards show a remove button. */
    predicate RemoveOffered()
      reads this
    {
      |items| > 1
    }

    /** "Add Item". */
    method Append()
      modifies this
      ensures items == Appended(old(items), Draft(DefaultItem))
      ensures Valid()
    {
      items := items + [Draft(DefaultItem)];
    }

    /**
     * The remove button of card `index`. It is only shown while there is more
     * than one item, so a click never empties the list.
     */
    method Remove(index: nat)
      requires RemoveOffered() && index < |items|
      modifies this
      ensures items == Removed(old(items), index)
      ensures Valid()
    {
      items := items[..index] + items[index + 1..];
    }
  }

  // ---------------------------------------------------------------------------
  // The hint row of the preview table.

  const NoItemsYet := "No items added yet"
  const AddMoreItems := "Add more items to your invoice"

  /** The extra row under the preview items, if any, for a list of `count` items. */
  function HintRow(count: nat): (r: Option<string>)
    ensures r.Some? <==> count < 3
    ensures r == Some(NoItemsYet) <==> count == 0
    ensures r == Some(AddMoreItems) <==> 1 <= count < 3
  {
    if count < 3 then Some(if count == 0 then NoItemsYet else AddMoreItems) else None
  }

  /** A click on the item cards: "Add Item", or the remove button of card `index`. */
  datatype Click = AddItem | RemoveItem(index: nat)

  /**
   * The item list after `clicks`, starting from the defaults. A remove button
   * exists only while more than one card is shown, so a remove click with no
   * button under it changes nothing.
   */
  function AfterClicks(clicks: seq<Click>): seq<DraftItem>
    decreases |clicks|
  {
    if clicks == [] then [Draft(DefaultItem)]
    else
      var before := AfterClicks(clicks[..|clicks| - 1]);
      match clicks[|clicks| - 1]
      case AddItem => Appended(before, Draft(DefaultItem))
      case RemoveItem(i) => if |before| > 1 && i < |before| then Removed(before, i) else before
  }

  /** Starting from the defaults, any clicks keep at least one item, so "No items added yet" never shows. */
  lemma {:induction false} NeverNoItems(clicks: seq<Click>)
    ensures |AfterClicks(clicks)| >= 1
    ensures HintRow(|AfterClicks(clicks)|) != Some(NoItemsYet)
    decreases |clicks|
  {
    if clicks != [] {
      NeverNoItems(clicks[..|clicks| - 1]);
    }
  }

  /**
   * Submitted values hold one item per card, so a form whose cards were left
   * by any clicks from the defaults never fails "at least one item".
   */
  lemma ClickedItemsMeetMinimum(clicks: seq<Click>, values: InvoiceForm)
    requires |values.items| == |AfterClicks(clicks)|
    ensures |values.items| >= 1
    ensures Issue([Key("items")], ItemsRequired) !in FormIssues(values)
  {
    NeverNoItems(clicks);
  }

  // ---------------------------------------------------------------------------
  // Submitting.

  /** The message the component shows when generation fails. */
  const SubmitError := "Failed to generate PDF. Please try again."

  /** The two pieces of component state, as seen at one moment. */
  datatype View = View(isGenerating: bool, error: Option<string>)

  /** The `isGenerating` and `error` state of the component. */
  class SubmitState {
    var isGenerating: bool
    var error: Option<string>

    /** `useState(false)` and `useState(null)`. */
    constructor ()
      ensures !isGenerating && error == None
    {
      isGenerating := false;
      error := None;
    }

    function Current(): View
      reads this
    {
      View(isGenerating, error)
    }

    /**
     * `onSubmit`. `during` is the state
     * while `generatePDF` runs: generating, with any earlier error cleared.
     * Afterwards generation is over; the error is the one message if
     * generation raised, and none if it succeeded.
     */
    method OnSubmit(data: InvoiceForm, env: PdfGenerator.Env, fault: Option<PdfGenerator.Stage>)
      returns (during: View, res: PdfGenerator.Generation, page: Page?)
      modifies this
      ensures during == View(true, None)
      ensures !isGenerating
      ensures res.Raised? <==> fault.Some? || data.date.InvalidDate?
      ensures res.Raised? ==> error == Some(SubmitError) && res.message == PdfGenerator.GenerationError && page == null
      ensures res.Generated? ==> res.returned
      ensures res.Generated? ==> error == None && res.filename == PdfGenerator.DownloadName(data.invoiceNumber)
      ensures res.Generated? ==> page != null
                                 && page.log == PdfGenerator.InvoiceLayout(env, PdfGenerator.A4Width, PdfGenerator.A4Height, data)
    {
      isGenerating := true;
      error := None;
      during := Current();
      res, page := PdfGenerator.GeneratePDF(data, env, fault);
      if res.Raised? {
        error := Some(SubmitError);
      }
      isGenerating := false;
    }

    /**
     * `form.handleSubmit(onSubmit)`: the values are validated first; if the
     * schema reports issues, `onSubmit` is not called and the state is left
     * as it was; otherwise `onSubmit` runs and its outcome and page are
     * handed on.
     */
    method HandleSubmit(values: InvoiceForm, env: PdfGenerator.Env, fault: Option<PdfGenerator.Stage>)
      returns (issues: seq<Issue>, res: Option<PdfGenerator.Generation>, page: Page?)
      modifies this
      ensures issues == FormIssues(values)
      ensures issues != [] ==> res == None && page == null && isGenerating == old(isGenerating) && error == old(error)
      ensures issues == [] ==> res.Some? && !isGenerating
      ensures issues == [] ==> (res.value.Raised? <==> fault.Some?)
      ensures issues == [] ==> error == (if fault.Some? then Some(SubmitError) else None)
      ensures issues == [] && res.value.Raised? ==> res.value.message == PdfGenerator.GenerationError && page == null
      ensures issues == [] && res.value.Generated? ==>
                && res.value.returned
                && res.value.filename == PdfGenerator.DownloadName(values.invoiceNumber)
                && page != null
                && page.log == PdfGenerator.InvoiceLayout(env, PdfGenerator.A4Width, PdfGenerator.A4Height, values)
    {
      issues := FormIssues(values);
      if issues != [] {
        res := None;
        page := null;
        return;
      }
      var _, r, p := OnSubmit(values, env, fault);
      res := Some(r);
      page := p;
    }
  }
}

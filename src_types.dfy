/**
 * The extended invoice schema of src/lib/types.ts. Its item schema is the one
 * of lib/types.ts, repeated field for field, so the item type and its
 * constraints are taken from LibTypes. The form adds a required `fromName`
 * and four optional fields; the two optional e-mail fields, when present,
 * must pass the schema library's e-mail check, which is the parameter `isEmail`.
 */
module SrcTypes {
  import opened Wrappers
  import LibTypes

  datatype InvoiceForm = InvoiceForm(
    clientName: string,
    clientAddress: Option<string>,
    clientEmail: Option<string>,
    fromName: string,
    fromAddress: Option<string>,
    fromEmail: Option<string>,
    invoiceNumber: string,
    date: LibTypes.Date,
    items: seq<LibTypes.Item>)

  const FromNameRequired := "Your name is required"
  const InvalidEmail := "Invalid email"

  /** An optional e-mail field: absent, or present and an e-mail address. */
  predicate EmailFieldValid(e: Option<string>, isEmail: string -> bool) {
    e.None? || isEmail(e.value)
  }

  /** The form constraints, all together. The address fields accept any string or nothing. */
  predicate FormValid(f: InvoiceForm, isEmail: string -> bool) {
    && |f.clientName| >= 1
    && EmailFieldValid(f.clientEmail, isEmail)
    && |f.fromName| >= 1
    && EmailFieldValid(f.fromEmail, isEmail)
    && |f.invoiceNumber| >= 1
    && !f.date.InvalidDate?
    && |f.items| >= 1
    && forall k :: 0 <= k < |f.items| ==> LibTypes.ItemValid(f.items[k])
  }

  /** The issue each top-level field raises, at that field's key. */
  const ClientNameIssue := LibTypes.Issue([LibTypes.Key("clientName")], LibTypes.ClientNameRequired)
  const ClientEmailIssue := LibTypes.Issue([LibTypes.Key("clientEmail")], InvalidEmail)
  const FromNameIssue := LibTypes.Issue([LibTypes.Key("fromName")], FromNameRequired)
  const FromEmailIssue := LibTypes.Issue([LibTypes.Key("fromEmail")], InvalidEmail)
  const InvoiceNumberIssue := LibTypes.Issue([LibTypes.Key("invoiceNumber")], LibTypes.InvoiceNumberRequired)
  const DateIssue := LibTypes.Issue([LibTypes.Key("date")], LibTypes.InvalidDateMessage)
  const ItemsIssue := LibTypes.Issue([LibTypes.Key("items")], LibTypes.ItemsRequired)

  /** The seven field issues sit at one-key paths, no two of them the same. */
  lemma FieldIssuesDistinct()
    ensures |ClientNameIssue.path| == |ClientEmailIssue.path| == |FromNameIssue.path| == |FromEmailIssue.path| == 1
    ensures |InvoiceNumberIssue.path| == |DateIssue.path| == |ItemsIssue.path| == 1
    ensures ClientNameIssue != ClientEmailIssue && FromNameIssue != FromEmailIssue
    ensures ClientNameIssue !in {FromNameIssue, FromEmailIssue, InvoiceNumberIssue, DateIssue, ItemsIssue}
    ensures ClientEmailIssue !in {FromNameIssue, FromEmailIssue, InvoiceNumberIssue, DateIssue, ItemsIssue}
    ensures FromNameIssue !in {InvoiceNumberIssue, DateIssue, ItemsIssue}
    ensures FromEmailIssue !in {InvoiceNumberIssue, DateIssue, ItemsIssue}
    ensures InvoiceNumberIssue != DateIssue && InvoiceNumberIssue != ItemsIssue && DateIssue != ItemsIssue
  {
    assert "clientName"[6] != "clientEmail"[6] && "fromName"[4] != "fromEmail"[4];
    assert "clientName"[0] != "fromName"[0] && "invoiceNumber"[1] != "items"[1];
  }

  /** The one issue `issue` when `raised`, no issue otherwise. */
  function Flag(raised: bool, issue: LibTypes.Issue): (r: seq<LibTypes.Issue>)
    ensures r == [] <==> !raised
    ensures issue in r <==> raised
    ensures forall x :: x in r ==> x == issue
  {
    if raised then [issue] else []
  }

  /** The client's issues, in schema order: its name, then its e-mail. */
  function ClientIssues(f: InvoiceForm, isEmail: string -> bool): (r: seq<LibTypes.Issue>)
    ensures r == [] <==> |f.clientName| >= 1 && EmailFieldValid(f.clientEmail, isEmail)
    ensures ClientNameIssue in r <==> |f.clientName| < 1
    ensures ClientEmailIssue in r <==> !EmailFieldValid(f.clientEmail, isEmail)
    ensures forall x :: x in r ==> x == ClientNameIssue || x == ClientEmailIssue
  {
    FieldIssuesDistinct();
    Flag(|f.clientName| < 1, ClientNameIssue) + Flag(!EmailFieldValid(f.clientEmail, isEmail), ClientEmailIssue)
  }

  /** The sender's issues, in schema order: its name, then its e-mail. */
  function SenderIssues(f: InvoiceForm, isEmail: string -> bool): (r: seq<LibTypes.Issue>)
    ensures r == [] <==> |f.fromName| >= 1 && EmailFieldValid(f.fromEmail, isEmail)
    ensures FromNameIssue in r <==> |f.fromName| < 1
    ensures FromEmailIssue in r <==> !EmailFieldValid(f.fromEmail, isEmail)
    ensures forall x :: x in r ==> x == FromNameIssue || x == FromEmailIssue
  {
    FieldIssuesDistinct();
    Flag(|f.fromName| < 1, FromNameIssue) + Flag(!EmailFieldValid(f.fromEmail, isEmail), FromEmailIssue)
  }

  /** The issues of the invoice number, the date and the length of the items, in schema order. */
  function InvoiceIssues(f: InvoiceForm): (r: seq<LibTypes.Issue>)
    ensures r == [] <==> |f.invoiceNumber| >= 1 && !f.date.InvalidDate? && |f.items| >= 1
    ensures InvoiceNumberIssue in r <==> |f.invoiceNumber| < 1
    ensures DateIssue in r <==> f.date.InvalidDate?
    ensures ItemsIssue in r <==> |f.items| < 1
    ensures forall x :: x in r ==> x == InvoiceNumberIssue || x == DateIssue || x == ItemsIssue
  {
    FieldIssuesDistinct();
    Flag(|f.invoiceNumber| < 1, InvoiceNumberIssue) + Flag(f.date.InvalidDate?, DateIssue) + Flag(|f.items| < 1, ItemsIssue)
  }

  /** The issues of a whole form, field by field in schema order. */
  function FormIssues(f: InvoiceForm, isEmail: string -> bool): (r: seq<LibTypes.Issue>)
    ensures r == [] <==> FormValid(f, isEmail)
  {
    ClientIssues(f, isEmail) + SenderIssues(f, isEmail) + InvoiceIssues(f) + LibTypes.ElementIssues(f.items, 0)
  }

  /** Each field's own issue is in the whole form's list exactly when that field is broken. */
  lemma FormIssuesByField(f: InvoiceForm, isEmail: string -> bool)
    ensures ClientNameIssue in FormIssues(f, isEmail) <==> |f.clientName| < 1
    ensures ClientEmailIssue in FormIssues(f, isEmail) <==> !EmailFieldValid(f.clientEmail, isEmail)
    ensures FromNameIssue in FormIssues(f, isEmail) <==> |f.fromName| < 1
    ensures FromEmailIssue in FormIssues(f, isEmail) <==> !EmailFieldValid(f.fromEmail, isEmail)
    ensures InvoiceNumberIssue in FormIssues(f, isEmail) <==> |f.invoiceNumber| < 1
    ensures DateIssue in FormIssues(f, isEmail) <==> f.date.InvalidDate?
    ensures ItemsIssue in FormIssues(f, isEmail) <==> |f.items| < 1
  {
    var client, sender, invoice, elements := ClientIssues(f, isEmail), SenderIssues(f, isEmail), InvoiceIssues(f), LibTypes.ElementIssues(f.items, 0);
    LibTypes.ElementPathsLong(f.items, 0);
    assert forall e :: e in elements ==> |e.path| == 3;
    InClientPart(ClientNameIssue, client, sender, invoice, elements);
    InClientPart(ClientEmailIssue, client, sender, invoice, elements);
    InSenderPart(FromNameIssue, client, sender, invoice, elements);
    InSenderPart(FromEmailIssue, client, sender, invoice, elements);
    InInvoicePart(InvoiceNumberIssue, client, sender, invoice, elements);
    InInvoicePart(DateIssue, client, sender, invoice, elements);
    InInvoicePart(ItemsIssue, client, sender, invoice, elements);
  }

  /** A client issue is in the whole list iff it is in the client part. */
  lemma InClientPart(x: LibTypes.Issue, client: seq<LibTypes.Issue>, sender: seq<LibTypes.Issue>, invoice: seq<LibTypes.Issue>, elements: seq<LibTypes.Issue>)
    requires x == ClientNameIssue || x == ClientEmailIssue
    requires forall y :: y in sender ==> y == FromNameIssue || y == FromEmailIssue
    requires forall y :: y in invoice ==> y == InvoiceNumberIssue || y == DateIssue || y == ItemsIssue
    requires forall e :: e in elements ==> |e.path| == 3
    ensures x in client + sender + invoice + elements <==> x in client
  {
    FieldIssuesDistinct();
  }

  /** A sender issue is in the whole list iff it is in the sender part. */
  lemma InSenderPart(x: LibTypes.Issue, client: seq<LibTypes.Issue>, sender: seq<LibTypes.Issue>, invoice: seq<LibTypes.Issue>, elements: seq<LibTypes.Issue>)
    requires x == FromNameIssue || x == FromEmailIssue
    requires forall y :: y in client ==> y == ClientNameIssue || y == ClientEmailIssue
    requires forall y :: y in invoice ==> y == InvoiceNumberIssue || y == DateIssue || y == ItemsIssue
    requires forall e :: e in elements ==> |e.path| == 3
    ensures x in client + sender + invoice + elements <==> x in sender
  {
    FieldIssuesDistinct();
  }

  /** An issue of the invoice number, the date or the items is in the whole list iff it is in that part. */
  lemma InInvoicePart(x: LibTypes.Issue, client: seq<LibTypes.Issue>, sender: seq<LibTypes.Issue>, invoice: seq<LibTypes.Issue>, elements: seq<LibTypes.Issue>)
    requires x == InvoiceNumberIssue || x == DateIssue || x == ItemsIssue
    requires forall y :: y in client ==> y == ClientNameIssue || y == ClientEmailIssue
    requires forall y :: y in sender ==> y == FromNameIssue || y == FromEmailIssue
    requires forall e :: e in elements ==> |e.path| == 3
    ensures x in client + sender + invoice + elements <==> x in invoice
  {
    FieldIssuesDistinct();
  }

  /** The form without its extra fields: the shape of lib/types.ts. */
  function Project(f: InvoiceForm): (g: LibTypes.InvoiceForm)
    ensures g.clientName == f.clientName && g.invoiceNumber == f.invoiceNumber
    ensures g.date == f.date && g.items == f.items
  {
    LibTypes.InvoiceForm(f.clientName, f.invoiceNumber, f.date, f.items)
  }

  /** The extended schema is stricter: whatever it accepts, lib/types.ts accepts once projected. */
  lemma ProjectionStaysValid(f: InvoiceForm, isEmail: string -> bool)
    requires FormIssues(f, isEmail) == []
    ensures LibTypes.FormIssues(Project(f)) == []
  {
  }

  /** The extended schema is stricter by exactly `fromName` and the e-mail checks. */
  lemma ValidIffProjectionValid(f: InvoiceForm, isEmail: string -> bool)
    ensures FormIssues(f, isEmail) == [] <==>
              && LibTypes.FormIssues(Project(f)) == []
              && |f.fromName| >= 1
              && EmailFieldValid(f.clientEmail, isEmail)
              && EmailFieldValid(f.fromEmail, isEmail)
  {
  }

  /** Leaving all four optional fields out never causes an issue. */
  lemma OptionalFieldsMayBeOmitted(f: InvoiceForm, isEmail: string -> bool)
    requires |f.clientName| >= 1 && |f.fromName| >= 1 && |f.invoiceNumber| >= 1 && !f.date.InvalidDate? && |f.items| >= 1
    requires forall k :: 0 <= k < |f.items| ==> LibTypes.ItemValid(f.items[k])
    ensures FormIssues(f.(clientAddress := None, clientEmail := None, fromAddress := None, fromEmail := None), isEmail) == []
  {
  }

  /** The address fields are never checked: any value, or none, leaves the verdict unchanged. */
  lemma AddressesUnconstrained(f: InvoiceForm, isEmail: string -> bool, clientAddress: Option<string>, fromAddress: Option<string>)
    ensures FormIssues(f.(clientAddress := clientAddress, fromAddress := fromAddress), isEmail) == FormIssues(f, isEmail)
  {
  }
}

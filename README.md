# Invoice generator: a Dafny model

This project models the core of a small invoice generator written in
TypeScript and React.

- **The form** is `components/invoice-generator.tsx`. It covers:
  - the default values, including the invoice number `INV-yyyyMMdd-001`;
  - the live-preview totals;
  - the item list behind "Add Item" and the per-item remove buttons;
  - the hint row under the preview table;
  - the submit handler, which keeps an `isGenerating` flag and an error message.
- **The schemas** are `lib/types.ts`, the one the form and the renderer use, and `src/lib/types.ts`, which adds party fields and e-mail checks.
- **The renderer** is `generatePDF` in `lib/pdf-generator.ts`. It draws one A4 page:
  - a header band and the invoice-number badge;
  - the sender and client blocks;
  - an item table with alternating row tints;
  - subtotal, 10 % tax and a total band;
  - a footer.

  It then names the download `invoice-<number>.pdf`. Every failure inside it is turned into one error message.

## Modules

- **Modules shared by the others.**
  - `Wrappers` (strings.dfy) holds the `Option` type.
  - `Strings` (strings.dfy) covers splitting on spaces, joining, finding a substring and replacing its first occurrence. These back the word wrap and the badge text's `replace`.
- **How the text is laid out.**
  - `TextLayout` (text_layout.dfy) covers alignment and `drawText`'s greedy word wrap. The wrap is a fold over the words, with its invariants.
  - `PdfPage` (pdf_page.dfy) is the page as a class with an append-only log of drawing commands. `OfKind` picks the commands of one kind out of the log.
- **The renderer and what is proved about it.**
  - `PdfGenerator` (pdf_generator.dfy) is the renderer. Each section of `generatePDF` is a method. Each method is proved to append exactly the commands of a specification function, and `InvoiceLayout` is the layout of the whole page. `GeneratePDF` adds the fault model and the file name.
  - `LayoutProperties` (layout_properties.dfy) proves properties of that layout:
    - where single-line and wrapped text lands, and how tall it is;
    - the shapes on the page, in order: rectangles, including one band per item row with the row's tint; circles; lines;
    - where the totals go, and that they are never negative for valid items;
    - what the badge shows.
- **The schemas.**
  - `LibTypes` (lib_types.dfy) is the `lib/types.ts` schema. It lists the issues in zod's order and path form.
  - `SrcTypes` (src_types.dfy) is the `src/lib/types.ts` schema, with the e-mail check as a parameter.
- **The form.** `InvoiceGenerator` (invoice_generator.dfy) holds:
  - the defaults, the preview totals, the item list and the hint row;
  - the submit state machine.

Coordinates:
- Layout positions are written top-down, as in `generatePDF`.
- The drawing helpers turn them into the page's bottom-up coordinates (`height - y`), as pdf-lib receives them.

Two details of the code that the model keeps:
- **The badge.** The badge shows the invoice number with its first `"INV-"` removed, with no padding and no default (lib/pdf-generator.ts:187).
- **The totals.** The code moves the table's y by 10 and then 20 and 30 before the total band, so the TOTAL text sits at 460 + 30·N from the top for N items (lib/pdf-generator.ts:342-378).

## Model

| member | source | states |
|---|---|---|
| PdfPage.Page.constructor | lib/pdf-generator.ts:17 | `addPage` gives a page of the requested size with nothing drawn on it |
| PdfPage.Page.DrawText | lib/pdf-generator.ts:110-116 | `page.drawText` appends exactly one text command with the given arguments |
| PdfPage.Page.DrawRectangle | lib/pdf-generator.ts:121-129 | `page.drawRectangle` appends exactly one rectangle command |
| PdfPage.Page.DrawLine | lib/pdf-generator.ts:131-138 | `page.drawLine` appends exactly one line command |
| PdfPage.Page.DrawCircle | lib/pdf-generator.ts:166-176 | `page.drawCircle` appends exactly one circle command |
| PdfPage.OfKindConcat | lib/pdf-generator.ts:7-410 | picking out the commands of one kind distributes over concatenating logs |
| PdfPage.OfKindNone | lib/pdf-generator.ts:7-410 | a run with no command of a kind contributes nothing of that kind |
| PdfPage.OfKindAll | lib/pdf-generator.ts:7-410 | a run made only of one kind is kept whole |
| TextLayout.AlignX | lib/pdf-generator.ts:106-111 | left keeps x; centre puts x at the middle of the text; right puts x at its end |
| TextLayout.WrapInvariant | lib/pdf-generator.ts:58-86 | every flushed line is non-empty, and every line holds either a single word or fits `maxWidth` |
| TextLayout.WrapKeepsWords | lib/pdf-generator.ts:58-91 | the wrap loses no word and reorders none: its lines joined by spaces are the words joined by spaces, and the last line is non-empty |
| TextLayout.WrapBound | lib/pdf-generator.ts:58-91 | every drawn line is non-empty, and it fits `maxWidth` or is a single word of the text |
| TextLayout.WrapKeepsText | lib/pdf-generator.ts:58-91 | the lines drawn are the flushed lines plus the last one, and joined they give back the text |
| TextLayout.OneWordOneLine | lib/pdf-generator.ts:58-91 | text without a space is drawn as one line, however wide it is |
| Strings.Split | lib/pdf-generator.ts:59 | `text.split(" ")` always yields at least one piece |
| Strings.SplitPiecesHaveNoSpaces | lib/pdf-generator.ts:59 | no piece of a split contains a space |
| Strings.JoinSplit | lib/pdf-generator.ts:59-65 | joining the pieces with spaces gives back the text |
| Strings.SplitJoin | lib/pdf-generator.ts:59-65 | splitting the join of space-free pieces gives back the pieces |
| Strings.SplitPrefix | lib/pdf-generator.ts:59 | a space-free prefix becomes part of the first piece, and the other pieces are unchanged |
| Strings.JoinSnoc | lib/pdf-generator.ts:64-65 | appending a word to a line puts exactly one space in front of it |
| Strings.IndexOf | lib/pdf-generator.ts:187 | a reported index is an occurrence of the pattern |
| Strings.IndexOfFirst | lib/pdf-generator.ts:187 | the reported index is the first occurrence, and no index is reported only when there is no occurrence |
| Strings.ReplaceFirst | lib/pdf-generator.ts:187 | `String.replace` with an empty pattern puts the replacement in front |
| Strings.ReplaceFirstAtIndex | lib/pdf-generator.ts:187 | `replace` cuts out exactly the first occurrence and puts the replacement there, and leaves the text alone when there is none |
| PdfGenerator.LineOffsetIsProduct | lib/pdf-generator.ts:82 | after k flushes the pen has moved down k line steps |
| PdfGenerator.LineRun | lib/pdf-generator.ts:58-103 | one text command per wrapped line |
| PdfGenerator.LineRunSnoc | lib/pdf-generator.ts:69-91 | drawing one more line appends that line, one step lower |
| PdfGenerator.LineRunAt | lib/pdf-generator.ts:58-103 | the j-th command is the j-th line, aligned and j steps below the first |
| PdfGenerator.FlushLine | lib/pdf-generator.ts:69-82 | the pen position after the flushes gives the next command's y |
| PdfGenerator.DrawText | lib/pdf-generator.ts:28-119 | `drawText` appends exactly the commands of `TextRun` and returns `TextHeight` (wrapped: flushes × size × lineHeight + size; single line: size) |
| PdfGenerator.DrawWrapped | lib/pdf-generator.ts:58-103 | the wrap branch appends one command per wrapped line and returns the height used |
| PdfGenerator.FillLines | lib/pdf-generator.ts:59-86 | the word loop computes the wrap state and flushes its lines at successive line steps |
| PdfGenerator.WrappedRun | lib/pdf-generator.ts:87-103 | the last line is drawn only when non-empty, and the height is `currentY - y + size` |
| PdfGenerator.PlaceWord | lib/pdf-generator.ts:62-85 | one pass of the word loop performs exactly one step of the wrap fold |
| PdfGenerator.RectAt | lib/pdf-generator.ts:121-129 | the rectangle has the given x, size and colour, and its top sits at the requested y from the top |
| PdfGenerator.DrawRect | lib/pdf-generator.ts:121-129 | `drawRect` draws that one rectangle |
| PdfGenerator.SegmentAt | lib/pdf-generator.ts:131-138 | the segment's ends sit at the requested distances from the top, with the given thickness and colour |
| PdfGenerator.DrawLine | lib/pdf-generator.ts:131-138 | `drawLine` draws that one segment |
| PdfGenerator.DrawHeader | lib/pdf-generator.ts:140-159 | the header band, accent bar, title and date, in order |
| PdfGenerator.DrawBadge | lib/pdf-generator.ts:161-193 | two concentric circles, then the badge text |
| PdfGenerator.DrawCompany | lib/pdf-generator.ts:195-224 | the sender block's five text runs |
| PdfGenerator.DrawClient | lib/pdf-generator.ts:226-257 | the client box and its three text runs |
| PdfGenerator.DrawTableHeader | lib/pdf-generator.ts:259-296 | the header bar and the four column titles |
| PdfGenerator.TableRowsStep | lib/pdf-generator.ts:299-333 | the loop's step on prefixes of the items |
| PdfGenerator.DrawRows | lib/pdf-generator.ts:299-333 | the row loop draws one row per item, in order, and leaves y one pitch per item lower |
| PdfGenerator.DrawRow | lib/pdf-generator.ts:303-330 | one row: the band tinted by the counter's parity, then description, quantity, price and amount |
| PdfGenerator.TotalsSections | lib/pdf-generator.ts:335-385 | the totals at the heights the running y reaches: +10, +20, +30 |
| PdfGenerator.DrawTotals | lib/pdf-generator.ts:335-385 | subtotal, tax at 10 %, the total band and the total, in order |
| PdfGenerator.FooterSections | lib/pdf-generator.ts:387-410 | the footer rule 20 above `height - 50`, then the three footer texts |
| PdfGenerator.DrawFooter | lib/pdf-generator.ts:387-410 | the footer rule, the thanks, the terms and the page number |
| PdfGenerator.TableSections | lib/pdf-generator.ts:259-385 | the table is its header, its rows from one pitch lower, and the totals below the last row |
| PdfGenerator.DrawParties | lib/pdf-generator.ts:140-257 | everything above the table, in drawing order |
| PdfGenerator.DrawTable | lib/pdf-generator.ts:259-385 | header, rows and totals |
| PdfGenerator.RenderInvoice | lib/pdf-generator.ts:140-410 | the page ends up holding exactly `InvoiceLayout`, in drawing order |
| PdfGenerator.DownloadName | lib/pdf-generator.ts:419 | the file name is `invoice-` + number + `.pdf`, and the number can be read back from between the affixes |
| PdfGenerator.GeneratePDF | lib/pdf-generator.ts:7-430 | succeeds iff no backend step raises and the date is not an Invalid Date, which `format` rejects (line 154); on success it returns true, names the file after the number and the A4 page holds the whole layout; on any fault the one generation error is raised and no page escapes |
| LayoutProperties.SingleLinePath | lib/pdf-generator.ts:104-117 | without `maxWidth`, one aligned command at `height - y`, and the height is the size |
| LayoutProperties.WrappedLinePlacement | lib/pdf-generator.ts:58-103 | with `maxWidth`, the j-th command is the j-th wrapped line, j × size × lineHeight below the first |
| LayoutProperties.WrapHeight | lib/pdf-generator.ts:82-103 | the wrapped height is flushes × size × lineHeight + size |
| LayoutProperties.DrawnLines | lib/pdf-generator.ts:58-91 | text with no empty words is drawn as flushes + 1 lines |
| LayoutProperties.TextRunIsText | lib/pdf-generator.ts:28-119 | `drawText` draws text and nothing else |
| LayoutProperties.HeaderShapes | lib/pdf-generator.ts:140-159 | the header's only shapes are its band and its accent bar |
| LayoutProperties.BadgeShapes | lib/pdf-generator.ts:161-193 | the badge's only shapes are its two circles, of sizes 2r and 2(r − 3), the values the code passes |
| LayoutProperties.CompanyShapes | lib/pdf-generator.ts:195-224 | the sender block draws no shape |
| LayoutProperties.ClientShapes | lib/pdf-generator.ts:226-257 | the client block's only shape is its box |
| LayoutProperties.TableHeaderShapes | lib/pdf-generator.ts:259-296 | the table header's only shape is its bar |
| LayoutProperties.RowShapes | lib/pdf-generator.ts:303-330 | a row's only shape is its band |
| LayoutProperties.TotalsShapes | lib/pdf-generator.ts:335-385 | the totals' only shape is the total band |
| LayoutProperties.FooterShapes | lib/pdf-generator.ts:387-410 | the footer's only shape is its rule, 70 above the foot of the page |
| LayoutProperties.RowBands | lib/pdf-generator.ts:299-333 | N bands for N items; band i has the tint of counter i |
| LayoutProperties.TableRowBands | lib/pdf-generator.ts:299-333 | the rectangles of the rows are exactly one band per item, in input order, light grey on even counters |
| LayoutProperties.RowsHaveNoOtherShapes | lib/pdf-generator.ts:299-333 | the rows draw no circle and no line |
| LayoutProperties.RowTexts | lib/pdf-generator.ts:310-330 | a row's text is its description, quantity, price and amount (quantity × price), drawn 20 below its top |
| LayoutProperties.SubtotalConcat | lib/pdf-generator.ts:336 | the subtotal of two runs of items is the sum of theirs |
| LayoutProperties.SubtotalFirst | lib/pdf-generator.ts:336 | the left fold equals the first amount plus the rest |
| LayoutProperties.ValidTotalsNonNegative | lib/pdf-generator.ts:336-339 | for valid items, subtotal and tax are non-negative and the total is at least the subtotal |
| LayoutProperties.TotalsPlacement | lib/pdf-generator.ts:335-385 | for N items the totals are drawn at 400, 420 and 460 plus 30·N from the top, with their exact texts, styles and positions |
| LayoutProperties.PartiesRectangles | lib/pdf-generator.ts:140-257 | above the table there are three rectangles: the band, the accent bar and the client box |
| LayoutProperties.PartiesCircles | lib/pdf-generator.ts:161-176 | above the table there are exactly the badge's two circles |
| LayoutProperties.PartiesLines | lib/pdf-generator.ts:140-257 | above the table there is no line |
| LayoutProperties.TableRectangles | lib/pdf-generator.ts:259-385 | the table's rectangles are the header bar, one band per item, then the total band |
| LayoutProperties.TableHasNoOtherShapes | lib/pdf-generator.ts:259-385 | the table draws no circle and no line |
| LayoutProperties.FooterHasNoOtherShapes | lib/pdf-generator.ts:387-410 | the footer draws no rectangle and no circle |
| LayoutProperties.FooterLines | lib/pdf-generator.ts:387-389 | the footer's only line is its rule |
| LayoutProperties.PageRectangles | lib/pdf-generator.ts:7-410 | the page's rectangles, in order: band, accent bar, client box, table header, one band per item, total band |
| LayoutProperties.BoxesAt | lib/pdf-generator.ts:227-371 | the client box, table header and total band in absolute numbers (the total band at 440 + 30·N) |
| LayoutProperties.PageCircles | lib/pdf-generator.ts:7-410 | the page's only circles are the badge's two, whatever the items |
| LayoutProperties.BadgeCirclesAt | lib/pdf-generator.ts:162-176 | the badge circles sit at (80, 180 from the top), with sizes 80 and 74 |
| LayoutProperties.TableCircles | lib/pdf-generator.ts:259-385 | the table draws no circle |
| LayoutProperties.TableLines | lib/pdf-generator.ts:259-385 | the table draws no line |
| LayoutProperties.FooterCircles | lib/pdf-generator.ts:387-410 | the footer draws no circle |
| LayoutProperties.FooterRectangles | lib/pdf-generator.ts:387-410 | the footer draws no rectangle |
| LayoutProperties.PageLines | lib/pdf-generator.ts:7-410 | the page's only line is the footer rule |
| LayoutProperties.FooterRuleAt | lib/pdf-generator.ts:387-389 | the footer rule runs from x = 50 to width − 50, 70 above the foot of the page |
| LayoutProperties.BadgeRemovesFirstPrefix | lib/pdf-generator.ts:187 | the badge text is the number with its first `INV-` cut out, or the number unchanged when it has none |
| LayoutProperties.BadgeOfPrefixed | lib/pdf-generator.ts:187 | a number that starts with `INV-` shows the rest on the badge |
| LibTypes.ItemIssues | lib/types.ts:3-7 | no issue iff the item is valid; each issue is reported iff its rule is broken (description ≥ 1 character, quantity ≥ 1, price ≥ 0) |
| LibTypes.ElementIssues | lib/types.ts:13 | no issue iff every item is valid |
| LibTypes.FormIssues | lib/types.ts:9-14 | no issue iff the form is valid; client name, invoice number, an Invalid Date and "at least one item" are each reported iff broken |
| LibTypes.ElementPathsLong | lib/types.ts:13 | each item's issues sit at `items.<index>.<field>`, with the index of one of the items and one of the item's three fields |
| SrcTypes.FormIssues | src/lib/types.ts:9-19 | no issue iff the extended form is valid |
| SrcTypes.ClientIssues | src/lib/types.ts:10-12 | the client's name and e-mail issues, each present iff that field is broken, and nothing else |
| SrcTypes.SenderIssues | src/lib/types.ts:13-15 | the sender's name and e-mail issues, each present iff that field is broken, and nothing else |
| SrcTypes.InvoiceIssues | src/lib/types.ts:16-18 | the invoice number, Invalid Date and "at least one item" issues, each present iff broken, and nothing else |
| SrcTypes.FormIssuesByField | src/lib/types.ts:9-19 | over the whole form, the client's name, the client's e-mail, the sender's name, the sender's e-mail, the invoice number, an Invalid Date and "at least one item" are each reported iff broken |
| SrcTypes.Project | src/lib/types.ts:9-19 | dropping the party fields keeps the client name, number, date and items |
| SrcTypes.ProjectionStaysValid | src/lib/types.ts:9-19 | a valid extended form is valid under the `lib/types.ts` schema |
| SrcTypes.ValidIffProjectionValid | src/lib/types.ts:9-19 | the extended form is valid iff its projection is valid, the sender's name is non-empty and both e-mails pass |
| SrcTypes.OptionalFieldsMayBeOmitted | src/lib/types.ts:11-15 | addresses and e-mails may all be left out |
| SrcTypes.AddressesUnconstrained | src/lib/types.ts:11-14 | the addresses never cause an issue |
| InvoiceGenerator.Digits | components/invoice-generator.tsx:58 | at least one digit, at least `width` of them, all decimal |
| InvoiceGenerator.DigitsRoundTrip | components/invoice-generator.tsx:58 | reading the digits back gives the number, and below 10^width exactly `width` digits are written |
| InvoiceGenerator.DefaultInvoiceNumberShape | components/invoice-generator.tsx:58 | the default number has 16 characters and is `INV-`, then the year, month and day, then `-001` |
| InvoiceGenerator.DefaultBadge | components/invoice-generator.tsx:58 | the badge of the default number is the number without its `INV-` |
| InvoiceGenerator.DefaultsNeedClientAndDescription | components/invoice-generator.tsx:53-61 | the defaults fail validation on exactly two fields: the client name and the first item's description |
| InvoiceGenerator.DateInputRoundTrip | components/invoice-generator.tsx:157-158 | the input's `yyyy-MM-dd` value of a day, read back by `new Date(value)`, is that same day |
| InvoiceGenerator.ClearedDateIsRejected | components/invoice-generator.tsx:158 | a cleared date input gives an Invalid Date, and the form then fails validation with zod's date issue at `date` |
| InvoiceGenerator.LineTotal | components/invoice-generator.tsx:81-84 | a missing number counts as 0; otherwise quantity × price |
| InvoiceGenerator.PreviewTotalConcat | components/invoice-generator.tsx:81-84 | the preview total of two runs is the sum of theirs |
| InvoiceGenerator.PreviewTotalSnoc | components/invoice-generator.tsx:81-84 | one more item adds its line total |
| InvoiceGenerator.PreviewTotalIsSubtotal | components/invoice-generator.tsx:81-84 | with every number filled in, the preview total is the PDF's subtotal |
| InvoiceGenerator.PreviewAgreesWithPdf | components/invoice-generator.tsx:81-88 | the preview's subtotal, tax and total equal the PDF's for the same items |
| InvoiceGenerator.Appended | components/invoice-generator.tsx:204 | `append` keeps every item and adds the new one last |
| InvoiceGenerator.Removed | components/invoice-generator.tsx:231 | `remove(index)` drops that item and shifts the later ones down by one |
| InvoiceGenerator.RemovedMultiset | components/invoice-generator.tsx:231 | removing loses exactly the removed item |
| InvoiceGenerator.AppendKeepsPreviewTotal | components/invoice-generator.tsx:204 | "Add Item" leaves the preview total unchanged |
| InvoiceGenerator.RemoveSubtractsLineTotal | components/invoice-generator.tsx:231 | removing an item takes exactly its line total off the preview total |
| InvoiceGenerator.ItemList.constructor | components/invoice-generator.tsx:60 | the list starts with the one default item, so it holds at least one item (`Valid`) |
| InvoiceGenerator.ItemList.Append | components/invoice-generator.tsx:204 | the list becomes `Appended(old, default item)` and holds at least one item |
| InvoiceGenerator.ItemList.Remove | components/invoice-generator.tsx:223-231 | callable only while the button is shown (more than one item); the list becomes `Removed(old, index)` and still holds at least one item |
| InvoiceGenerator.HintRow | components/invoice-generator.tsx:403-410 | a hint iff fewer than 3 items; "No items added yet" iff none; "Add more items" iff 1 or 2 |
| InvoiceGenerator.NeverNoItems | components/invoice-generator.tsx:204-231 | after any clicks on "Add Item" and the shown remove buttons, starting from the defaults, the list holds at least one item and the "No items added yet" hint never shows |
| InvoiceGenerator.ClickedItemsMeetMinimum | components/invoice-generator.tsx:204-231 | values holding one item per card left by any clicks from the defaults have at least one item, so the schema never reports "At least one item is required" |
| InvoiceGenerator.SubmitState.constructor | components/invoice-generator.tsx:50-51 | not generating, no error |
| InvoiceGenerator.SubmitState.OnSubmit | components/invoice-generator.tsx:69-79 | while running it is generating with the error cleared; afterwards it is not generating; the error is set iff generation raised, that is iff a backend step raised or the date is an Invalid Date; on success the page holds the layout and the file is named after the number |
| InvoiceGenerator.SubmitState.HandleSubmit | components/invoice-generator.tsx:119 | invalid values leave the state alone, report the schema's issues and produce no page; valid values run `onSubmit` and hand on its outcome: on success the download named after the number and a page holding the invoice layout, on failure the one generation error, the error flag and no page |

## Left out

- The pdf-lib backend (document objects, font embedding, serialisation to bytes) is left out. The page is a log of drawing commands, and each backend step that can raise is named by a `Stage`.
- Font metrics (`widthOfTextAtSize`) are an `Env` field. So are `toFixed`, `toString` and the date-fns long date format, because their bodies are outside this code.
- Colours are tags: `rgb(...)` values are carried on commands and never rendered.
- The browser download is reduced to the file name: the `Blob`, the object URL and the link click are left out.
- `async`/`await` is not modelled. The awaited steps run in order, and a failing step is chosen by a parameter.
- React rendering is not modelled: components, `useState` re-rendering, form watching, tooltips and styling. The state of the form is modelled as data and classes.
- The `console.error` calls are left out, because they are logging only.
- `app/api/save-invoice/route.ts` (file saving on the server) is not part of this model.
- In `src/lib/types.ts`, the e-mail format check of zod is a parameter `isEmail`, because its definition lives in the zod library.
- Numbers are real numbers. JavaScript's floating-point rounding and `NaN` are not modelled, except that a number input holding no usable number is `None` in the form.
- PdfPage.Page.DrawCircle: pdf-lib's `size` argument is recorded as given (the value the code computes). Whether pdf-lib reads it as a radius or a diameter is not modelled.
- InvoiceGenerator.DefaultInvoiceNumberShape: proved for years below 10000 and valid month and day values only, the range in which `yyyy`, `MM` and `dd` are fixed width.
- InvoiceGenerator.DateInput: a filled-in input is read as the calendar day it names. JavaScript takes `yyyy-mm-dd` as midnight UTC, so in a time zone west of UTC `format` shows the day before; time zones are not modelled. Strings a date input does not produce (other than "" and a `yyyy-mm-dd` day) are taken as an Invalid Date. The `Date` type does not enforce month lengths: `IsoDay` accepts days 1 to 31 in every month, so a string such as `2024-02-31`, which a date input never produces, is read as `Date(2024, 2, 31)`.
- Formatting an Invalid Date in the preview (`format(form.watch("date"), …)`, components/invoice-generator.tsx:346 and 373) raises during rendering; rendering is not modelled.

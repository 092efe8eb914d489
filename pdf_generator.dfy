/**
 * `generatePDF` of lib/pdf-generator.ts: the invoice template drawn onto one
 * A4 page. Layout positions are written top-down, as in the source; the
 * helpers turn them into the page's bottom-up coordinates. Every part of the
 * template is a method that appends to the page's log and is proved to
 * append exactly the commands of a specification function of the same part.
 */
module PdfGenerator {
  import opened Wrappers
  import opened Strings
  import opened PdfPage
  import opened TextLayout
  import opened LibTypes

  /**
   * The services the renderer calls but does not define: font metrics,
   * `Number.prototype.toFixed(digits)`, `Number.prototype.toString()` and the
   * long date format ("MMMM dd, yyyy"). The date format raises on an Invalid
   * Date; `GeneratePDF` deals with that case, so the value `longDate` gives
   * for it is never drawn.
   */
  datatype Env = Env(
    width: Metrics,
    toFixed: (real, nat) -> string,
    numberText: real -> string,
    longDate: Date -> string)
  {
    /** `format(date, "MMMM dd, yyyy")`. */
    function FormatDate(d: Date): string {
      longDate(d)
    }

    /** `n.toString()`. */
    function NumberString(n: real): string {
      numberText(n)
    }
  }

  const A4Width: real := 595.28
  const A4Height: real := 841.89

  const Primary := Rgb(0.2, 0.4, 0.6)
  const Accent := Rgb(0.8, 0.3, 0.3)
  const LightGray := Rgb(0.95, 0.95, 0.95)
  const DarkGray := Rgb(0.3, 0.3, 0.3)
  const MediumGray := Rgb(0.6, 0.6, 0.6)
  const White := Rgb(1.0, 1.0, 1.0)

  /** The options of `drawText`; a `maxWidth` above 0 turns on word wrap. */
  datatype TextOptions = TextOptions(size: real, font: string, color: Color, align: Align, lineHeight: real, maxWidth: real)

  /** The defaults of the options object. */
  const DefaultStyle := TextOptions(10.0, "helvetica", DarkGray, Left, 1.2, 0.0)

  /** The font switch: an unknown name falls back to Helvetica. */
  function FontFor(name: string): FontFace {
    if name == "helvetica-bold" then HelveticaBold
    else if name == "times" then TimesRoman
    else if name == "times-bold" then TimesRomanBold
    else if name == "times-italic" then TimesRomanItalic
    else Helvetica
  }

  function PenFor(env: Env, o: TextOptions): Pen {
    Pen(env.width, FontFor(o.font), o.size)
  }

  /** How far below the first line the `k`-th line sits: `k` line steps. */
  function LineOffset(k: nat, step: real): real {
    if k == 0 then 0.0 else LineOffset(k - 1, step) + step
  }

  lemma {:induction false} LineOffsetIsProduct(k: nat, step: real)
    ensures LineOffset(k, step) == k as real * step
  {
    if k > 0 {
      LineOffsetIsProduct(k - 1, step);
    }
  }

  /** The line step of a text style: `size * lineHeight`. */
  function LineStep(o: TextOptions): real {
    o.size * o.lineHeight
  }

  /** The `j`-th wrapped line: aligned by its own width, `j` line steps below `y`. */
  function LineAt(pen: Pen, pageHeight: real, l: string, j: nat, x: real, y: real, o: TextOptions): DrawCommand {
    Text(l, AlignX(o.align, x, pen.WidthOf(l)), pageHeight - (y + LineOffset(j, LineStep(o))), o.size, pen.face, o.color)
  }

  /** The wrapped lines drawn one under the other, the first at `y`. */
  function LineRun(pen: Pen, pageHeight: real, lines: seq<string>, x: real, y: real, o: TextOptions): (r: seq<DrawCommand>)
    ensures |r| == |lines|
    decreases |lines|
  {
    if lines == [] then []
    else
      var n := |lines| - 1;
      LineRun(pen, pageHeight, lines[..n], x, y, o) + [LineAt(pen, pageHeight, lines[n], n, x, y, o)]
  }

  lemma LineRunSnoc(pen: Pen, pageHeight: real, lines: seq<string>, l: string, x: real, y: real, o: TextOptions)
    ensures LineRun(pen, pageHeight, lines + [l], x, y, o)
            == LineRun(pen, pageHeight, lines, x, y, o) + [LineAt(pen, pageHeight, l, |lines|, x, y, o)]
  {
    assert (lines + [l])[..|lines|] == lines;
  }

  /** The `j`-th command of a run draws the `j`-th line, `j` line heights down. */
  lemma {:induction false} LineRunAt(pen: Pen, pageHeight: real, lines: seq<string>, x: real, y: real, o: TextOptions, j: nat)
    requires j < |lines|
    ensures LineRun(pen, pageHeight, lines, x, y, o)[j] == LineAt(pen, pageHeight, lines[j], j, x, y, o)
    decreases |lines|
  {
    var n := |lines| - 1;
    if j < n {
      LineRunAt(pen, pageHeight, lines[..n], x, y, o, j);
    }
  }

  /** Drawing the next line where the loop's pen stands extends the run by that line. */
  lemma FlushLine(pen: Pen, pageHeight: real, lines: seq<string>, l: string, x: real, y: real, o: TextOptions, xPos: real, currentY: real)
    requires xPos == AlignX(o.align, x, pen.WidthOf(l))
    requires currentY == y + LineOffset(|lines|, LineStep(o))
    ensures LineRun(pen, pageHeight, lines + [l], x, y, o)
            == LineRun(pen, pageHeight, lines, x, y, o) + [Text(l, xPos, pageHeight - currentY, o.size, pen.face, o.color)]
  {
    LineRunSnoc(pen, pageHeight, lines, l, x, y, o);
  }

  /** The commands one `drawText` call issues. */
  function TextRun(env: Env, pageHeight: real, text: string, x: real, y: real, o: TextOptions): seq<DrawCommand> {
    var pen := PenFor(env, o);
    if o.maxWidth > 0.0 then LineRun(pen, pageHeight, WrapLines(pen, o.maxWidth, text), x, y, o)
    else [Text(text, AlignX(o.align, x, pen.WidthOf(text)), pageHeight - y, o.size, pen.face, o.color)]
  }

  /** The height one `drawText` call reports: one line height per flush, plus the size. */
  function TextHeight(env: Env, text: string, o: TextOptions): real {
    var pen := PenFor(env, o);
    if o.maxWidth > 0.0 then LineOffset(|Wrap(pen, o.maxWidth, Split(text)).flushed|, LineStep(o)) + o.size
    else o.size
  }

  /** `drawText`: the wrap loop, or one aligned line; returns the height used. */
  method DrawText(page: Page, env: Env, text: string, x: real, y: real, o: TextOptions) returns (used: real)
    modifies page
    ensures page.log == old(page.log) + TextRun(env, page.height, text, x, y, o)
    ensures used == TextHeight(env, text, o)
  {
    if o.maxWidth > 0.0 {
      used := DrawWrapped(page, env, text, x, y, o);
    } else {
      var pen := PenFor(env, o);
      var xPos := AlignX(o.align, x, pen.WidthOf(text));
      page.DrawText(text, xPos, page.height - y, o.size, pen.face, o.color);
      used := o.size;
    }
  }

  /** The wrapping branch of `drawText`: fills lines word by word and draws each as it is flushed. */
  method DrawWrapped(page: Page, env: Env, text: string, x: real, y: real, o: TextOptions) returns (used: real)
    requires o.maxWidth > 0.0
    modifies page
    ensures page.log == old(page.log) + TextRun(env, page.height, text, x, y, o)
    ensures used == TextHeight(env, text, o)
  {
    ghost var log0 := page.log;
    var line, currentY, flushed := FillLines(page, env, text, x, y, o);
    WrappedRun(env, page.height, text, x, y, o, flushed, line);
    if line != "" {
      var pen := PenFor(env, o);
      var xPos := AlignX(o.align, x, pen.WidthOf(line));
      FlushLine(pen, page.height, flushed, line, x, y, o, xPos, currentY);
      AppendAssoc(log0, LineRun(pen, page.height, flushed, x, y, o), [Text(line, xPos, page.height - currentY, o.size, pen.face, o.color)]);
      page.DrawText(line, xPos, page.height - currentY, o.size, pen.face, o.color);
    } else {
      assert flushed + [] == flushed;
    }
    used := currentY - y + o.size;
  }

  /**
   * The word loop of `drawText`: every line it flushes is drawn at once, one
   * step below the previous; the line still being filled is returned with the
   * y it will be drawn at.
   */
  method FillLines(page: Page, env: Env, text: string, x: real, y: real, o: TextOptions)
    returns (line: string, currentY: real, ghost flushed: seq<string>)
    modifies page
    ensures Wrap(PenFor(env, o), o.maxWidth, Split(text)) == WrapState(flushed, line)
    ensures currentY == y + LineOffset(|flushed|, LineStep(o))
    ensures page.log == old(page.log) + LineRun(PenFor(env, o), page.height, flushed, x, y, o)
  {
    ghost var pen := PenFor(env, o);
    ghost var log0 := page.log;
    var words := Split(text);
    line := "";
    currentY := y;
    flushed := [];
    for i := 0 to |words|
      invariant Wrap(pen, o.maxWidth, words[..i]) == WrapState(flushed, line)
      invariant currentY == y + LineOffset(|flushed|, LineStep(o))
      invariant page.log == log0 + LineRun(pen, page.height, flushed, x, y, o)
    {
      assert words[..i + 1][..i] == words[..i];
      line, currentY, flushed := PlaceWord(page, env, x, y, o, line, words[i], currentY, log0, flushed);
    }
    assert words[..|words|] == words;
  }

  /** The wrapped run and its height, from the final state of the word loop. */
  lemma WrappedRun(env: Env, pageHeight: real, text: string, x: real, y: real, o: TextOptions,
                   flushed: seq<string>, line: string)
    requires o.maxWidth > 0.0
    requires Wrap(PenFor(env, o), o.maxWidth, Split(text)) == WrapState(flushed, line)
    ensures TextRun(env, pageHeight, text, x, y, o)
            == LineRun(PenFor(env, o), pageHeight, flushed + (if line != "" then [line] else []), x, y, o)
    ensures TextHeight(env, text, o) == LineOffset(|flushed|, LineStep(o)) + o.size
  {
  }

  /**
   * One pass of the word loop: if the line with `word` appended is too wide
   * and the line is not empty, the line is drawn at `currentY` and `word`
   * starts the next line one step lower; otherwise `word` joins the line.
   */
  method PlaceWord(page: Page, env: Env, x: real, y: real, o: TextOptions, line: string, word: string, currentY: real,
                   ghost log0: seq<DrawCommand>, ghost flushed: seq<string>)
    returns (line': string, currentY': real, ghost flushed': seq<string>)
    requires currentY == y + LineOffset(|flushed|, LineStep(o))
    requires page.log == log0 + LineRun(PenFor(env, o), page.height, flushed, x, y, o)
    modifies page
    ensures Step(PenFor(env, o), o.maxWidth, WrapState(flushed, line), word) == WrapState(flushed', line')
    ensures currentY' == y + LineOffset(|flushed'|, LineStep(o))
    ensures page.log == log0 + LineRun(PenFor(env, o), page.height, flushed', x, y, o)
  {
    var pen := PenFor(env, o);
    var testLine := line + (if line != "" then " " else "") + word;
    var testWidth := pen.WidthOf(testLine);
    if testWidth > o.maxWidth && line != "" {
      var xPos := AlignX(o.align, x, pen.WidthOf(line));
      FlushLine(pen, page.height, flushed, line, x, y, o, xPos, currentY);
      AppendAssoc(log0, LineRun(pen, page.height, flushed, x, y, o), [Text(line, xPos, page.height - currentY, o.size, pen.face, o.color)]);
      page.DrawText(line, xPos, page.height - currentY, o.size, pen.face, o.color);
      flushed' := flushed + [line];
      line' := word;
      currentY' := currentY + o.size * o.lineHeight;
    } else {
      flushed' := flushed;
      line' := testLine;
      currentY' := currentY;
    }
  }

  /** The rectangle `drawRect` issues: top-left corner (x, y) top-down, so its page y is `pageHeight - y - h`. */
  function RectAt(pageHeight: real, x: real, y: real, w: real, h: real, color: Color): (c: DrawCommand)
    ensures c.Rectangle? && c.x == x && c.width == w && c.height == h && c.color == color
    ensures pageHeight - (c.y + c.height) == y
  {
    Rectangle(x, pageHeight - y - h, w, h, color)
  }

  /** `drawRect`. */
  method DrawRect(page: Page, x: real, y: real, w: real, h: real, color: Color)
    modifies page
    ensures page.log == old(page.log) + [RectAt(page.height, x, y, w, h, color)]
  {
    page.DrawRectangle(x, page.height - y - h, w, h, color);
  }

  /** The segment `drawLine` issues: each endpoint's y is flipped on its own. */
  function SegmentAt(pageHeight: real, x1: real, y1: real, x2: real, y2: real, thickness: real, color: Color): (c: DrawCommand)
    ensures c.Line? && c.startX == x1 && c.endX == x2 && c.thickness == thickness && c.color == color
    ensures pageHeight - c.startY == y1 && pageHeight - c.endY == y2
  {
    Line(x1, pageHeight - y1, x2, pageHeight - y2, thickness, color)
  }

  /** `drawLine`. */
  method DrawLine(page: Page, x1: real, y1: real, x2: real, y2: real, thickness: real, color: Color)
    modifies page
    ensures page.log == old(page.log) + [SegmentAt(page.height, x1, y1, x2, y2, thickness, color)]
  {
    page.DrawLine(x1, page.height - y1, x2, page.height - y2, thickness, color);
  }

  // ---------------------------------------------------------------------------
  // The template, part by part.

  const TitleStyle := DefaultStyle.(size := 36.0, font := "helvetica-bold", color := White, align := Center)
  const DateStyle := DefaultStyle.(size := 12.0, font := "helvetica", color := White, align := Center)

  function HeaderCommands(env: Env, pageWidth: real, pageHeight: real, date: Date): seq<DrawCommand> {
    [RectAt(pageHeight, 0.0, 0.0, pageWidth, 120.0, Primary),
     RectAt(pageHeight, pageWidth - 200.0, 60.0, 200.0, 30.0, Accent)]
    + TextRun(env, pageHeight, "INVOICE", pageWidth / 2.0, 50.0, TitleStyle)
    + TextRun(env, pageHeight, env.FormatDate(date), pageWidth / 2.0, 90.0, DateStyle)
  }

  /** Header band, accent bar, title and date. */
  method DrawHeader(page: Page, env: Env, date: Date)
    modifies page
    ensures page.log == old(page.log) + HeaderCommands(env, page.width, page.height, date)
  {
    ghost var log0 := page.log;
    DrawRect(page, 0.0, 0.0, page.width, 120.0, Primary);
    DrawRect(page, page.width - 200.0, 60.0, 200.0, 30.0, Accent);
    ghost var acc := [RectAt(page.height, 0.0, 0.0, page.width, 120.0, Primary),
                      RectAt(page.height, page.width - 200.0, 60.0, 200.0, 30.0, Accent)];
    assert page.log == log0 + acc;
    ghost var part := TextRun(env, page.height, "INVOICE", page.width / 2.0, 50.0, TitleStyle);
    var _ := DrawText(page, env, "INVOICE", page.width / 2.0, 50.0, TitleStyle);
    AppendAssoc(log0, acc, part);
    acc := acc + part;
    part := TextRun(env, page.height, env.FormatDate(date), page.width / 2.0, 90.0, DateStyle);
    var _ := DrawText(page, env, env.FormatDate(date), page.width / 2.0, 90.0, DateStyle);
    AppendAssoc(log0, acc, part);
  }

  const BadgeRadius := 40.0
  const BadgeX := 80.0
  const BadgeY := 180.0
  const HashStyle := DefaultStyle.(size := 12.0, font := "helvetica", color := White, align := Center)
  const BadgeNumberStyle := DefaultStyle.(size := 11.0, font := "helvetica-bold", color := White, align := Center, maxWidth := 60.0)

  /** `invoiceNumber.replace("INV-", "")`: the first "INV-" removed, if there is one. */
  function BadgeText(invoiceNumber: string): string {
    ReplaceFirst(invoiceNumber, "INV-", "")
  }

  function BadgeCommands(env: Env, pageHeight: real, invoiceNumber: string): seq<DrawCommand> {
    [Circle(BadgeX, pageHeight - BadgeY, BadgeRadius * 2.0, Accent),
     Circle(BadgeX, pageHeight - BadgeY, (BadgeRadius - 3.0) * 2.0, White)]
    + TextRun(env, pageHeight, "#", BadgeX, BadgeY - 15.0, HashStyle)
    + TextRun(env, pageHeight, BadgeText(invoiceNumber), BadgeX, BadgeY + 5.0, BadgeNumberStyle)
  }

  /** The circular badge with the invoice number. */
  method DrawBadge(page: Page, env: Env, invoiceNumber: string)
    modifies page
    ensures page.log == old(page.log) + BadgeCommands(env, page.height, invoiceNumber)
  {
    ghost var log0 := page.log;
    page.DrawCircle(BadgeX, page.height - BadgeY, BadgeRadius * 2.0, Accent);
    page.DrawCircle(BadgeX, page.height - BadgeY, (BadgeRadius - 3.0) * 2.0, White);
    ghost var acc := [Circle(BadgeX, page.height - BadgeY, BadgeRadius * 2.0, Accent),
                      Circle(BadgeX, page.height - BadgeY, (BadgeRadius - 3.0) * 2.0, White)];
    assert page.log == log0 + acc;
    ghost var part := TextRun(env, page.height, "#", BadgeX, BadgeY - 15.0, HashStyle);
    var _ := DrawText(page, env, "#", BadgeX, BadgeY - 15.0, HashStyle);
    AppendAssoc(log0, acc, part);
    acc := acc + part;
    part := TextRun(env, page.height, BadgeText(invoiceNumber), BadgeX, BadgeY + 5.0, BadgeNumberStyle);
    var _ := DrawText(page, env, BadgeText(invoiceNumber), BadgeX, BadgeY + 5.0, BadgeNumberStyle);
    AppendAssoc(log0, acc, part);
  }

  const CaptionStyle := DefaultStyle.(size := 10.0, font := "helvetica", color := MediumGray)
  const PartyNameStyle := DefaultStyle.(size := 18.0, font := "helvetica-bold", color := Primary)
  const DetailStyle := DefaultStyle.(size := 10.0, font := "helvetica")

  const CompanyX := 160.0
  const CompanyY := 150.0

  function CompanyCommands(env: Env, pageHeight: real): seq<DrawCommand> {
    TextRun(env, pageHeight, "FROM", CompanyX + 5.0, CompanyY, CaptionStyle)
    + TextRun(env, pageHeight, "Your Company Name", CompanyX + 30.0, CompanyY + 20.0, PartyNameStyle)
    + TextRun(env, pageHeight, "123 Business Street", CompanyX + 10.0, CompanyY + 40.0, DetailStyle)
    + TextRun(env, pageHeight, "City, State 12345", CompanyX + 10.0, CompanyY + 55.0, DetailStyle)
    + TextRun(env, pageHeight, "yourcompany@example.com", CompanyX + 10.0, CompanyY + 70.0, DetailStyle)
  }

  /** The sender block: fixed strings. */
  method DrawCompany(page: Page, env: Env)
    modifies page
    ensures page.log == old(page.log) + CompanyCommands(env, page.height)
  {
    ghost var log0 := page.log;
    var _ := DrawText(page, env, "FROM", CompanyX + 5.0, CompanyY, CaptionStyle);
    ghost var acc := TextRun(env, page.height, "FROM", CompanyX + 5.0, CompanyY, CaptionStyle);
    ghost var part := TextRun(env, page.height, "Your Company Name", CompanyX + 30.0, CompanyY + 20.0, PartyNameStyle);
    var _ := DrawText(page, env, "Your Company Name", CompanyX + 30.0, CompanyY + 20.0, PartyNameStyle);
    AppendAssoc(log0, acc, part);
    acc := acc + part;
    part := TextRun(env, page.height, "123 Business Street", CompanyX + 10.0, CompanyY + 40.0, DetailStyle);
    var _ := DrawText(page, env, "123 Business Street", CompanyX + 10.0, CompanyY + 40.0, DetailStyle);
    AppendAssoc(log0, acc, part);
    acc := acc + part;
    part := TextRun(env, page.height, "City, State 12345", CompanyX + 10.0, CompanyY + 55.0, DetailStyle);
    var _ := DrawText(page, env, "City, State 12345", CompanyX + 10.0, CompanyY + 55.0, DetailStyle);
    AppendAssoc(log0, acc, part);
    acc := acc + part;
    part := TextRun(env, page.height, "yourcompany@example.com", CompanyX + 10.0, CompanyY + 70.0, DetailStyle);
    var _ := DrawText(page, env, "yourcompany@example.com", CompanyX + 10.0, CompanyY + 70.0, DetailStyle);
    AppendAssoc(log0, acc, part);
  }

  const ClientX := 160.0
  const ClientY := 240.0

  function ClientCommands(env: Env, pageHeight: real, clientName: string): seq<DrawCommand> {
    [RectAt(pageHeight, ClientX - 10.0, ClientY - 15.0, 300.0, 100.0, LightGray)]
    + TextRun(env, pageHeight, "BILL TO", ClientX + 5.0, ClientY, CaptionStyle)
    + TextRun(env, pageHeight, clientName, ClientX + 30.0, ClientY + 20.0, PartyNameStyle)
    + TextRun(env, pageHeight, "Client Address Line 1", ClientX + 10.0, ClientY + 40.0, DetailStyle)
    + TextRun(env, pageHeight, "Client Address Line 2", ClientX + 10.0, ClientY + 55.0, DetailStyle)
    + TextRun(env, pageHeight, "client@example.com", ClientX + 10.0, ClientY + 70.0, DetailStyle)
  }

  /** The client block: the client's name, the rest fixed strings. */
  method DrawClient(page: Page, env: Env, clientName: string)
    modifies page
    ensures page.log == old(page.log) + ClientCommands(env, page.height, clientName)
  {
    ghost var log0 := page.log;
    DrawRect(page, ClientX - 10.0, ClientY - 15.0, 300.0, 100.0, LightGray);
    ghost var acc := [RectAt(page.height, ClientX - 10.0, ClientY - 15.0, 300.0, 100.0, LightGray)];
    ghost var part := TextRun(env, page.height, "BILL TO", ClientX + 5.0, ClientY, CaptionStyle);
    var _ := DrawText(page, env, "BILL TO", ClientX + 5.0, ClientY, CaptionStyle);
    AppendAssoc(log0, acc, part);
    acc := acc + part;
    part := TextRun(env, page.height, clientName, ClientX + 30.0, ClientY + 20.0, PartyNameStyle);
    var _ := DrawText(page, env, clientName, ClientX + 30.0, ClientY + 20.0, PartyNameStyle);
    AppendAssoc(log0, acc, part);
    acc := acc + part;
    part := TextRun(env, page.height, "Client Address Line 1", ClientX + 10.0, ClientY + 40.0, DetailStyle);
    var _ := DrawText(page, env, "Client Address Line 1", ClientX + 10.0, ClientY + 40.0, DetailStyle);
    AppendAssoc(log0, acc, part);
    acc := acc + part;
    part := TextRun(env, page.height, "Client Address Line 2", ClientX + 10.0, ClientY + 55.0, DetailStyle);
    var _ := DrawText(page, env, "Client Address Line 2", ClientX + 10.0, ClientY + 55.0, DetailStyle);
    AppendAssoc(log0, acc, part);
    acc := acc + part;
    part := TextRun(env, page.height, "client@example.com", ClientX + 10.0, ClientY + 70.0, DetailStyle);
    var _ := DrawText(page, env, "client@example.com", ClientX + 10.0, ClientY + 70.0, DetailStyle);
    AppendAssoc(log0, acc, part);
  }

  const TableX := 50.0
  const TableTop := 360.0
  const RowPitch := 30.0
  const Col1 := TableX
  const Col2 := TableX + 280.0
  const Col3 := TableX + 380.0
  const Col4 := TableX + 480.0
  const TableWidth := Col4 + 50.0 - TableX

  const ColumnHeadStyle := DefaultStyle.(size := 12.0, font := "helvetica-bold", color := White)
  const ColumnHeadRightStyle := ColumnHeadStyle.(align := Right)

  function TableHeaderCommands(env: Env, pageHeight: real, tableY: real): seq<DrawCommand> {
    [RectAt(pageHeight, TableX, tableY, TableWidth, 30.0, Primary)]
    + TextRun(env, pageHeight, "DESCRIPTION", Col1 + 10.0, tableY + 20.0, ColumnHeadStyle)
    + TextRun(env, pageHeight, "QTY", Col2, tableY + 20.0, ColumnHeadRightStyle)
    + TextRun(env, pageHeight, "PRICE", Col3, tableY + 20.0, ColumnHeadRightStyle)
    + TextRun(env, pageHeight, "AMOUNT", Col4, tableY + 20.0, ColumnHeadRightStyle)
  }

  /** The shaded table header with the four column labels. */
  method DrawTableHeader(page: Page, env: Env, tableY: real)
    modifies page
    ensures page.log == old(page.log) + TableHeaderCommands(env, page.height, tableY)
  {
    ghost var log0 := page.log;
    DrawRect(page, TableX, tableY, TableWidth, 30.0, Primary);
    ghost var acc := [RectAt(page.height, TableX, tableY, TableWidth, 30.0, Primary)];
    ghost var part := TextRun(env, page.height, "DESCRIPTION", Col1 + 10.0, tableY + 20.0, ColumnHeadStyle);
    var _ := DrawText(page, env, "DESCRIPTION", Col1 + 10.0, tableY + 20.0, ColumnHeadStyle);
    AppendAssoc(log0, acc, part);
    acc := acc + part;
    part := TextRun(env, page.height, "QTY", Col2, tableY + 20.0, ColumnHeadRightStyle);
    var _ := DrawText(page, env, "QTY", Col2, tableY + 20.0, ColumnHeadRightStyle);
    AppendAssoc(log0, acc, part);
    acc := acc + part;
    part := TextRun(env, page.height, "PRICE", Col3, tableY + 20.0, ColumnHeadRightStyle);
    var _ := DrawText(page, env, "PRICE", Col3, tableY + 20.0, ColumnHeadRightStyle);
    AppendAssoc(log0, acc, part);
    acc := acc + part;
    part := TextRun(env, page.height, "AMOUNT", Col4, tableY + 20.0, ColumnHeadRightStyle);
    var _ := DrawText(page, env, "AMOUNT", Col4, tableY + 20.0, ColumnHeadRightStyle);
    AppendAssoc(log0, acc, part);
  }

  const DescriptionStyle := DefaultStyle.(size := 10.0, maxWidth := 260.0)
  const CellStyle := DefaultStyle.(size := 10.0, align := Right)
  const AmountStyle := DefaultStyle.(size := 10.0, font := "helvetica-bold", align := Right)

  /** `$${value.toFixed(2)}`. */
  function Money(env: Env, value: real): string {
    "$" + env.toFixed(value, 2)
  }

  /** The amount of an item, computed at render time. */
  function Amount(item: Item): real {
    item.quantity * item.price
  }

  /** The background of the row drawn when the counter is `count`: light grey on even counts. */
  function RowTint(count: nat): Color {
    if count % 2 == 0 then LightGray else White
  }

  /** The commands of the row whose counter is `count`, with its top at `rowY`. */
  function RowCommands(env: Env, pageHeight: real, count: nat, item: Item, rowY: real): seq<DrawCommand> {
    [RectAt(pageHeight, TableX, rowY, TableWidth, 30.0, RowTint(count))]
    + TextRun(env, pageHeight, item.description, Col1 + 10.0, rowY + 20.0, DescriptionStyle)
    + TextRun(env, pageHeight, env.NumberString(item.quantity), Col2, rowY + 20.0, CellStyle)
    + TextRun(env, pageHeight, Money(env, item.price), Col3, rowY + 20.0, CellStyle)
    + TextRun(env, pageHeight, Money(env, Amount(item)), Col4, rowY + 20.0, AmountStyle)
  }

  /** The rows of `items`, the first with its top at `startY`, one pitch apart. */
  function TableRows(env: Env, pageHeight: real, items: seq<Item>, startY: real): seq<DrawCommand>
    decreases |items|
  {
    if items == [] then []
    else
      var n := |items|;
      TableRows(env, pageHeight, items[..n - 1], startY) + RowCommands(env, pageHeight, n, items[n - 1], startY + RowPitch * (n - 1) as real)
  }

  /** The definition of `TableRows`, one step, for a list that is not empty. */
  lemma TableRowsUnfold(env: Env, pageHeight: real, items: seq<Item>, startY: real, count: nat, rowY: real)
    requires items != [] && count == |items| && rowY == startY + RowPitch * (|items| - 1) as real
    ensures TableRows(env, pageHeight, items, startY)
            == TableRows(env, pageHeight, items[..|items| - 1], startY) + RowCommands(env, pageHeight, count, items[|items| - 1], rowY)
  {
  }

  /** The row loop's step, on prefixes of the items. */
  lemma TableRowsStep(env: Env, pageHeight: real, items: seq<Item>, k: nat, startY: real, count: nat, rowY: real)
    requires k < |items| && count == k + 1 && rowY == startY + RowPitch * k as real
    ensures TableRows(env, pageHeight, items[..k + 1], startY)
            == TableRows(env, pageHeight, items[..k], startY) + RowCommands(env, pageHeight, count, items[k], rowY)
  {
    var prefix := items[..k + 1];
    TableRowsUnfold(env, pageHeight, prefix, startY, count, rowY);
    assert prefix[..|prefix| - 1] == items[..k];
  }

  /** The item rows; returns the y below the last row. */
  method DrawRows(page: Page, env: Env, items: seq<Item>, startY: real) returns (tableY: real)
    modifies page
    ensures tableY == startY + RowPitch * |items| as real
    ensures page.log == old(page.log) + TableRows(env, page.height, items, startY)
  {
    ghost var log0 := page.log;
    tableY := startY;
    var itemCount: nat := 0;
    for k := 0 to |items|
      invariant itemCount == k
      invariant tableY == startY + RowPitch * k as real
      invariant page.log == log0 + TableRows(env, page.height, items[..k], startY)
    {
      itemCount := itemCount + 1;
      DrawRow(page, env, itemCount, items[k], tableY);
      TableRowsStep(env, page.height, items, k, startY, itemCount, tableY);
      AppendAssoc(log0, TableRows(env, page.height, items[..k], startY), RowCommands(env, page.height, itemCount, items[k], tableY));
      tableY := tableY + RowPitch;
    }
    assert items[..|items|] == items;
  }

  /** One pass of the row loop: the tinted band and the four cells of `item`. */
  method DrawRow(page: Page, env: Env, itemCount: nat, item: Item, tableY: real)
    modifies page
    ensures page.log == old(page.log) + RowCommands(env, page.height, itemCount, item, tableY)
  {
    ghost var log0 := page.log;
    var rowColor := RowTint(itemCount);
    DrawRect(page, TableX, tableY, TableWidth, 30.0, rowColor);
    ghost var cmds := [RectAt(page.height, TableX, tableY, TableWidth, 30.0, rowColor)];
    ghost var run := TextRun(env, page.height, item.description, Col1 + 10.0, tableY + 20.0, DescriptionStyle);
    var _ := DrawText(page, env, item.description, Col1 + 10.0, tableY + 20.0, DescriptionStyle);
    AppendAssoc(log0, cmds, run);
    cmds := cmds + run;
    run := TextRun(env, page.height, env.NumberString(item.quantity), Col2, tableY + 20.0, CellStyle);
    var _ := DrawText(page, env, env.NumberString(item.quantity), Col2, tableY + 20.0, CellStyle);
    AppendAssoc(log0, cmds, run);
    cmds := cmds + run;
    run := TextRun(env, page.height, Money(env, item.price), Col3, tableY + 20.0, CellStyle);
    var _ := DrawText(page, env, Money(env, item.price), Col3, tableY + 20.0, CellStyle);
    AppendAssoc(log0, cmds, run);
    cmds := cmds + run;
    run := TextRun(env, page.height, Money(env, Amount(item)), Col4, tableY + 20.0, AmountStyle);
    var _ := DrawText(page, env, Money(env, Amount(item)), Col4, tableY + 20.0, AmountStyle);
    AppendAssoc(log0, cmds, run);
  }

  const TaxRate := 0.1

  /** `items.reduce((sum, item) => sum + quantity * price, 0)`, folded from the left. */
  function Subtotal(items: seq<Item>): real
    decreases |items|
  {
    if items == [] then 0.0 else Subtotal(items[..|items| - 1]) + Amount(items[|items| - 1])
  }

  const TotalsLabelStyle := DefaultStyle.(size := 10.0, font := "helvetica-bold", align := Right)
  const TotalsFigureStyle := DefaultStyle.(size := 10.0, align := Right)
  const GrandTotalStyle := DefaultStyle.(size := 14.0, font := "helvetica-bold", color := White, align := Right)

  /** `Tax (${(taxRate * 100).toFixed(0)}%):`. */
  function TaxLabel(env: Env): string {
    "Tax (" + env.toFixed(TaxRate * 100.0, 0) + "%):"
  }

  /** Subtotal, tax and the total band, starting 10 below `tableY`, with the tax at `TaxRate`. */
  function TotalsCommands(env: Env, pageHeight: real, items: seq<Item>, tableY: real): seq<DrawCommand> {
    var subtotal := Subtotal(items);
    var tax := subtotal * TaxRate;
    var total := subtotal + tax;
    TextRun(env, pageHeight, "Subtotal:", Col3 - 70.0, tableY + 10.0, TotalsLabelStyle)
    + TextRun(env, pageHeight, Money(env, subtotal), Col4, tableY + 10.0, TotalsFigureStyle)
    + TextRun(env, pageHeight, TaxLabel(env), Col3 - 70.0, tableY + 30.0, TotalsLabelStyle)
    + TextRun(env, pageHeight, Money(env, tax), Col4, tableY + 30.0, TotalsFigureStyle)
    + [RectAt(pageHeight, Col3 - 80.0, tableY + 50.0, Col4 + 50.0 - (Col3 - 80.0), 40.0, Primary)]
    + TextRun(env, pageHeight, "TOTAL:", Col3 - 25.0, tableY + 70.0, GrandTotalStyle)
    + TextRun(env, pageHeight, Money(env, total), Col4, tableY + 70.0, GrandTotalStyle)
  }

  /** The totals block, piece by piece, at the three heights `DrawTotals` moves through. */
  lemma TotalsSections(env: Env, pageHeight: real, items: seq<Item>, tableY: real,
                       subtotal: real, tax: real, total: real, y1: real, y2: real, y3: real)
    requires subtotal == Subtotal(items) && tax == subtotal * TaxRate && total == subtotal + tax
    requires y1 == tableY + 10.0 && y2 == y1 + 20.0 && y3 == y2 + 30.0
    ensures TotalsCommands(env, pageHeight, items, tableY) ==
              TextRun(env, pageHeight, "Subtotal:", Col3 - 70.0, y1, TotalsLabelStyle)
              + TextRun(env, pageHeight, Money(env, subtotal), Col4, y1, TotalsFigureStyle)
              + TextRun(env, pageHeight, TaxLabel(env), Col3 - 70.0, y2, TotalsLabelStyle)
              + TextRun(env, pageHeight, Money(env, tax), Col4, y2, TotalsFigureStyle)
              + [RectAt(pageHeight, Col3 - 80.0, y3 - 10.0, Col4 + 50.0 - (Col3 - 80.0), 40.0, Primary)]
              + TextRun(env, pageHeight, "TOTAL:", Col3 - 25.0, y3 + 10.0, GrandTotalStyle)
              + TextRun(env, pageHeight, Money(env, total), Col4, y3 + 10.0, GrandTotalStyle)
  {
    assert tableY + 30.0 == y2 && tableY + 50.0 == y3 - 10.0 && tableY + 70.0 == y3 + 10.0;
  }

  /** The totals block below the rows; `tableY` moves down 10, 20 and 30 as in the source. */
  method DrawTotals(page: Page, env: Env, items: seq<Item>, startY: real)
    modifies page
    ensures page.log == old(page.log) + TotalsCommands(env, page.height, items, startY)
  {
    ghost var log0 := page.log;
    var tableY := startY;
    var subtotal := Subtotal(items);
    var tax := subtotal * TaxRate;
    var total := subtotal + tax;
    tableY := tableY + 10.0;
    ghost var y1 := tableY;
    var _ := DrawText(page, env, "Subtotal:", Col3 - 70.0, tableY, TotalsLabelStyle);
    ghost var acc := TextRun(env, page.height, "Subtotal:", Col3 - 70.0, tableY, TotalsLabelStyle);
    ghost var part := TextRun(env, page.height, Money(env, subtotal), Col4, tableY, TotalsFigureStyle);
    var _ := DrawText(page, env, Money(env, subtotal), Col4, tableY, TotalsFigureStyle);
    AppendAssoc(log0, acc, part);
    acc := acc + part;
    tableY := tableY + 20.0;
    ghost var y2 := tableY;
    part := TextRun(env, page.height, TaxLabel(env), Col3 - 70.0, tableY, TotalsLabelStyle);
    var _ := DrawText(page, env, TaxLabel(env), Col3 - 70.0, tableY, TotalsLabelStyle);
    AppendAssoc(log0, acc, part);
    acc := acc + part;
    part := TextRun(env, page.height, Money(env, tax), Col4, tableY, TotalsFigureStyle);
    var _ := DrawText(page, env, Money(env, tax), Col4, tableY, TotalsFigureStyle);
    AppendAssoc(log0, acc, part);
    acc := acc + part;
    tableY := tableY + 30.0;
    DrawRect(page, Col3 - 80.0, tableY - 10.0, Col4 + 50.0 - (Col3 - 80.0), 40.0, Primary);
    part := [RectAt(page.height, Col3 - 80.0, tableY - 10.0, Col4 + 50.0 - (Col3 - 80.0), 40.0, Primary)];
    AppendAssoc(log0, acc, part);
    acc := acc + part;
    part := TextRun(env, page.height, "TOTAL:", Col3 - 25.0, tableY + 10.0, GrandTotalStyle);
    var _ := DrawText(page, env, "TOTAL:", Col3 - 25.0, tableY + 10.0, GrandTotalStyle);
    AppendAssoc(log0, acc, part);
    acc := acc + part;
    part := TextRun(env, page.height, Money(env, total), Col4, tableY + 10.0, GrandTotalStyle);
    var _ := DrawText(page, env, Money(env, total), Col4, tableY + 10.0, GrandTotalStyle);
    AppendAssoc(log0, acc, part);
    TotalsSections(env, page.height, items, startY, subtotal, tax, total, y1, y2, tableY);
  }

  /** The footer's closing lines and its page number. */
  const ThanksLine: string := "Thank you for your business"
  const TermsLine: string := "Payment due within 30 days"
  const PageNumberLine: string := "Page 1 of 1"

  const ThanksStyle := DefaultStyle.(size := 12.0, font := "times-italic", color := Primary, align := Center)
  const TermsStyle := DefaultStyle.(size := 10.0, font := "helvetica", color := MediumGray, align := Center)
  const PageNumberStyle := DefaultStyle.(size := 8.0, font := "helvetica", color := MediumGray, align := Right)

  function FooterCommands(env: Env, pageWidth: real, pageHeight: real): seq<DrawCommand> {
    var footerY := pageHeight - 50.0;
    [SegmentAt(pageHeight, TableX, footerY - 20.0, pageWidth - TableX, footerY - 20.0, 1.0, MediumGray)]
    + TextRun(env, pageHeight, ThanksLine, pageWidth / 2.0, pageHeight - 30.0, ThanksStyle)
    + TextRun(env, pageHeight, TermsLine, pageWidth / 2.0, pageHeight - 45.0, TermsStyle)
    + TextRun(env, pageHeight, PageNumberLine, pageWidth - 50.0, pageHeight - 30.0, PageNumberStyle)
  }

  /** The footer, piece by piece, with the rule 20 above `footerY`. */
  lemma FooterSections(env: Env, pageWidth: real, pageHeight: real, footerY: real)
    requires footerY == pageHeight - 50.0
    ensures FooterCommands(env, pageWidth, pageHeight) ==
              [SegmentAt(pageHeight, TableX, footerY - 20.0, pageWidth - TableX, footerY - 20.0, 1.0, MediumGray)]
              + TextRun(env, pageHeight, ThanksLine, pageWidth / 2.0, pageHeight - 30.0, ThanksStyle)
              + TextRun(env, pageHeight, TermsLine, pageWidth / 2.0, pageHeight - 45.0, TermsStyle)
              + TextRun(env, pageHeight, PageNumberLine, pageWidth - 50.0, pageHeight - 30.0, PageNumberStyle)
  {
  }

  /** The footer rule, the closing lines and the page number. */
  method DrawFooter(page: Page, env: Env)
    modifies page
    ensures page.log == old(page.log) + FooterCommands(env, page.width, page.height)
  {
    ghost var log0 := page.log;
    var footerY := page.height - 50.0;
    DrawLine(page, TableX, footerY - 20.0, page.width - TableX, footerY - 20.0, 1.0, MediumGray);
    ghost var log1 := page.log;
    var _ := DrawText(page, env, ThanksLine, page.width / 2.0, page.height - 30.0, ThanksStyle);
    ghost var log2 := page.log;
    var _ := DrawText(page, env, TermsLine, page.width / 2.0, page.height - 45.0, TermsStyle);
    ghost var log3 := page.log;
    var _ := DrawText(page, env, PageNumberLine, page.width - 50.0, page.height - 30.0, PageNumberStyle);
    FooterSections(env, page.width, page.height, footerY);
    LogSteps4(log0, log1, log2, log3, page.log,
              [SegmentAt(page.height, TableX, footerY - 20.0, page.width - TableX, footerY - 20.0, 1.0, MediumGray)],
              TextRun(env, page.height, ThanksLine, page.width / 2.0, page.height - 30.0, ThanksStyle),
              TextRun(env, page.height, TermsLine, page.width / 2.0, page.height - 45.0, TermsStyle),
              TextRun(env, page.height, PageNumberLine, page.width - 50.0, page.height - 30.0, PageNumberStyle));
  }

  /** The upper half of the page: header, badge, sender and client. */
  function PartiesCommands(env: Env, pageWidth: real, pageHeight: real, data: InvoiceForm): seq<DrawCommand> {
    HeaderCommands(env, pageWidth, pageHeight, data.date)
    + BadgeCommands(env, pageHeight, data.invoiceNumber)
    + CompanyCommands(env, pageHeight)
    + ClientCommands(env, pageHeight, data.clientName)
  }

  /** The table: its header at `TableTop`, one row per item below it, then the totals. */
  function TableCommands(env: Env, pageHeight: real, items: seq<Item>): seq<DrawCommand> {
    TableHeaderCommands(env, pageHeight, TableTop)
    + TableRows(env, pageHeight, items, TableTop + RowPitch)
    + TotalsCommands(env, pageHeight, items, TableTop + RowPitch + RowPitch * |items| as real)
  }

  /** The whole page, in drawing order. */
  function InvoiceLayout(env: Env, pageWidth: real, pageHeight: real, data: InvoiceForm): seq<DrawCommand> {
    PartiesCommands(env, pageWidth, pageHeight, data)
    + TableCommands(env, pageHeight, data.items)
    + FooterCommands(env, pageWidth, pageHeight)
  }

  /** The table's three parts, at the heights `DrawTable` reaches them. */
  lemma TableSections(env: Env, pageHeight: real, items: seq<Item>, rowsTop: real, totalsY: real)
    requires rowsTop == TableTop + RowPitch && totalsY == rowsTop + RowPitch * |items| as real
    ensures TableCommands(env, pageHeight, items) ==
              TableHeaderCommands(env, pageHeight, TableTop)
              + TableRows(env, pageHeight, items, rowsTop)
              + TotalsCommands(env, pageHeight, items, totalsY)
  {
  }

  /** The sections above the table, in the order `generatePDF` draws them. */
  method DrawParties(page: Page, env: Env, data: InvoiceForm)
    modifies page
    ensures page.log == old(page.log) + PartiesCommands(env, page.width, page.height, data)
  {
    ghost var log0 := page.log;
    DrawHeader(page, env, data.date);
    ghost var acc := HeaderCommands(env, page.width, page.height, data.date);
    ghost var part := BadgeCommands(env, page.height, data.invoiceNumber);
    DrawBadge(page, env, data.invoiceNumber);
    AppendAssoc(log0, acc, part);
    acc := acc + part;
    part := CompanyCommands(env, page.height);
    DrawCompany(page, env);
    AppendAssoc(log0, acc, part);
    acc := acc + part;
    part := ClientCommands(env, page.height, data.clientName);
    DrawClient(page, env, data.clientName);
    AppendAssoc(log0, acc, part);
  }

  /** The table header, the rows and the totals, with `tableY` moving down the page. */
  method DrawTable(page: Page, env: Env, items: seq<Item>)
    modifies page
    ensures page.log == old(page.log) + TableCommands(env, page.height, items)
  {
    ghost var log0 := page.log;
    var tableY := TableTop;
    DrawTableHeader(page, env, tableY);
    ghost var acc := TableHeaderCommands(env, page.height, TableTop);
    tableY := tableY + RowPitch;
    ghost var rowsTop := tableY;
    ghost var part := TableRows(env, page.height, items, rowsTop);
    tableY := DrawRows(page, env, items, tableY);
    AppendAssoc(log0, acc, part);
    acc := acc + part;
    part := TotalsCommands(env, page.height, items, tableY);
    DrawTotals(page, env, items, tableY);
    AppendAssoc(log0, acc, part);
    TableSections(env, page.height, items, rowsTop, tableY);
  }

  /** Everything `generatePDF` draws, from the header band to the page number. */
  method RenderInvoice(page: Page, env: Env, data: InvoiceForm)
    modifies page
    ensures page.log == old(page.log) + InvoiceLayout(env, page.width, page.height, data)
  {
    ghost var log0 := page.log;
    DrawParties(page, env, data);
    ghost var acc := PartiesCommands(env, page.width, page.height, data);
    ghost var part := TableCommands(env, page.height, data.items);
    DrawTable(page, env, data.items);
    AppendAssoc(log0, acc, part);
    acc := acc + part;
    part := FooterCommands(env, page.width, page.height);
    DrawFooter(page, env);
    AppendAssoc(log0, acc, part);
  }

  /** The backend steps that can raise inside the `try` block. */
  datatype Stage = CreateDocument | EmbedFonts | Draw | Save | Download

  /** What `generatePDF` does: returns `true` after starting the download, or raises one error. */
  datatype Generation = Generated(returned: bool, filename: string) | Raised(message: string)

  const GenerationError := "Failed to generate PDF. Please try again."

  /** `invoice-${invoiceNumber}.pdf`: the invoice number can be read back from between the affixes. */
  function DownloadName(invoiceNumber: string): (name: string)
    ensures |name| == |invoiceNumber| + 12
    ensures name[..8] == "invoice-" && name[|name| - 4..] == ".pdf"
    ensures name[8..|name| - 4] == invoiceNumber
  {
    "invoice-" + invoiceNumber + ".pdf"
  }

  /**
   * `generatePDF`. `fault` names the backend step that raises, if any
   * (document creation, font embedding, a drawing call, serialisation or the
   * download). Formatting an Invalid Date for the header raises as well.
   * Every fault is caught and re-raised as the one generation error, and no
   * page is handed out; otherwise the page holds the whole layout and the
   * download is named after the invoice number.
   */
  method GeneratePDF(data: InvoiceForm, env: Env, fault: Option<Stage>) returns (res: Generation, page: Page?)
    ensures res.Generated? <==> fault == None && data.date.Date?
    ensures res.Generated? ==> res.returned && res.filename == DownloadName(data.invoiceNumber)
    ensures res.Raised? ==> res.message == GenerationError && page == null
    ensures res.Generated? ==> page != null && page.width == A4Width && page.height == A4Height
    ensures res.Generated? ==> page != null && page.log == InvoiceLayout(env, A4Width, A4Height, data)
  {
    page := null;
    if fault == Some(CreateDocument) || fault == Some(EmbedFonts) {
      res := Raised(GenerationError);
      return;
    }
    var p := new Page(A4Width, A4Height);
    if data.date.InvalidDate? {
      res := Raised(GenerationError);
      return;
    }
    RenderInvoice(p, env, data);
    if fault.Some? {
      res := Raised(GenerationError);
      return;
    }
    page := p;
    res := Generated(true, DownloadName(data.invoiceNumber));
  }
}

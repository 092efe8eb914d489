/**
 * What the invoice page looks like, stated on the layout functions of
 * `PdfGenerator` with the template's numbers written out: where text lands
 * and how high a wrapped text is, which rectangles, circles and lines the
 * page holds, where the table rows and the totals sit, and what the badge
 * shows.
 */
module LayoutProperties {
  import opened Wrappers
  import opened Strings
  import opened PdfPage
  import opened TextLayout
  import opened LibTypes
  import opened PdfGenerator

  // ---------------------------------------------------------------------------
  // One `drawText` call.

  /**
   * Without a positive `maxWidth`, `drawText` issues exactly one command: the
   * whole text, aligned by its own width, at page y `height - y`; it reports
   * the font size as the height used.
   */
  lemma {:induction false} SingleLinePath(env: Env, h: real, text: string, x: real, y: real, o: TextOptions)
    requires o.maxWidth <= 0.0
    ensures var run := TextRun(env, h, text, x, y, o);
            && |run| == 1
            && run[0] == Text(text, AlignX(o.align, x, env.width(FontFor(o.font), text, o.size)),
                              h - y, o.size, FontFor(o.font), o.color)
            && h - run[0].y == y
    ensures TextHeight(env, text, o) == o.size
  {
  }

  /**
   * With wrapping on, the `j`-th command draws the `j`-th wrapped line,
   * aligned by that line's own width, `j` line heights below `y`.
   */
  lemma {:induction false} WrappedLinePlacement(env: Env, h: real, text: string, x: real, y: real, o: TextOptions, j: nat)
    requires o.maxWidth > 0.0
    requires j < |WrapLines(PenFor(env, o), o.maxWidth, text)|
    ensures |TextRun(env, h, text, x, y, o)| == |WrapLines(PenFor(env, o), o.maxWidth, text)|
    ensures var l := WrapLines(PenFor(env, o), o.maxWidth, text)[j];
            TextRun(env, h, text, x, y, o)[j] ==
              Text(l, AlignX(o.align, x, env.width(FontFor(o.font), l, o.size)),
                   h - (y + j as real * LineStep(o)), o.size, FontFor(o.font), o.color)
  {
    var lines := WrapLines(PenFor(env, o), o.maxWidth, text);
    assert TextRun(env, h, text, x, y, o) == LineRun(PenFor(env, o), h, lines, x, y, o);
    LineRunAt(PenFor(env, o), h, lines, x, y, o, j);
    LineAtProduct(PenFor(env, o), h, lines[j], j, x, y, o);
  }

  /** The `j`-th wrapped line sits `j` line steps, as a product, below `y`. */
  lemma LineAtProduct(pen: Pen, h: real, l: string, j: nat, x: real, y: real, o: TextOptions)
    ensures LineAt(pen, h, l, j, x, y, o)
            == Text(l, AlignX(o.align, x, pen.WidthOf(l)), h - (y + j as real * LineStep(o)), o.size, pen.face, o.color)
  {
    LineOffsetIsProduct(j, LineStep(o));
  }

  /** The number of lines the word loop of `drawText` flushes. */
  function Flushes(env: Env, text: string, o: TextOptions): nat {
    |Wrap(PenFor(env, o), o.maxWidth, Split(text)).flushed|
  }

  /** Wrap height: one line step (`size * lineHeight`) per flush in the loop, plus the size. */
  lemma {:induction false} WrapHeight(env: Env, text: string, o: TextOptions)
    requires o.maxWidth > 0.0
    ensures TextHeight(env, text, o) == Flushes(env, text, o) as real * LineStep(o) + o.size
  {
    assert TextHeight(env, text, o) == LineOffset(Flushes(env, text, o), LineStep(o)) + o.size;
    OffsetAsProduct(Flushes(env, text, o), LineStep(o), o.size, TextHeight(env, text, o));
  }

  /** A height of `k` line steps plus `size`, written as a product. */
  lemma OffsetAsProduct(k: nat, step: real, size: real, height: real)
    requires height == LineOffset(k, step) + size
    ensures height == k as real * step + size
  {
    LineOffsetIsProduct(k, step);
  }

  /**
   * For text without empty words the loop draws one line per flush and then
   * the last line, so the wrapped height is one line step per drawn line
   * after the first, plus the size.
   */
  lemma {:induction false} DrawnLines(env: Env, text: string, o: TextOptions)
    requires forall k :: 0 <= k < |Split(text)| ==> Split(text)[k] != ""
    ensures |WrapLines(PenFor(env, o), o.maxWidth, text)| == Flushes(env, text, o) + 1
  {
    WrapKeepsText(PenFor(env, o), o.maxWidth, text);
  }

  /** A text run holds only text commands. */
  lemma {:induction false} TextRunIsText(env: Env, h: real, text: string, x: real, y: real, o: TextOptions)
    ensures forall j :: 0 <= j < |TextRun(env, h, text, x, y, o)| ==> KindOf(TextRun(env, h, text, x, y, o)[j]) == TextKind
  {
    if o.maxWidth > 0.0 {
      var pen := PenFor(env, o);
      var lines := WrapLines(pen, o.maxWidth, text);
      forall j | 0 <= j < |TextRun(env, h, text, x, y, o)|
        ensures KindOf(TextRun(env, h, text, x, y, o)[j]) == TextKind
      {
        LineRunAt(pen, h, lines, x, y, o, j);
      }
    }
  }

  /** Appending a text run adds nothing of any other kind. */
  lemma {:induction false} DropRun(a: seq<DrawCommand>, env: Env, h: real, text: string, x: real, y: real, o: TextOptions, k: Kind)
    requires k != TextKind
    ensures OfKind(a + TextRun(env, h, text, x, y, o), k) == OfKind(a, k)
  {
    var run := TextRun(env, h, text, x, y, o);
    TextRunIsText(env, h, text, x, y, o);
    OfKindNone(run, k);
    OfKindConcat(a, run, k);
    assert OfKind(a, k) + [] == OfKind(a, k);
  }

  // ---------------------------------------------------------------------------
  // The shapes of each part of the page.

  lemma {:induction false} HeaderShapes(env: Env, w: real, h: real, date: Date, k: Kind)
    requires k != TextKind
    ensures OfKind(HeaderCommands(env, w, h, date), k)
            == OfKind([RectAt(h, 0.0, 0.0, w, 120.0, Primary), RectAt(h, w - 200.0, 60.0, 200.0, 30.0, Accent)], k)
  {
    var shapes := [RectAt(h, 0.0, 0.0, w, 120.0, Primary), RectAt(h, w - 200.0, 60.0, 200.0, 30.0, Accent)];
    var a := shapes + TextRun(env, h, "INVOICE", w / 2.0, 50.0, TitleStyle);
    DropRun(a, env, h, env.FormatDate(date), w / 2.0, 90.0, DateStyle, k);
    DropRun(shapes, env, h, "INVOICE", w / 2.0, 50.0, TitleStyle, k);
  }

  lemma {:induction false} BadgeShapes(env: Env, h: real, invoiceNumber: string, k: Kind)
    requires k != TextKind
    ensures OfKind(BadgeCommands(env, h, invoiceNumber), k)
            == OfKind([Circle(BadgeX, h - BadgeY, BadgeRadius * 2.0, Accent),
                       Circle(BadgeX, h - BadgeY, (BadgeRadius - 3.0) * 2.0, White)], k)
  {
    var shapes := [Circle(BadgeX, h - BadgeY, BadgeRadius * 2.0, Accent),
                   Circle(BadgeX, h - BadgeY, (BadgeRadius - 3.0) * 2.0, White)];
    var a := shapes + TextRun(env, h, "#", BadgeX, BadgeY - 15.0, HashStyle);
    DropRun(a, env, h, BadgeText(invoiceNumber), BadgeX, BadgeY + 5.0, BadgeNumberStyle, k);
    DropRun(shapes, env, h, "#", BadgeX, BadgeY - 15.0, HashStyle, k);
  }

  lemma {:induction false} CompanyShapes(env: Env, h: real, k: Kind)
    requires k != TextKind
    ensures OfKind(CompanyCommands(env, h), k) == []
  {
    var t1 := TextRun(env, h, "FROM", CompanyX + 5.0, CompanyY, CaptionStyle);
    var t2 := TextRun(env, h, "Your Company Name", CompanyX + 30.0, CompanyY + 20.0, PartyNameStyle);
    var t3 := TextRun(env, h, "123 Business Street", CompanyX + 10.0, CompanyY + 40.0, DetailStyle);
    var t4 := TextRun(env, h, "City, State 12345", CompanyX + 10.0, CompanyY + 55.0, DetailStyle);
    DropRun(t1 + t2 + t3 + t4, env, h, "yourcompany@example.com", CompanyX + 10.0, CompanyY + 70.0, DetailStyle, k);
    DropRun(t1 + t2 + t3, env, h, "City, State 12345", CompanyX + 10.0, CompanyY + 55.0, DetailStyle, k);
    DropRun(t1 + t2, env, h, "123 Business Street", CompanyX + 10.0, CompanyY + 40.0, DetailStyle, k);
    DropRun(t1, env, h, "Your Company Name", CompanyX + 30.0, CompanyY + 20.0, PartyNameStyle, k);
    DropRun([], env, h, "FROM", CompanyX + 5.0, CompanyY, CaptionStyle, k);
    assert [] + t1 == t1;
  }

  lemma {:induction false} ClientShapes(env: Env, h: real, clientName: string, k: Kind)
    requires k != TextKind
    ensures OfKind(ClientCommands(env, h, clientName), k)
            == OfKind([RectAt(h, ClientX - 10.0, ClientY - 15.0, 300.0, 100.0, LightGray)], k)
  {
    var r := [RectAt(h, ClientX - 10.0, ClientY - 15.0, 300.0, 100.0, LightGray)];
    var t1 := TextRun(env, h, "BILL TO", ClientX + 5.0, ClientY, CaptionStyle);
    var t2 := TextRun(env, h, clientName, ClientX + 30.0, ClientY + 20.0, PartyNameStyle);
    var t3 := TextRun(env, h, "Client Address Line 1", ClientX + 10.0, ClientY + 40.0, DetailStyle);
    var t4 := TextRun(env, h, "Client Address Line 2", ClientX + 10.0, ClientY + 55.0, DetailStyle);
    DropRun(r + t1 + t2 + t3 + t4, env, h, "client@example.com", ClientX + 10.0, ClientY + 70.0, DetailStyle, k);
    DropRun(r + t1 + t2 + t3, env, h, "Client Address Line 2", ClientX + 10.0, ClientY + 55.0, DetailStyle, k);
    DropRun(r + t1 + t2, env, h, "Client Address Line 1", ClientX + 10.0, ClientY + 40.0, DetailStyle, k);
    DropRun(r + t1, env, h, clientName, ClientX + 30.0, ClientY + 20.0, PartyNameStyle, k);
    DropRun(r, env, h, "BILL TO", ClientX + 5.0, ClientY, CaptionStyle, k);
  }

  lemma {:induction false} TableHeaderShapes(env: Env, h: real, tableY: real, k: Kind)
    requires k != TextKind
    ensures OfKind(TableHeaderCommands(env, h, tableY), k)
            == OfKind([RectAt(h, TableX, tableY, TableWidth, 30.0, Primary)], k)
  {
    var r := [RectAt(h, TableX, tableY, TableWidth, 30.0, Primary)];
    var t1 := TextRun(env, h, "DESCRIPTION", Col1 + 10.0, tableY + 20.0, ColumnHeadStyle);
    var t2 := TextRun(env, h, "QTY", Col2, tableY + 20.0, ColumnHeadRightStyle);
    var t3 := TextRun(env, h, "PRICE", Col3, tableY + 20.0, ColumnHeadRightStyle);
    DropRun(r + t1 + t2 + t3, env, h, "AMOUNT", Col4, tableY + 20.0, ColumnHeadRightStyle, k);
    DropRun(r + t1 + t2, env, h, "PRICE", Col3, tableY + 20.0, ColumnHeadRightStyle, k);
    DropRun(r + t1, env, h, "QTY", Col2, tableY + 20.0, ColumnHeadRightStyle, k);
    DropRun(r, env, h, "DESCRIPTION", Col1 + 10.0, tableY + 20.0, ColumnHeadStyle, k);
  }

  lemma {:induction false} RowShapes(env: Env, h: real, count: nat, item: Item, rowY: real, k: Kind)
    requires k != TextKind
    ensures OfKind(RowCommands(env, h, count, item, rowY), k)
            == OfKind([RectAt(h, TableX, rowY, TableWidth, 30.0, RowTint(count))], k)
  {
    var r := [RectAt(h, TableX, rowY, TableWidth, 30.0, RowTint(count))];
    var t1 := TextRun(env, h, item.description, Col1 + 10.0, rowY + 20.0, DescriptionStyle);
    var t2 := TextRun(env, h, env.NumberString(item.quantity), Col2, rowY + 20.0, CellStyle);
    var t3 := TextRun(env, h, Money(env, item.price), Col3, rowY + 20.0, CellStyle);
    DropRun(r + t1 + t2 + t3, env, h, Money(env, Amount(item)), Col4, rowY + 20.0, AmountStyle, k);
    DropRun(r + t1 + t2, env, h, Money(env, item.price), Col3, rowY + 20.0, CellStyle, k);
    DropRun(r + t1, env, h, env.NumberString(item.quantity), Col2, rowY + 20.0, CellStyle, k);
    DropRun(r, env, h, item.description, Col1 + 10.0, rowY + 20.0, DescriptionStyle, k);
  }

  lemma {:induction false} TotalsShapes(env: Env, h: real, items: seq<Item>, tableY: real, k: Kind)
    requires k != TextKind
    ensures OfKind(TotalsCommands(env, h, items, tableY), k)
            == OfKind([RectAt(h, Col3 - 80.0, tableY + 50.0, Col4 + 50.0 - (Col3 - 80.0), 40.0, Primary)], k)
  {
    var subtotal := Subtotal(items);
    var tax := subtotal * TaxRate;
    var total := subtotal + tax;
    var r := [RectAt(h, Col3 - 80.0, tableY + 50.0, Col4 + 50.0 - (Col3 - 80.0), 40.0, Primary)];
    var t1 := TextRun(env, h, "Subtotal:", Col3 - 70.0, tableY + 10.0, TotalsLabelStyle);
    var t2 := TextRun(env, h, Money(env, subtotal), Col4, tableY + 10.0, TotalsFigureStyle);
    var t3 := TextRun(env, h, TaxLabel(env), Col3 - 70.0, tableY + 30.0, TotalsLabelStyle);
    var t4 := TextRun(env, h, Money(env, tax), Col4, tableY + 30.0, TotalsFigureStyle);
    var t5 := TextRun(env, h, "TOTAL:", Col3 - 25.0, tableY + 70.0, GrandTotalStyle);
    var before := t1 + t2 + t3 + t4;
    DropRun(before + r + t5, env, h, Money(env, total), Col4, tableY + 70.0, GrandTotalStyle, k);
    DropRun(before + r, env, h, "TOTAL:", Col3 - 25.0, tableY + 70.0, GrandTotalStyle, k);
    OfKindConcat(before, r, k);
    DropRun(t1 + t2 + t3, env, h, Money(env, tax), Col4, tableY + 30.0, TotalsFigureStyle, k);
    DropRun(t1 + t2, env, h, TaxLabel(env), Col3 - 70.0, tableY + 30.0, TotalsLabelStyle, k);
    DropRun(t1, env, h, Money(env, subtotal), Col4, tableY + 10.0, TotalsFigureStyle, k);
    DropRun([], env, h, "Subtotal:", Col3 - 70.0, tableY + 10.0, TotalsLabelStyle, k);
    assert [] + t1 == t1;
  }

  lemma FooterShapes(env: Env, w: real, h: real, k: Kind)
    requires k != TextKind
    ensures OfKind(FooterCommands(env, w, h), k)
            == OfKind([SegmentAt(h, TableX, h - 70.0, w - TableX, h - 70.0, 1.0, MediumGray)], k)
  {
    var rule := [SegmentAt(h, TableX, h - 70.0, w - TableX, h - 70.0, 1.0, MediumGray)];
    var t1 := TextRun(env, h, ThanksLine, w / 2.0, h - 30.0, ThanksStyle);
    var t2 := TextRun(env, h, TermsLine, w / 2.0, h - 45.0, TermsStyle);
    var t3 := TextRun(env, h, PageNumberLine, w - 50.0, h - 30.0, PageNumberStyle);
    FooterSections(env, w, h, h - 50.0);
    FooterRuleY(w, h);
    RunNone(env, h, ThanksLine, w / 2.0, h - 30.0, ThanksStyle, k);
    RunNone(env, h, TermsLine, w / 2.0, h - 45.0, TermsStyle, k);
    RunNone(env, h, PageNumberLine, w - 50.0, h - 30.0, PageNumberStyle, k);
    OfKindJoin4(FooterCommands(env, w, h), rule, t1, t2, t3, OfKind(rule, k), [], [], [], k);
    Regroup(OfKind(rule, k), [], [], []);
  }

  /** A text run holds no shape. */
  lemma RunNone(env: Env, h: real, text: string, x: real, y: real, o: TextOptions, k: Kind)
    requires k != TextKind
    ensures OfKind(TextRun(env, h, text, x, y, o), k) == []
  {
    TextRunIsText(env, h, text, x, y, o);
    OfKindNone(TextRun(env, h, text, x, y, o), k);
  }

  /** The rule is drawn 20 below the footer line, which is 50 above the bottom. */
  lemma FooterRuleY(w: real, h: real)
    ensures SegmentAt(h, TableX, h - 50.0 - 20.0, w - TableX, h - 50.0 - 20.0, 1.0, MediumGray)
            == SegmentAt(h, TableX, h - 70.0, w - TableX, h - 70.0, 1.0, MediumGray)
  {
  }

  // ---------------------------------------------------------------------------
  // The table rows.

  /** The band of invoice row `i` (counted from 1), with the template's numbers. */
  function RowBand(h: real, i: nat): DrawCommand
    requires i >= 1
  {
    Rectangle(50.0, h - (390.0 + 30.0 * (i - 1) as real) - 30.0, 530.0, 30.0, if i % 2 == 0 then LightGray else White)
  }

  /** The bands of rows 1 to `n`, in order. */
  function RowBands(h: real, n: nat): (r: seq<DrawCommand>)
    ensures |r| == n
    ensures forall i :: 1 <= i <= n ==> r[i - 1] == RowBand(h, i)
  {
    seq(n, j requires 0 <= j < n => RowBand(h, j + 1))
  }

  /** A list with one command keeps it exactly when it has the kind asked for. */
  lemma KeepOne(c: DrawCommand, k: Kind)
    ensures OfKind([c], k) == if KindOf(c) == k then [c] else []
  {
    assert [c][1..] == [];
  }

  /** A list with two commands keeps those of the kind asked for. */
  lemma KeepTwo(c: DrawCommand, d: DrawCommand, k: Kind)
    ensures OfKind([c, d], k) == (if KindOf(c) == k then [c] else []) + (if KindOf(d) == k then [d] else [])
  {
    assert [c, d][1..] == [d];
    KeepOne(d, k);
  }

  /** The band the loop draws for counter `n` is the band of row `n`. */
  lemma LoopBand(h: real, n: nat, rowY: real)
    requires n >= 1 && rowY == TableTop + RowPitch + RowPitch * (n - 1) as real
    ensures RectAt(h, TableX, rowY, TableWidth, 30.0, RowTint(n)) == RowBand(h, n)
  {
  }

  /** The shapes of one row: its band, and nothing else. */
  lemma {:induction false} RowKind(env: Env, h: real, count: nat, item: Item, rowY: real, k: Kind)
    requires k != TextKind
    ensures OfKind(RowCommands(env, h, count, item, rowY), k)
            == if k == RectangleKind then [RectAt(h, TableX, rowY, TableWidth, 30.0, RowTint(count))] else []
  {
    RowShapes(env, h, count, item, rowY, k);
    KeepOne(RectAt(h, TableX, rowY, TableWidth, 30.0, RowTint(count)), k);
  }

  /** The row loop, one step back: the rows before the last item, then the last item's row. */
  lemma RowsUnfold(env: Env, h: real, items: seq<Item>, startY: real)
    requires items != []
    ensures TableRows(env, h, items, startY)
            == TableRows(env, h, items[..|items| - 1], startY) + RowCommands(env, h, |items|, items[|items| - 1], startY + RowPitch * (|items| - 1) as real)
  {
  }

  /**
   * Table rows: for N items there are exactly N row bands, in input order,
   * at x = 50; row i has its top at y = 390 + 30(i − 1), is 530 wide and 30
   * high, and is light grey exactly when i is even.
   */
  lemma TableRowBands(env: Env, h: real, items: seq<Item>)
    ensures OfKind(TableRows(env, h, items, TableTop + RowPitch), RectangleKind) == RowBands(h, |items|)
  {
    RowsFlatten(env, h, items, TableTop + RowPitch);
    RowListBands(env, h, items);
    FlattenSingles(RowList(env, h, items, TableTop + RowPitch), RowBands(h, |items|), RectangleKind);
  }

  /** Row i of the list has the band of counter i + 1 as its one rectangle. */
  lemma RowListBands(env: Env, h: real, items: seq<Item>)
    ensures forall i :: 0 <= i < |items| ==>
              OfKind(RowList(env, h, items, TableTop + RowPitch)[i], RectangleKind) == [RowBands(h, |items|)[i]]
  {
    forall i | 0 <= i < |items|
      ensures OfKind(RowList(env, h, items, TableTop + RowPitch)[i], RectangleKind) == [RowBands(h, |items|)[i]]
    {
      RowBandOf(env, h, i + 1, items[i], TableTop + RowPitch + RowPitch * i as real);
      assert RowBands(h, |items|)[i] == RowBand(h, i + 1);
    }
  }

  /** The rectangle of the row the loop draws for counter `n` is the band of row `n`. */
  lemma RowBandOf(env: Env, h: real, n: nat, item: Item, rowY: real)
    requires n >= 1 && rowY == TableTop + RowPitch + RowPitch * (n - 1) as real
    ensures OfKind(RowCommands(env, h, n, item, rowY), RectangleKind) == [RowBand(h, n)]
  {
    RowKind(env, h, n, item, rowY, RectangleKind);
    LoopBand(h, n, rowY);
  }

  /** Table rows hold no circles and no lines. */
  lemma RowsHaveNoOtherShapes(env: Env, h: real, items: seq<Item>, startY: real, k: Kind)
    requires k == CircleKind || k == LineKind
    ensures NoneOf(TableRows(env, h, items, startY), k)
  {
    RowsFlatten(env, h, items, startY);
    RowListNone(env, h, items, startY, k);
  }

  /** No row of the row list holds a circle or a line. */
  lemma RowListNone(env: Env, h: real, items: seq<Item>, startY: real, k: Kind)
    requires k == CircleKind || k == LineKind
    ensures NoneOf(Flatten(RowList(env, h, items, startY)), k)
  {
    forall i | 0 <= i < |items|
      ensures NoneOf(RowList(env, h, items, startY)[i], k)
    {
      RowNone(env, h, i + 1, items[i], startY + RowPitch * i as real, k);
    }
    FlattenNone(RowList(env, h, items, startY), k);
  }

  /** The row loop's output, one list of commands per item. */
  function RowList(env: Env, h: real, items: seq<Item>, startY: real): (r: seq<seq<DrawCommand>>)
    ensures |r| == |items|
  {
    seq(|items|, i requires 0 <= i < |items| => RowCommands(env, h, i + 1, items[i], startY + RowPitch * i as real))
  }

  /** The lists of `rows`, one after another. */
  function Flatten(rows: seq<seq<DrawCommand>>): seq<DrawCommand>
    decreases |rows|
  {
    if rows == [] then [] else Flatten(rows[..|rows| - 1]) + rows[|rows| - 1]
  }

  /** A flattening of lists with nothing of kind `k` has nothing of kind `k`. */
  lemma {:induction false} FlattenNone(rows: seq<seq<DrawCommand>>, k: Kind)
    requires forall i :: 0 <= i < |rows| ==> NoneOf(rows[i], k)
    ensures NoneOf(Flatten(rows), k)
    decreases |rows|
  {
    if rows != [] {
      var n := |rows|;
      FlattenNone(rows[..n - 1], k);
      NoneOfJoin(Flatten(rows), Flatten(rows[..n - 1]), rows[n - 1], k);
    }
  }

  /** Lists each holding one command of kind `k` flatten into a list whose commands of kind `k` are those, in order. */
  lemma {:induction false} FlattenSingles(rows: seq<seq<DrawCommand>>, picks: seq<DrawCommand>, k: Kind)
    requires |picks| == |rows|
    requires forall i :: 0 <= i < |rows| ==> OfKind(rows[i], k) == [picks[i]]
    ensures OfKind(Flatten(rows), k) == picks
    decreases |rows|
  {
    if rows != [] {
      var n := |rows|;
      FlattenSingles(rows[..n - 1], picks[..n - 1], k);
      OfKindOfJoin(Flatten(rows), Flatten(rows[..n - 1]), rows[n - 1], k);
      assert picks == picks[..n - 1] + [picks[n - 1]];
    }
  }

  /** The table rows are the flattening of the row list. */
  lemma {:induction false} RowsFlatten(env: Env, h: real, items: seq<Item>, startY: real)
    ensures TableRows(env, h, items, startY) == Flatten(RowList(env, h, items, startY))
    decreases |items|
  {
    if items != [] {
      var n := |items|;
      RowsFlatten(env, h, items[..n - 1], startY);
      RowsUnfold(env, h, items, startY);
      RowListSnoc(env, h, items, startY);
    }
  }

  /** The row list of a longer list: that of the list without its last item, then that item's row. */
  lemma RowListSnoc(env: Env, h: real, items: seq<Item>, startY: real)
    requires items != []
    ensures Flatten(RowList(env, h, items, startY))
            == Flatten(RowList(env, h, items[..|items| - 1], startY)) + RowCommands(env, h, |items|, items[|items| - 1], startY + RowPitch * (|items| - 1) as real)
  {
    var n := |items|;
    var rows := RowList(env, h, items, startY);
    assert rows[..n - 1] == RowList(env, h, items[..n - 1], startY);
  }

  /** A row holds no circle and no line. */
  lemma RowNone(env: Env, h: real, count: nat, item: Item, rowY: real, k: Kind)
    requires k == CircleKind || k == LineKind
    ensures NoneOf(RowCommands(env, h, count, item, rowY), k)
  {
    RowKind(env, h, count, item, rowY, k);
  }

  /**
   * Each row writes four texts in order: the description wrapped at 260
   * (one command per line), the quantity, the price and the amount
   * `quantity * price`, all with their baseline 20 below the row's top.
   */
  lemma {:induction false} RowTexts(env: Env, h: real, count: nat, item: Item, rowY: real)
    ensures OfKind(RowCommands(env, h, count, item, rowY), TextKind)
            == TextRun(env, h, item.description, Col1 + 10.0, rowY + 20.0, DescriptionStyle)
               + TextRun(env, h, env.NumberString(item.quantity), Col2, rowY + 20.0, CellStyle)
               + TextRun(env, h, Money(env, item.price), Col3, rowY + 20.0, CellStyle)
               + TextRun(env, h, Money(env, item.quantity * item.price), Col4, rowY + 20.0, AmountStyle)
    ensures |OfKind(RowCommands(env, h, count, item, rowY), TextKind)|
            == |WrapLines(PenFor(env, DescriptionStyle), 260.0, item.description)| + 3
  {
    var r := [RectAt(h, TableX, rowY, TableWidth, 30.0, RowTint(count))];
    var t1 := TextRun(env, h, item.description, Col1 + 10.0, rowY + 20.0, DescriptionStyle);
    var t2 := TextRun(env, h, env.NumberString(item.quantity), Col2, rowY + 20.0, CellStyle);
    var t3 := TextRun(env, h, Money(env, item.price), Col3, rowY + 20.0, CellStyle);
    var t4 := TextRun(env, h, Money(env, Amount(item)), Col4, rowY + 20.0, AmountStyle);
    TextRunIsText(env, h, item.description, Col1 + 10.0, rowY + 20.0, DescriptionStyle);
    TextRunIsText(env, h, env.NumberString(item.quantity), Col2, rowY + 20.0, CellStyle);
    TextRunIsText(env, h, Money(env, item.price), Col3, rowY + 20.0, CellStyle);
    TextRunIsText(env, h, Money(env, Amount(item)), Col4, rowY + 20.0, AmountStyle);
    RowTextsJoin(r, t1, t2, t3, t4);
    assert RowCommands(env, h, count, item, rowY) == r + t1 + t2 + t3 + t4;
    assert |t2| == 1 && |t3| == 1 && |t4| == 1;
    assert Amount(item) == item.quantity * item.price;
    assert t4 == TextRun(env, h, Money(env, item.quantity * item.price), Col4, rowY + 20.0, AmountStyle);
  }

  /** A shape followed by four text runs: picking the text keeps the four runs. */
  lemma {:induction false} RowTextsJoin(r: seq<DrawCommand>, t1: seq<DrawCommand>, t2: seq<DrawCommand>, t3: seq<DrawCommand>, t4: seq<DrawCommand>)
    requires |r| == 1 && KindOf(r[0]) != TextKind
    requires forall j :: 0 <= j < |t1| ==> KindOf(t1[j]) == TextKind
    requires forall j :: 0 <= j < |t2| ==> KindOf(t2[j]) == TextKind
    requires forall j :: 0 <= j < |t3| ==> KindOf(t3[j]) == TextKind
    requires forall j :: 0 <= j < |t4| ==> KindOf(t4[j]) == TextKind
    ensures OfKind(r + t1 + t2 + t3 + t4, TextKind) == t1 + t2 + t3 + t4
  {
    var texts := t1 + t2 + t3 + t4;
    assert r + t1 + t2 + t3 + t4 == r + texts;
    assert forall j :: 0 <= j < |texts| ==> KindOf(texts[j]) == TextKind;
    OfKindAll(texts, TextKind);
    OfKindConcat(r, texts, TextKind);
    assert OfKind(r, TextKind) == [];
    assert [] + texts == texts;
  }

  // ---------------------------------------------------------------------------
  // Totals.

  /** The subtotal of two runs of items is the sum of their subtotals. */
  lemma {:induction false} SubtotalConcat(a: seq<Item>, b: seq<Item>)
    ensures Subtotal(a + b) == Subtotal(a) + Subtotal(b)
    decreases |b|
  {
    if b == [] {
      assert a + b == a;
    } else {
      var n := |b| - 1;
      assert (a + b)[..|a + b| - 1] == a + b[..n];
      assert (a + b)[|a + b| - 1] == b[n];
      SubtotalConcat(a, b[..n]);
    }
  }

  /** The subtotal sums `quantity * price` from the first item on: the first item's amount plus the rest. */
  lemma {:induction false} SubtotalFirst(items: seq<Item>)
    requires items != []
    ensures Subtotal(items) == items[0].quantity * items[0].price + Subtotal(items[1..])
  {
    SubtotalConcat([items[0]], items[1..]);
    assert [items[0]] + items[1..] == items;
    assert [items[0]][..0] == [];
  }

  /** For schema-valid items (quantity at least 1, price at least 0) the totals are not negative and the total is at least the subtotal. */
  lemma {:induction false} ValidTotalsNonNegative(items: seq<Item>)
    requires forall k :: 0 <= k < |items| ==> ItemValid(items[k])
    ensures Subtotal(items) >= 0.0
    ensures Subtotal(items) * TaxRate >= 0.0
    ensures Subtotal(items) + Subtotal(items) * TaxRate >= Subtotal(items)
    decreases |items|
  {
    if items != [] {
      var n := |items| - 1;
      ValidTotalsNonNegative(items[..n]);
      var it := items[n];
      assert ItemValid(it);
      assert it.quantity * it.price >= 0.0;
    }
  }

  /**
   * The totals block under N rows, as generatePDF draws it: "Subtotal:" and
   * the subtotal at y = 400 + 30N, the tax line at 420 + 30N, the total band
   * with its top at 440 + 30N and 40 high, and "TOTAL:" with the total at
   * 460 + 30N; labels right-aligned at 360 (405 for "TOTAL:"), figures
   * right-aligned at 530; tax is 10% of the subtotal and the total their sum.
   */
  lemma {:induction false} TotalsPlacement(env: Env, h: real, items: seq<Item>)
    ensures var n := |items| as real;
            var s := Subtotal(items);
            var tax := s * 0.1;
            var total := s + tax;
            TotalsCommands(env, h, items, TableTop + RowPitch + RowPitch * |items| as real) ==
              [Text("Subtotal:", 360.0 - env.width(HelveticaBold, "Subtotal:", 10.0), h - (400.0 + 30.0 * n), 10.0, HelveticaBold, DarkGray),
               Text(Money(env, s), 530.0 - env.width(Helvetica, Money(env, s), 10.0), h - (400.0 + 30.0 * n), 10.0, Helvetica, DarkGray),
               Text(TaxLabel(env), 360.0 - env.width(HelveticaBold, TaxLabel(env), 10.0), h - (420.0 + 30.0 * n), 10.0, HelveticaBold, DarkGray),
               Text(Money(env, tax), 530.0 - env.width(Helvetica, Money(env, tax), 10.0), h - (420.0 + 30.0 * n), 10.0, Helvetica, DarkGray),
               Rectangle(350.0, h - (440.0 + 30.0 * n) - 40.0, 230.0, 40.0, Primary),
               Text("TOTAL:", 405.0 - env.width(HelveticaBold, "TOTAL:", 14.0), h - (460.0 + 30.0 * n), 14.0, HelveticaBold, White),
               Text(Money(env, total), 530.0 - env.width(HelveticaBold, Money(env, total), 14.0), h - (460.0 + 30.0 * n), 14.0, HelveticaBold, White)]
  {
  }

  // ---------------------------------------------------------------------------
  // The whole page.

  /** Picking commands of one kind from the three parts of the page. */
  lemma ThreeParts(p: seq<DrawCommand>, t: seq<DrawCommand>, f: seq<DrawCommand>, k: Kind)
    ensures OfKind(p + t + f, k) == OfKind(p, k) + OfKind(t, k) + OfKind(f, k)
  {
    OfKindConcat(p + t, f, k);
    OfKindConcat(p, t, k);
  }

  /** The four parts above the table. */
  lemma PartiesParts(env: Env, w: real, h: real, data: InvoiceForm)
    ensures PartiesCommands(env, w, h, data)
            == HeaderCommands(env, w, h, data.date) + BadgeCommands(env, h, data.invoiceNumber)
               + CompanyCommands(env, h) + ClientCommands(env, h, data.clientName)
  {
  }

  /** The header's shapes of one kind: its band and its accent bar are rectangles. */
  lemma HeaderKinds(env: Env, w: real, h: real, date: Date, k: Kind)
    requires k != TextKind
    ensures OfKind(HeaderCommands(env, w, h, date), k)
            == if k == RectangleKind then [RectAt(h, 0.0, 0.0, w, 120.0, Primary), RectAt(h, w - 200.0, 60.0, 200.0, 30.0, Accent)]
               else []
  {
    HeaderShapes(env, w, h, date, k);
    KeepTwo(RectAt(h, 0.0, 0.0, w, 120.0, Primary), RectAt(h, w - 200.0, 60.0, 200.0, 30.0, Accent), k);
  }

  /** The badge's shapes of one kind: its two circles. */
  lemma BadgeKinds(env: Env, h: real, invoiceNumber: string, k: Kind)
    requires k != TextKind
    ensures OfKind(BadgeCommands(env, h, invoiceNumber), k)
            == if k == CircleKind then [Circle(BadgeX, h - BadgeY, BadgeRadius * 2.0, Accent),
                                        Circle(BadgeX, h - BadgeY, (BadgeRadius - 3.0) * 2.0, White)]
               else []
  {
    BadgeShapes(env, h, invoiceNumber, k);
    KeepTwo(Circle(BadgeX, h - BadgeY, BadgeRadius * 2.0, Accent), Circle(BadgeX, h - BadgeY, (BadgeRadius - 3.0) * 2.0, White), k);
  }

  /** The client block's shapes of one kind: its box is a rectangle. */
  lemma ClientKinds(env: Env, h: real, clientName: string, k: Kind)
    requires k != TextKind
    ensures OfKind(ClientCommands(env, h, clientName), k)
            == if k == RectangleKind then [RectAt(h, ClientX - 10.0, ClientY - 15.0, 300.0, 100.0, LightGray)] else []
  {
    ClientShapes(env, h, clientName, k);
    KeepOne(RectAt(h, ClientX - 10.0, ClientY - 15.0, 300.0, 100.0, LightGray), k);
  }

  /** The rectangles above the table: header band, accent bar and client box. */
  lemma PartiesRectangles(env: Env, w: real, h: real, data: InvoiceForm)
    ensures OfKind(PartiesCommands(env, w, h, data), RectangleKind) ==
              [RectAt(h, 0.0, 0.0, w, 120.0, Primary), RectAt(h, w - 200.0, 60.0, 200.0, 30.0, Accent),
               RectAt(h, ClientX - 10.0, ClientY - 15.0, 300.0, 100.0, LightGray)]
  {
    var k := RectangleKind;
    var r1, r2 := RectAt(h, 0.0, 0.0, w, 120.0, Primary), RectAt(h, w - 200.0, 60.0, 200.0, 30.0, Accent);
    var r3 := RectAt(h, ClientX - 10.0, ClientY - 15.0, 300.0, 100.0, LightGray);
    assert [r1, r2] + [r3] == [r1, r2, r3];
    PartiesParts(env, w, h, data);
    HeaderKinds(env, w, h, data.date, k);
    BadgeKinds(env, h, data.invoiceNumber, k);
    CompanyShapes(env, h, k);
    ClientKinds(env, h, data.clientName, k);
    OfKindJoin4(PartiesCommands(env, w, h, data), HeaderCommands(env, w, h, data.date), BadgeCommands(env, h, data.invoiceNumber),
                CompanyCommands(env, h), ClientCommands(env, h, data.clientName), [r1, r2], [], [], [r3], k);
    Regroup([r1, r2], [], [], []);
  }

  /** The circles above the table: the two badge circles. */
  lemma PartiesCircles(env: Env, w: real, h: real, data: InvoiceForm)
    ensures OfKind(PartiesCommands(env, w, h, data), CircleKind) ==
              [Circle(BadgeX, h - BadgeY, BadgeRadius * 2.0, Accent), Circle(BadgeX, h - BadgeY, (BadgeRadius - 3.0) * 2.0, White)]
  {
    var k := CircleKind;
    var c1 := Circle(BadgeX, h - BadgeY, BadgeRadius * 2.0, Accent);
    var c2 := Circle(BadgeX, h - BadgeY, (BadgeRadius - 3.0) * 2.0, White);
    PartiesParts(env, w, h, data);
    HeaderKinds(env, w, h, data.date, k);
    BadgeKinds(env, h, data.invoiceNumber, k);
    CompanyShapes(env, h, k);
    ClientKinds(env, h, data.clientName, k);
    OfKindJoin4(PartiesCommands(env, w, h, data), HeaderCommands(env, w, h, data.date), BadgeCommands(env, h, data.invoiceNumber),
                CompanyCommands(env, h), ClientCommands(env, h, data.clientName), [], [c1, c2], [], [], k);
    Regroup([c1, c2], [], [], []);
  }

  /** The table header's one rectangle. */
  lemma {:induction false} TableHeaderRectangle(env: Env, h: real, tableY: real)
    ensures OfKind(TableHeaderCommands(env, h, tableY), RectangleKind) == [RectAt(h, TableX, tableY, TableWidth, 30.0, Primary)]
  {
    TableHeaderShapes(env, h, tableY, RectangleKind);
    KeepOne(RectAt(h, TableX, tableY, TableWidth, 30.0, Primary), RectangleKind);
  }

  /** The totals' one rectangle, the band behind the grand total. */
  lemma {:induction false} TotalsRectangle(env: Env, h: real, items: seq<Item>, tableY: real)
    ensures OfKind(TotalsCommands(env, h, items, tableY), RectangleKind)
            == [RectAt(h, Col3 - 80.0, tableY + 50.0, Col4 + 50.0 - (Col3 - 80.0), 40.0, Primary)]
  {
    TotalsShapes(env, h, items, tableY, RectangleKind);
    KeepOne(RectAt(h, Col3 - 80.0, tableY + 50.0, Col4 + 50.0 - (Col3 - 80.0), 40.0, Primary), RectangleKind);
  }

  /** The table's rectangles: its header, the row bands and the total band. */
  lemma {:induction false} TableRectangles(env: Env, h: real, items: seq<Item>)
    ensures OfKind(TableCommands(env, h, items), RectangleKind) ==
              [RectAt(h, TableX, TableTop, TableWidth, 30.0, Primary)]
              + RowBands(h, |items|)
              + [RectAt(h, Col3 - 80.0, TableTop + RowPitch + RowPitch * |items| as real + 50.0,
                        Col4 + 50.0 - (Col3 - 80.0), 40.0, Primary)]
  {
    var totalsY := TableTop + RowPitch + RowPitch * |items| as real;
    TableParts(env, h, items);
    TableHeaderRectangle(env, h, TableTop);
    TableRowBands(env, h, items);
    TotalsRectangle(env, h, items, totalsY);
    OfKindJoin3(TableCommands(env, h, items), TableHeaderCommands(env, h, TableTop),
                TableRows(env, h, items, TableTop + RowPitch), TotalsCommands(env, h, items, totalsY),
                [RectAt(h, TableX, TableTop, TableWidth, 30.0, Primary)], RowBands(h, |items|),
                [RectAt(h, Col3 - 80.0, totalsY + 50.0, Col4 + 50.0 - (Col3 - 80.0), 40.0, Primary)], RectangleKind);
  }

  /** The table holds no circles and no lines. */
  lemma TableHasNoOtherShapes(env: Env, h: real, items: seq<Item>, k: Kind)
    requires k == CircleKind || k == LineKind
    ensures OfKind(TableCommands(env, h, items), k) == []
  {
    var totalsY := TableTop + RowPitch + RowPitch * |items| as real;
    TableParts(env, h, items);
    TableHeaderNone(env, h, TableTop, k);
    RowsHaveNoOtherShapes(env, h, items, TableTop + RowPitch, k);
    TotalsNone(env, h, items, totalsY, k);
    NoneOfJoin3(TableCommands(env, h, items), TableHeaderCommands(env, h, TableTop),
                TableRows(env, h, items, TableTop + RowPitch), TotalsCommands(env, h, items, totalsY), k);
  }

  /** The table is its header, its rows and its totals block. */
  lemma TableParts(env: Env, h: real, items: seq<Item>)
    ensures TableCommands(env, h, items)
            == TableHeaderCommands(env, h, TableTop) + TableRows(env, h, items, TableTop + RowPitch)
               + TotalsCommands(env, h, items, TableTop + RowPitch + RowPitch * |items| as real)
  {
  }

  /** The column heads hold no circle and no line. */
  lemma TableHeaderNone(env: Env, h: real, tableY: real, k: Kind)
    requires k == CircleKind || k == LineKind
    ensures NoneOf(TableHeaderCommands(env, h, tableY), k)
  {
    TableHeaderShapes(env, h, tableY, k);
    KeepOne(RectAt(h, TableX, tableY, TableWidth, 30.0, Primary), k);
  }

  /** The totals block holds no circle and no line. */
  lemma TotalsNone(env: Env, h: real, items: seq<Item>, tableY: real, k: Kind)
    requires k == CircleKind || k == LineKind
    ensures NoneOf(TotalsCommands(env, h, items, tableY), k)
  {
    TotalsShapes(env, h, items, tableY, k);
    KeepOne(RectAt(h, Col3 - 80.0, tableY + 50.0, Col4 + 50.0 - (Col3 - 80.0), 40.0, Primary), k);
  }

  /** The footer holds no rectangles and no circles. */
  lemma {:induction false} FooterHasNoOtherShapes(env: Env, w: real, h: real, k: Kind)
    requires k == RectangleKind || k == CircleKind
    ensures OfKind(FooterCommands(env, w, h), k) == []
  {
    FooterShapes(env, w, h, k);
    KeepOne(SegmentAt(h, TableX, h - 70.0, w - TableX, h - 70.0, 1.0, MediumGray), k);
  }

  lemma FooterRectangles(env: Env, w: real, h: real)
    ensures OfKind(FooterCommands(env, w, h), RectangleKind) == []
  {
    FooterHasNoOtherShapes(env, w, h, RectangleKind);
  }

  /** The commands of one kind on the page, part by part. */
  lemma PageParts(env: Env, w: real, h: real, data: InvoiceForm, k: Kind)
    ensures OfKind(InvoiceLayout(env, w, h, data), k)
            == OfKind(PartiesCommands(env, w, h, data), k) + OfKind(TableCommands(env, h, data.items), k)
               + OfKind(FooterCommands(env, w, h), k)
  {
    ThreeParts(PartiesCommands(env, w, h, data), TableCommands(env, h, data.items), FooterCommands(env, w, h), k);
  }

  /**
   * The page's rectangles, in drawing order: header band, accent bar,
   * client box, table header, one band per item and the total band, placed
   * by the template's constants (`BoxesAt` gives their values).
   */
  lemma {:induction false} PageRectangles(env: Env, w: real, h: real, data: InvoiceForm)
    ensures OfKind(InvoiceLayout(env, w, h, data), RectangleKind) ==
              [RectAt(h, 0.0, 0.0, w, 120.0, Primary), RectAt(h, w - 200.0, 60.0, 200.0, 30.0, Accent),
               RectAt(h, ClientX - 10.0, ClientY - 15.0, 300.0, 100.0, LightGray)]
              + [RectAt(h, TableX, TableTop, TableWidth, 30.0, Primary)]
              + RowBands(h, |data.items|)
              + [RectAt(h, Col3 - 80.0, TableTop + RowPitch + RowPitch * |data.items| as real + 50.0,
                        Col4 + 50.0 - (Col3 - 80.0), 40.0, Primary)]
  {
    PageParts(env, w, h, data, RectangleKind);
    PartiesRectangles(env, w, h, data);
    FooterRectangles(env, w, h);
    TableRectangles(env, h, data.items);
    Regroup([RectAt(h, 0.0, 0.0, w, 120.0, Primary), RectAt(h, w - 200.0, 60.0, 200.0, 30.0, Accent),
             RectAt(h, ClientX - 10.0, ClientY - 15.0, 300.0, 100.0, LightGray)],
            [RectAt(h, TableX, TableTop, TableWidth, 30.0, Primary)],
            RowBands(h, |data.items|),
            [RectAt(h, Col3 - 80.0, TableTop + RowPitch + RowPitch * |data.items| as real + 50.0,
                    Col4 + 50.0 - (Col3 - 80.0), 40.0, Primary)]);
  }

  /**
   * With the template's numbers: the client box is 300 by 100 at (150, 225),
   * the table header 530 by 30 at (50, 360), and for N items the total band
   * is 230 by 40 at (350, 440 + 30N), all measured from the top of the page.
   */
  lemma BoxesAt(h: real, n: nat)
    ensures RectAt(h, ClientX - 10.0, ClientY - 15.0, 300.0, 100.0, LightGray) == RectAt(h, 150.0, 225.0, 300.0, 100.0, LightGray)
    ensures RectAt(h, TableX, TableTop, TableWidth, 30.0, Primary) == RectAt(h, 50.0, 360.0, 530.0, 30.0, Primary)
    ensures RectAt(h, Col3 - 80.0, TableTop + RowPitch + RowPitch * n as real + 50.0, Col4 + 50.0 - (Col3 - 80.0), 40.0, Primary)
            == RectAt(h, 350.0, 440.0 + 30.0 * n as real, 230.0, 40.0, Primary)
  {
  }

  /** The circles on the page, part by part: the badge's two, and none in the table or the footer. */
  lemma {:induction false} PageCircles(env: Env, w: real, h: real, data: InvoiceForm)
    ensures OfKind(InvoiceLayout(env, w, h, data), CircleKind) ==
              [Circle(BadgeX, h - BadgeY, BadgeRadius * 2.0, Accent), Circle(BadgeX, h - BadgeY, (BadgeRadius - 3.0) * 2.0, White)]
  {
    PageParts(env, w, h, data, CircleKind);
    PartiesCircles(env, w, h, data);
    TableCircles(env, h, data.items);
    FooterCircles(env, w, h);
    var badge := [Circle(BadgeX, h - BadgeY, BadgeRadius * 2.0, Accent), Circle(BadgeX, h - BadgeY, (BadgeRadius - 3.0) * 2.0, White)];
    Regroup(badge, [], [], []);
  }

  /** With the template's numbers, the badge is centred at (80, 180) from the top, sizes 80 and 74. */
  lemma BadgeCirclesAt(h: real)
    ensures [Circle(BadgeX, h - BadgeY, BadgeRadius * 2.0, Accent), Circle(BadgeX, h - BadgeY, (BadgeRadius - 3.0) * 2.0, White)]
            == [Circle(80.0, h - 180.0, 80.0, Accent), Circle(80.0, h - 180.0, 74.0, White)]
  {
  }

  lemma TableCircles(env: Env, h: real, items: seq<Item>)
    ensures OfKind(TableCommands(env, h, items), CircleKind) == []
  {
    TableHasNoOtherShapes(env, h, items, CircleKind);
  }

  lemma FooterCircles(env: Env, w: real, h: real)
    ensures OfKind(FooterCommands(env, w, h), CircleKind) == []
  {
    FooterHasNoOtherShapes(env, w, h, CircleKind);
  }

  lemma TableLines(env: Env, h: real, items: seq<Item>)
    ensures OfKind(TableCommands(env, h, items), LineKind) == []
  {
    TableHasNoOtherShapes(env, h, items, LineKind);
  }

  /** Nothing above the table is a line. */
  lemma PartiesLines(env: Env, w: real, h: real, data: InvoiceForm)
    ensures OfKind(PartiesCommands(env, w, h, data), LineKind) == []
  {
    var k := LineKind;
    PartiesParts(env, w, h, data);
    HeaderKinds(env, w, h, data.date, k);
    BadgeKinds(env, h, data.invoiceNumber, k);
    CompanyShapes(env, h, k);
    ClientKinds(env, h, data.clientName, k);
    OfKindJoin4(PartiesCommands(env, w, h, data), HeaderCommands(env, w, h, data.date), BadgeCommands(env, h, data.invoiceNumber),
                CompanyCommands(env, h), ClientCommands(env, h, data.clientName), [], [], [], [], k);
  }

  /** The footer's one line, its rule. */
  lemma {:induction false} FooterLines(env: Env, w: real, h: real)
    ensures OfKind(FooterCommands(env, w, h), LineKind) == [SegmentAt(h, TableX, h - 70.0, w - TableX, h - 70.0, 1.0, MediumGray)]
  {
    FooterShapes(env, w, h, LineKind);
    KeepOne(SegmentAt(h, TableX, h - 70.0, w - TableX, h - 70.0, 1.0, MediumGray), LineKind);
  }

  /**
   * The page's only line is the footer rule, drawn 70 above the bottom of
   * the page from x = 50 to width − 50 (the page's own y of its ends is 70).
   */
  lemma {:induction false} PageLines(env: Env, w: real, h: real, data: InvoiceForm)
    ensures OfKind(InvoiceLayout(env, w, h, data), LineKind) ==
              [SegmentAt(h, TableX, h - 70.0, w - TableX, h - 70.0, 1.0, MediumGray)]
  {
    PageParts(env, w, h, data, LineKind);
    PartiesLines(env, w, h, data);
    TableLines(env, h, data.items);
    FooterLines(env, w, h);
    var rule := [SegmentAt(h, TableX, h - 70.0, w - TableX, h - 70.0, 1.0, MediumGray)];
    Regroup(rule, [], [], []);
  }

  /** The footer rule with the template's numbers. */
  lemma FooterRuleAt(w: real, h: real)
    ensures SegmentAt(h, TableX, h - 70.0, w - TableX, h - 70.0, 1.0, MediumGray) == Line(50.0, 70.0, w - 50.0, 70.0, 1.0, MediumGray)
  {
  }

  // ---------------------------------------------------------------------------
  // The badge.

  /**
   * The badge text is the invoice number with its first "INV-" removed, and
   * the number unchanged if it holds no "INV-".
   */
  lemma {:induction false} BadgeRemovesFirstPrefix(s: string)
    ensures (forall j: nat :: !OccursAt(s, "INV-", j)) ==> BadgeText(s) == s
    ensures forall i: nat :: OccursAt(s, "INV-", i) && (forall j: nat :: j < i ==> !OccursAt(s, "INV-", j))
              ==> BadgeText(s) == s[..i] + s[i + 4..]
  {
    IndexOfFirst(s, "INV-");
    ReplaceFirstAtIndex(s, "INV-", "");
    match IndexOf(s, "INV-")
    case None =>
    case Some(k) =>
      forall i: nat | OccursAt(s, "INV-", i) && (forall j: nat :: j < i ==> !OccursAt(s, "INV-", j))
        ensures BadgeText(s) == s[..i] + s[i + 4..]
      {
        assert !(k < i);
        assert s[..k] + "" + s[k + 4..] == s[..k] + s[k + 4..];
      }
  }

  /** A number written "INV-" + t shows t in the badge. */
  lemma {:induction false} BadgeOfPrefixed(t: string)
    ensures BadgeText("INV-" + t) == t
  {
    var s := "INV-" + t;
    assert s[..4] == "INV-";
    assert s[4..] == t;
  }
}

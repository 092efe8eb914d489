/**
 * The drawing surface of lib/pdf-generator.ts, standing in for a pdf-lib page:
 * a fixed-size page keeps an append-only log of the drawing commands issued to
 * it, in the page's own bottom-up coordinates. Nothing is rasterised; the
 * log is what the layout is judged by.
 */
module PdfPage {

  /** An `rgb(r, g, b)` colour, carried on commands as a tag. */
  datatype Color = Rgb(red: real, green: real, blue: real)

  /** The five standard fonts the renderer embeds. */
  datatype FontFace = Helvetica | HelveticaBold | TimesRoman | TimesRomanBold | TimesRomanItalic

  /** One drawing call, with the arguments pdf-lib receives. */
  datatype DrawCommand =
    | Text(content: string, x: real, y: real, size: real, font: FontFace, color: Color)
    | Rectangle(x: real, y: real, width: real, height: real, color: Color)
    | Line(startX: real, startY: real, endX: real, endY: real, thickness: real, color: Color)
    | Circle(x: real, y: real, size: real, color: Color)

  /** A page: its size, fixed when it is added, and the commands drawn on it so far. */
  class Page {
    const width: real
    const height: real
    var log: seq<DrawCommand>

    /** `pdfDoc.addPage([width, height])`: a blank page. */
    constructor (width: real, height: real)
      ensures this.width == width && this.height == height
      ensures log == []
    {
      this.width := width;
      this.height := height;
      log := [];
    }

    /** `page.drawText`. */
    method DrawText(content: string, x: real, y: real, size: real, font: FontFace, color: Color)
      modifies this
      ensures log == old(log) + [Text(content, x, y, size, font, color)]
    {
      log := log + [Text(content, x, y, size, font, color)];
    }

    /** `page.drawRectangle`. */
    method DrawRectangle(x: real, y: real, width: real, height: real, color: Color)
      modifies this
      ensures log == old(log) + [Rectangle(x, y, width, height, color)]
    {
      log := log + [Rectangle(x, y, width, height, color)];
    }

    /** `page.drawLine`. */
    method DrawLine(startX: real, startY: real, endX: real, endY: real, thickness: real, color: Color)
      modifies this
      ensures log == old(log) + [Line(startX, startY, endX, endY, thickness, color)]
    {
      log := log + [Line(startX, startY, endX, endY, thickness, color)];
    }

    /** `page.drawCircle`. */
    method DrawCircle(x: real, y: real, size: real, color: Color)
      modifies this
      ensures log == old(log) + [Circle(x, y, size, color)]
    {
      log := log + [Circle(x, y, size, color)];
    }
  }

  /** Regrouping a log that grows by appending. */
  lemma AppendAssoc(a: seq<DrawCommand>, b: seq<DrawCommand>, c: seq<DrawCommand>)
    ensures a + b + c == a + (b + c)
  {
  }

  /** Four drawing calls in a row append their four runs, in order. */
  lemma LogSteps4(l0: seq<DrawCommand>, l1: seq<DrawCommand>, l2: seq<DrawCommand>, l3: seq<DrawCommand>, l4: seq<DrawCommand>,
                  a: seq<DrawCommand>, b: seq<DrawCommand>, c: seq<DrawCommand>, d: seq<DrawCommand>)
    requires l1 == l0 + a && l2 == l1 + b && l3 == l2 + c && l4 == l3 + d
    ensures l4 == l0 + (a + b + c + d)
  {
  }

  /** Runs of commands regroup freely, and an empty run adds nothing. */
  lemma Regroup(a: seq<DrawCommand>, b: seq<DrawCommand>, c: seq<DrawCommand>, d: seq<DrawCommand>)
    ensures a + [] == a && [] + a == a
    ensures a + (b + c + d) + [] == a + b + c + d
  {
  }

  /** The kind of a command, for picking out the commands of one kind. */
  datatype Kind = TextKind | RectangleKind | LineKind | CircleKind

  function KindOf(c: DrawCommand): Kind {
    match c
    case Text(_, _, _, _, _, _) => TextKind
    case Rectangle(_, _, _, _, _) => RectangleKind
    case Line(_, _, _, _, _, _) => LineKind
    case Circle(_, _, _, _) => CircleKind
  }

  /** The commands of kind `k` in `cmds`, in order. */
  function OfKind(cmds: seq<DrawCommand>, k: Kind): (r: seq<DrawCommand>)
    ensures |r| <= |cmds|
    decreases |cmds|
  {
    if cmds == [] then []
    else (if KindOf(cmds[0]) == k then [cmds[0]] else []) + OfKind(cmds[1..], k)
  }

  /** Picking out commands of one kind distributes over concatenation. */
  lemma {:induction false} OfKindConcat(a: seq<DrawCommand>, b: seq<DrawCommand>, k: Kind)
    ensures OfKind(a + b, k) == OfKind(a, k) + OfKind(b, k)
    decreases |a|
  {
    if a != [] {
      assert (a + b)[0] == a[0];
      assert (a + b)[1..] == a[1..] + b;
      OfKindConcat(a[1..], b, k);
    } else {
      assert a + b == b;
    }
  }

  /** `OfKindConcat`, for a list known to be the concatenation of two others. */
  lemma OfKindOfJoin(whole: seq<DrawCommand>, prefix: seq<DrawCommand>, last: seq<DrawCommand>, k: Kind)
    requires whole == prefix + last
    ensures OfKind(whole, k) == OfKind(prefix, k) + OfKind(last, k)
  {
    OfKindConcat(prefix, last, k);
  }

  /** The commands of kind `k` in a list made of three parts, from those of each part. */
  lemma OfKindJoin3(whole: seq<DrawCommand>, a: seq<DrawCommand>, b: seq<DrawCommand>, c: seq<DrawCommand>,
                    a': seq<DrawCommand>, b': seq<DrawCommand>, c': seq<DrawCommand>, k: Kind)
    requires whole == a + b + c
    requires OfKind(a, k) == a' && OfKind(b, k) == b' && OfKind(c, k) == c'
    ensures OfKind(whole, k) == a' + b' + c'
  {
    OfKindConcat(a + b, c, k);
    OfKindConcat(a, b, k);
  }

  /** The commands of kind `k` in a list made of four parts, from those of each part. */
  lemma {:induction false} OfKindJoin4(whole: seq<DrawCommand>, a: seq<DrawCommand>, b: seq<DrawCommand>, c: seq<DrawCommand>, d: seq<DrawCommand>,
                    a': seq<DrawCommand>, b': seq<DrawCommand>, c': seq<DrawCommand>, d': seq<DrawCommand>, k: Kind)
    requires whole == a + b + c + d
    requires OfKind(a, k) == a' && OfKind(b, k) == b' && OfKind(c, k) == c' && OfKind(d, k) == d'
    ensures OfKind(whole, k) == a' + b' + c' + d'
  {
    OfKindOfJoin(whole, a + b + c, d, k);
    OfKindJoin3(a + b + c, a, b, c, a', b', c', k);
  }

  /** `cmds` holds nothing of kind `k`. */
  predicate NoneOf(cmds: seq<DrawCommand>, k: Kind) {
    OfKind(cmds, k) == []
  }

  /** Two lists with nothing of kind `k` join into one with nothing of kind `k`. */
  lemma NoneOfJoin(whole: seq<DrawCommand>, prefix: seq<DrawCommand>, last: seq<DrawCommand>, k: Kind)
    requires whole == prefix + last
    requires NoneOf(prefix, k) && NoneOf(last, k)
    ensures NoneOf(whole, k)
  {
    OfKindConcat(prefix, last, k);
  }

  /** Three lists with nothing of kind `k` join into one with nothing of kind `k`. */
  lemma NoneOfJoin3(whole: seq<DrawCommand>, a: seq<DrawCommand>, b: seq<DrawCommand>, c: seq<DrawCommand>, k: Kind)
    requires whole == a + b + c
    requires NoneOf(a, k) && NoneOf(b, k) && NoneOf(c, k)
    ensures NoneOf(whole, k)
  {
    NoneOfJoin(a + b, a, b, k);
    NoneOfJoin(whole, a + b, c, k);
  }

  /** A run of commands none of which has kind `k` contributes nothing of kind `k`. */
  lemma {:induction false} OfKindNone(cmds: seq<DrawCommand>, k: Kind)
    requires forall j :: 0 <= j < |cmds| ==> KindOf(cmds[j]) != k
    ensures OfKind(cmds, k) == []
    decreases |cmds|
  {
    if cmds != [] {
      OfKindNone(cmds[1..], k);
    }
  }

  /** A run of commands all of kind `k` is kept whole. */
  lemma {:induction false} OfKindAll(cmds: seq<DrawCommand>, k: Kind)
    requires forall j :: 0 <= j < |cmds| ==> KindOf(cmds[j]) == k
    ensures OfKind(cmds, k) == cmds
    decreases |cmds|
  {
    if cmds != [] {
      OfKindAll(cmds[1..], k);
      assert [cmds[0]] + cmds[1..] == cmds;
    }
  }
}

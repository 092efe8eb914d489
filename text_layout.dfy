/**
 * The greedy word wrap and the alignment of `drawText` in
 * lib/pdf-generator.ts, as pure definitions with their properties. The
 * method that runs the wrap loop and draws the lines is
 * `PdfGenerator.DrawText`; it is proved to emit exactly the lines defined here.
 */
module TextLayout {
  import opened PdfPage
  import opened Strings

  /** `font.widthOfTextAtSize(text, size)` of the embedded fonts; the font program is not modelled. */
  type Metrics = (FontFace, string, real) -> real

  /** A font at a size, with the metrics that measure it. */
  datatype Pen = Pen(metrics: Metrics, face: FontFace, size: real) {
    function WidthOf(s: string): real {
      metrics(face, s, size)
    }
  }

  datatype Align = Left | Center | Right

  /** The x at which a run of width `w` starts so that it is aligned at `x`. */
  function AlignX(align: Align, x: real, w: real): (r: real)
    ensures align == Left ==> r == x
    ensures align == Center ==> r + w / 2.0 == x
    ensures align == Right ==> r + w == x
  {
    match align
    case Left => x
    case Center => x - w / 2.0
    case Right => x - w
  }

  /** The loop state of the wrap: the lines already drawn and the line being filled. */
  datatype WrapState = WrapState(flushed: seq<string>, line: string)

  /** `line + (line ? " " : "") + word`: the line with the next word appended. */
  function Extend(line: string, word: string): string {
    line + (if line != "" then " " else "") + word
  }

  /**
   * One iteration of the loop: if the extended line is wider than `maxWidth`
   * and the line is not empty, the line is flushed and the word starts the
   * next one; otherwise the word joins the line without being checked again.
   */
  function Step(pen: Pen, maxWidth: real, st: WrapState, word: string): WrapState {
    var test := Extend(st.line, word);
    if pen.WidthOf(test) > maxWidth && st.line != "" then WrapState(st.flushed + [st.line], word)
    else WrapState(st.flushed, test)
  }

  /** The loop state after the given words, folded from the left. */
  function Wrap(pen: Pen, maxWidth: real, words: seq<string>): WrapState
    decreases |words|
  {
    if words == [] then WrapState([], "")
    else Step(pen, maxWidth, Wrap(pen, maxWidth, words[..|words| - 1]), words[|words| - 1])
  }

  /** The lines drawn for `text`: every flushed line, then the last line if it is not empty. */
  function WrapLines(pen: Pen, maxWidth: real, text: string): seq<string> {
    var st := Wrap(pen, maxWidth, Split(text));
    st.flushed + (if st.line != "" then [st.line] else [])
  }

  /** A line the wrap may emit: it fits, or it is one of the words, taken whole. */
  predicate Admissible(pen: Pen, maxWidth: real, words: seq<string>, l: string) {
    pen.WidthOf(l) <= maxWidth || l in words
  }

  /** The wrap loop keeps every flushed line non-empty and every line admissible. */
  lemma {:induction false} WrapInvariant(pen: Pen, maxWidth: real, words: seq<string>)
    ensures var st := Wrap(pen, maxWidth, words);
            && (forall j :: 0 <= j < |st.flushed| ==>
                  st.flushed[j] != "" && Admissible(pen, maxWidth, words, st.flushed[j]))
            && (st.line == "" || Admissible(pen, maxWidth, words, st.line))
    decreases |words|
  {
    if words != [] {
      var init := words[..|words| - 1];
      var word := words[|words| - 1];
      WrapInvariant(pen, maxWidth, init);
      var st0 := Wrap(pen, maxWidth, init);
      assert forall l :: l in init ==> l in words;
      assert word in words;
      if !(pen.WidthOf(Extend(st0.line, word)) > maxWidth && st0.line != "") && st0.line == "" {
        assert Extend(st0.line, word) == word;
      }
    }
  }

  /**
   * Without empty words (no leading, trailing or doubled spaces), the line
   * being filled is never empty, and the flushed lines followed by it, joined
   * with single spaces, are the words joined with single spaces.
   */
  lemma {:induction false} WrapKeepsWords(pen: Pen, maxWidth: real, words: seq<string>)
    requires |words| >= 1
    requires forall k :: 0 <= k < |words| ==> words[k] != ""
    ensures var st := Wrap(pen, maxWidth, words);
            st.line != "" && Join(st.flushed + [st.line]) == Join(words)
    decreases |words|
  {
    var init := words[..|words| - 1];
    var word := words[|words| - 1];
    assert words == init + [word];
    if |init| == 0 {
      assert Wrap(pen, maxWidth, init) == WrapState([], "");
      assert Extend("", word) == word;
    } else {
      WrapKeepsWords(pen, maxWidth, init);
      var st0 := Wrap(pen, maxWidth, init);
      JoinSnoc(init, word);
      JoinSnoc(st0.flushed + [st0.line], word);
      assert Extend(st0.line, word) == st0.line + " " + word;
      if !(pen.WidthOf(Extend(st0.line, word)) > maxWidth) {
        if st0.flushed == [] {
          assert [st0.line] + [word] == [st0.line, word];
        } else {
          JoinSnoc(st0.flushed, st0.line);
          JoinSnoc(st0.flushed, st0.line + " " + word);
        }
      }
    }
  }

  /**
   * Wrap bound: every line drawn is non-empty, and either its measured width
   * is at most `maxWidth` or it is a single word of the text, taken whole.
   */
  lemma WrapBound(pen: Pen, maxWidth: real, text: string)
    ensures forall j :: 0 <= j < |WrapLines(pen, maxWidth, text)| ==>
              && WrapLines(pen, maxWidth, text)[j] != ""
              && (pen.WidthOf(WrapLines(pen, maxWidth, text)[j]) <= maxWidth
                  || WrapLines(pen, maxWidth, text)[j] in Split(text))
  {
    WrapInvariant(pen, maxWidth, Split(text));
  }

  /**
   * Wrap preserves words: for text without empty words, at least one line is
   * drawn, the last line is what the loop was filling, and the lines joined
   * with single spaces are the text itself.
   */
  lemma WrapKeepsText(pen: Pen, maxWidth: real, text: string)
    requires forall k :: 0 <= k < |Split(text)| ==> Split(text)[k] != ""
    ensures var st := Wrap(pen, maxWidth, Split(text));
            && WrapLines(pen, maxWidth, text) == st.flushed + [st.line]
            && Join(WrapLines(pen, maxWidth, text)) == text
  {
    WrapKeepsWords(pen, maxWidth, Split(text));
    JoinSplit(text);
  }

  /** A single word is never broken: it is drawn as one line, whatever its width. */
  lemma {:induction false} OneWordOneLine(pen: Pen, maxWidth: real, text: string)
    requires text != "" && ' ' !in text
    ensures WrapLines(pen, maxWidth, text) == [text]
  {
    SplitJoin([text]);
    assert Split(text) == [text];
    assert [text][..0] == [];
    assert Wrap(pen, maxWidth, []) == WrapState([], "");
    assert Extend("", text) == text;
    assert Wrap(pen, maxWidth, [text]) == WrapState([], text);
  }
}

/** The optional value used for absent fields and failed searches. */
module Wrappers {
  datatype Option<+T> = None | Some(value: T)
}

/**
 * The JavaScript string built-ins the source relies on, stated on `seq<char>`:
 * `split(" ")`, `join(" ")` and `replace(pattern, replacement)` with a string
 * pattern (which replaces the first occurrence only).
 */
module Strings {
  import opened Wrappers

  /** `s.split(" ")`: the pieces between single spaces; empty pieces are kept. */
  function Split(s: string): (ws: seq<string>)
    ensures |ws| >= 1
    decreases |s|
  {
    if s == [] then [""]
    else
      var rest := Split(s[1..]);
      if s[0] == ' ' then [""] + rest
      else [[s[0]] + rest[0]] + rest[1..]
  }

  /** No piece of a split contains the separator. */
  lemma {:induction false} SplitPiecesHaveNoSpaces(s: string)
    ensures forall k :: 0 <= k < |Split(s)| ==> ' ' !in Split(s)[k]
    decreases |s|
  {
    if s != [] {
      SplitPiecesHaveNoSpaces(s[1..]);
      var rest := Split(s[1..]);
      if s[0] != ' ' {
        assert ' ' !in rest[0];
        assert ' ' !in [s[0]] + rest[0];
      }
    }
  }

  /** `ws.join(" ")`. */
  function Join(ws: seq<string>): string
    requires |ws| >= 1
    decreases |ws|
  {
    if |ws| == 1 then ws[0] else ws[0] + " " + Join(ws[1..])
  }

  /** Joining the pieces of a split gives the original string back. */
  lemma {:induction false} JoinSplit(s: string)
    ensures Join(Split(s)) == s
    decreases |s|
  {
    if s != [] {
      var rest := Split(s[1..]);
      JoinSplit(s[1..]);
      if s[0] == ' ' {
        assert Split(s) == [""] + rest;
        assert Join(Split(s)) == "" + " " + Join(rest);
      } else if |rest| == 1 {
        assert Split(s) == [[s[0]] + rest[0]];
      } else {
        assert Join(rest) == rest[0] + " " + Join(rest[1..]);
        assert Split(s)[1..] == rest[1..];
        assert Join(Split(s)) == [s[0]] + rest[0] + " " + Join(rest[1..]);
      }
    }
  }

  /** Splitting a string that starts with a space-free piece `w` glues `w` to the first piece. */
  lemma {:induction false} SplitPrefix(w: string, s: string)
    requires ' ' !in w
    ensures Split(w + s) == [w + Split(s)[0]] + Split(s)[1..]
    decreases |w|
  {
    if w != [] {
      assert (w + s)[1..] == w[1..] + s;
      assert (w + s)[0] == w[0];
      SplitPrefix(w[1..], s);
      assert [w[0]] + (w[1..] + Split(s)[0]) == w + Split(s)[0];
    } else {
      assert w + s == s;
      assert w + Split(s)[0] == Split(s)[0];
      assert Split(s) == [Split(s)[0]] + Split(s)[1..];
    }
  }

  /** Splitting a join of space-free pieces gives the pieces back. */
  lemma {:induction false} SplitJoin(ws: seq<string>)
    requires |ws| >= 1
    requires forall k :: 0 <= k < |ws| ==> ' ' !in ws[k]
    ensures Split(Join(ws)) == ws
    decreases |ws|
  {
    if |ws| == 1 {
      SplitPrefix(ws[0], "");
      assert ws[0] + "" == ws[0];
    } else {
      SplitJoin(ws[1..]);
      var tail := " " + Join(ws[1..]);
      assert Join(ws) == ws[0] + tail;
      assert tail[0] == ' ' && tail[1..] == Join(ws[1..]);
      assert Split(tail) == [""] + ws[1..];
      SplitPrefix(ws[0], tail);
      assert ws[0] + "" == ws[0];
      assert ws == [ws[0]] + ws[1..];
    }
  }

  /** Appending a piece appends a space and the piece. */
  lemma {:induction false} JoinSnoc(ws: seq<string>, x: string)
    requires |ws| >= 1
    ensures Join(ws + [x]) == Join(ws) + " " + x
    decreases |ws|
  {
    if |ws| == 1 {
      assert ws + [x] == [ws[0], x];
      assert [ws[0], x][1..] == [x];
    } else {
      assert (ws + [x])[1..] == ws[1..] + [x];
      JoinSnoc(ws[1..], x);
    }
  }

  /** `p` occurs in `s` at index `i`. */
  predicate OccursAt(s: string, p: string, i: nat) {
    i + |p| <= |s| && s[i..i + |p|] == p
  }

  /** `s.indexOf(p)`: the index of the first occurrence of `p` in `s`, if any (see `IndexOfFirst`). */
  function IndexOf(s: string, p: string): (r: Option<nat>)
    ensures r.Some? ==> OccursAt(s, p, r.value)
    decreases |s|
  {
    if |p| > |s| then None
    else if s[..|p|] == p then Some(0)
    else
      match IndexOf(s[1..], p)
      case None => None
      case Some(k) =>
        assert s[1..][k..k + |p|] == s[k + 1..k + 1 + |p|];
        Some(k + 1)
  }

  /** `p` occurs in `s` one place further on than in `s[1..]`. */
  lemma OccursShifted(s: string, p: string, j: nat)
    requires |s| >= 1
    ensures OccursAt(s[1..], p, j) <==> OccursAt(s, p, j + 1)
  {
    if j + 1 + |p| <= |s| {
      assert s[1..][j..j + |p|] == s[j + 1..j + 1 + |p|];
    }
  }

  /** `IndexOf` finds the first occurrence, and finds nothing only when there is none. */
  lemma {:induction false} IndexOfFirst(s: string, p: string)
    ensures IndexOf(s, p).Some? ==> forall j: nat :: j < IndexOf(s, p).value ==> !OccursAt(s, p, j)
    ensures IndexOf(s, p).None? ==> forall j: nat :: !OccursAt(s, p, j)
    decreases |s|
  {
    if |p| > |s| {
    } else if s[..|p|] == p {
    } else {
      IndexOfFirst(s[1..], p);
      assert !OccursAt(s, p, 0);
      forall j: nat | j >= 1
        ensures OccursAt(s, p, j) <==> OccursAt(s[1..], p, j - 1)
      {
        OccursShifted(s, p, j - 1);
      }
    }
  }

  /** `s.replace(p, q)` with a string pattern: the scan stops at the first occurrence of `p`, which becomes `q`. */
  function ReplaceFirst(s: string, p: string, q: string): (r: string)
    ensures p == "" ==> r == q + s
    decreases |s|
  {
    if |p| > |s| then s
    else if s[..|p|] == p then q + s[|p|..]
    else [s[0]] + ReplaceFirst(s[1..], p, q)
  }

  /**
   * Only the first occurrence is replaced: without an occurrence the string is
   * unchanged; otherwise what precedes the first occurrence and what follows
   * it are kept, and the occurrence itself becomes `q`.
   */
  lemma {:induction false} ReplaceFirstAtIndex(s: string, p: string, q: string)
    ensures IndexOf(s, p).None? ==> ReplaceFirst(s, p, q) == s
    ensures IndexOf(s, p).Some? ==>
              var i := IndexOf(s, p).value; ReplaceFirst(s, p, q) == s[..i] + q + s[i + |p|..]
    decreases |s|
  {
    if |p| > |s| {
    } else if s[..|p|] == p {
      assert IndexOf(s, p) == Some(0);
      assert s[..0] + q + s[0 + |p|..] == q + s[|p|..];
    } else {
      ReplaceFirstAtIndex(s[1..], p, q);
      match IndexOf(s[1..], p)
      case None => ReplaceFirstNone(s, p, q);
      case Some(k) => ReplaceFirstLater(s, p, q, k);
    }
  }

  /** Past a position where `p` does not start, with no occurrence in the tail, nothing is replaced. */
  lemma {:induction false} ReplaceFirstNone(s: string, p: string, q: string)
    requires |p| <= |s| && s[..|p|] != p
    requires IndexOf(s[1..], p).None? && ReplaceFirst(s[1..], p, q) == s[1..]
    ensures IndexOf(s, p).None? && ReplaceFirst(s, p, q) == s
  {
    assert ReplaceFirst(s, p, q) == [s[0]] + ReplaceFirst(s[1..], p, q);
    assert s == [s[0]] + s[1..];
  }

  /** Past a position where `p` does not start, the replacement is the one in the tail, one index further on. */
  lemma {:induction false} ReplaceFirstLater(s: string, p: string, q: string, k: nat)
    requires |p| <= |s| && s[..|p|] != p
    requires IndexOf(s[1..], p) == Some(k)
    requires ReplaceFirst(s[1..], p, q) == s[1..][..k] + q + s[1..][k + |p|..]
    ensures IndexOf(s, p) == Some(k + 1)
    ensures ReplaceFirst(s, p, q) == s[..k + 1] + q + s[k + 1 + |p|..]
  {
    var t := s[1..];
    assert ReplaceFirst(s, p, q) == [s[0]] + ReplaceFirst(t, p, q);
    SliceAfterHead(s, k, |p|);
    ConsAssoc(s[0], t[..k], q, t[k + |p|..]);
  }

  /** Slicing `s` around a window that starts at `k + 1`, read off `s[1..]`. */
  lemma SliceAfterHead(s: string, k: nat, m: nat)
    requires k + 1 + m <= |s|
    ensures s[..k + 1] == [s[0]] + s[1..][..k]
    ensures s[k + 1 + m..] == s[1..][k + m..]
  {
  }

  lemma ConsAssoc(c: char, a: string, q: string, b: string)
    ensures [c] + (a + q + b) == ([c] + a) + q + b
  {
  }
}

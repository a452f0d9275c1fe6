/** The line-number gutter added to each code block. The block text is
    split on the two-character sequence backslash followed by `n` (the
    literal `'\\n'` in a JavaScript string: a backslash and a letter, not a
    newline). When that yields more than one piece, the gutter lists the
    numbers 1 up to pieces - 1, each followed by `<br>`; the last piece is
    taken to be the empty line after a final separator and gets no number. */
module LineNumbers {
  import opened Text

  datatype Option<T> = None | Some(value: T)

  /** Backslash, then the letter n. */
  const Separator: string := "\\n"

  predicate SeparatorAt(s: string, i: int) {
    0 <= i && i + 1 < |s| && s[i] == '\\' && s[i + 1] == 'n'
  }

  predicate HasSeparator(s: string) {
    exists i :: 0 <= i < |s| && SeparatorAt(s, i)
  }

  /** `String.prototype.split` with a two-character separator, scanning
      left to right. The first piece is always a prefix of the text. */
  function Split(s: string): (pieces: seq<string>)
    ensures |pieces| >= 1
    ensures pieces[0] <= s
    decreases |s|
  {
    if |s| < 2 then [s]
    else if SeparatorAt(s, 0) then [""] + Split(s[2..])
    else
      var rest := Split(s[1..]);
      [[s[0]] + rest[0]] + rest[1..]
  }

  /** `Array.prototype.join` with the same separator: the inverse of `Split`. */
  function Join(pieces: seq<string>): string
    requires |pieces| >= 1
    decreases |pieces|
  {
    if |pieces| == 1 then pieces[0] else pieces[0] + Separator + Join(pieces[1..])
  }

  /** Every occurrence of the separator, counted position by position. */
  function SeparatorCount(s: string): nat
    decreases |s|
  {
    if |s| < 2 then 0
    else (if SeparatorAt(s, 0) then 1 else 0) + SeparatorCount(s[1..])
  }

  lemma {:induction false} JoinAfterFirstChar(c: char, pieces: seq<string>)
    requires |pieces| >= 1
    ensures Join([[c] + pieces[0]] + pieces[1..]) == [c] + Join(pieces)
  {
  }

  /** Joining the pieces gives back the text. */
  lemma {:induction false} JoinSplit(s: string)
    ensures Join(Split(s)) == s
    decreases |s|
  {
    if |s| >= 2 {
      if SeparatorAt(s, 0) {
        JoinSplit(s[2..]);
        assert ([""] + Split(s[2..]))[1..] == Split(s[2..]);
        assert s == Separator + s[2..];
      } else {
        JoinSplit(s[1..]);
        JoinAfterFirstChar(s[0], Split(s[1..]));
        assert s == [s[0]] + s[1..];
      }
    }
  }

  /** No piece contains the separator. */
  lemma {:induction false} SplitPiecesClean(s: string)
    ensures forall k :: 0 <= k < |Split(s)| ==> !HasSeparator(Split(s)[k])
    decreases |s|
  {
    if |s| >= 2 {
      if SeparatorAt(s, 0) {
        SplitPiecesClean(s[2..]);
        var pieces := Split(s);
        assert !HasSeparator("");
        forall k | 1 <= k < |pieces| ensures !HasSeparator(pieces[k]) {
          assert pieces[k] == Split(s[2..])[k - 1];
        }
      } else {
        SplitPiecesClean(s[1..]);
        var rest := Split(s[1..]);
        var first := [s[0]] + rest[0];
        forall i | 0 <= i ensures !SeparatorAt(first, i) {
          if i > 0 && SeparatorAt(first, i) {
            assert SeparatorAt(rest[0], i - 1);
            assert false;
          }
          if i == 0 && SeparatorAt(first, 0) {
            assert false;
          }
        }
        var pieces := Split(s);
        forall k | 1 <= k < |pieces| ensures !HasSeparator(pieces[k]) {
          assert pieces[k] == rest[k];
        }
      }
    }
  }

  /** A text without a separator is a single piece. */
  lemma {:induction false} SplitClean(p: string)
    requires !HasSeparator(p)
    ensures Split(p) == [p]
    decreases |p|
  {
    if |p| >= 2 {
      assert !SeparatorAt(p, 0);
      assert !HasSeparator(p[1..]) by {
        forall i ensures !SeparatorAt(p[1..], i) {
          if SeparatorAt(p[1..], i) { assert SeparatorAt(p, i + 1); }
        }
      }
      SplitClean(p[1..]);
      assert [p[0]] + p[1..] == p;
    }
  }

  /** A clean piece followed by the separator is split off whole. */
  lemma {:induction false} SplitCleanThenSeparator(p: string, t: string)
    requires !HasSeparator(p)
    ensures Split(p + Separator + t) == [p] + Split(t)
    decreases |p|
  {
    var s := p + Separator + t;
    if p == [] {
      assert s == Separator + t;
      assert SeparatorAt(s, 0);
      assert s[2..] == t;
    } else {
      var q := p[1..];
      assert !HasSeparator(q) by {
        forall i ensures !SeparatorAt(q, i) {
          if SeparatorAt(q, i) { assert SeparatorAt(p, i + 1); }
        }
      }
      assert !SeparatorAt(s, 0) by {
        if |p| >= 2 { assert !SeparatorAt(p, 0); assert s[1] == p[1]; }
        else { assert s[1] == '\\'; }
      }
      assert s[1..] == q + Separator + t;
      SplitCleanThenSeparator(q, t);
      assert [p[0]] + q == p;
    }
  }

  /** Splitting the join of clean pieces gives back the pieces. */
  lemma {:induction false} SplitJoin(pieces: seq<string>)
    requires |pieces| >= 1
    requires forall k :: 0 <= k < |pieces| ==> !HasSeparator(pieces[k])
    ensures Split(Join(pieces)) == pieces
    decreases |pieces|
  {
    if |pieces| == 1 {
      SplitClean(pieces[0]);
    } else {
      SplitJoin(pieces[1..]);
      SplitCleanThenSeparator(pieces[0], Join(pieces[1..]));
      assert [pieces[0]] + pieces[1..] == pieces;
    }
  }

  /** One more piece than there are separators. The separator cannot
      overlap itself, so counting every position and splitting agree. */
  lemma {:induction false} PieceCount(s: string)
    ensures |Split(s)| == SeparatorCount(s) + 1
    decreases |s|
  {
    if |s| >= 2 {
      if SeparatorAt(s, 0) {
        PieceCount(s[2..]);
        assert SeparatorCount(s[1..]) == SeparatorCount(s[2..]) by {
          if |s[1..]| >= 2 {
            assert !SeparatorAt(s[1..], 0);
            assert s[1..][1..] == s[2..];
          }
        }
      } else {
        PieceCount(s[1..]);
      }
    }
  }

  /** A text with no backslash, such as one whose lines end in real
      newline characters, has no separator, so its block gets no gutter. */
  lemma {:induction false} NoBackslashNoSeparator(s: string)
    requires forall i :: 0 <= i < |s| ==> s[i] != '\\'
    ensures SeparatorCount(s) == 0
    ensures Split(s) == [s]
    decreases |s|
  {
    assert !HasSeparator(s);
    SplitClean(s);
    if |s| >= 2 {
      NoBackslashNoSeparator(s[1..]);
    }
  }

  /** The gutter for `n` numbered lines: "1<br>2<br>…n<br>". It holds one
      tag per numbered line and is empty only when there is no line. */
  function Gutter(n: nat): (r: string)
    ensures CountChar(r, '<') == n
    ensures r == "" <==> n == 0
    decreases n
  {
    if n == 0 then ""
    else
      var prev := Gutter(n - 1);
      CountCharAppend(prev + NatToString(n), "<br>", '<');
      CountCharAppend(prev, NatToString(n), '<');
      DigitsHaveNoTag(NatToString(n));
      BreakHasOneTag();
      prev + NatToString(n) + "<br>"
  }

  function CountChar(s: string, c: char): nat
    decreases |s|
  {
    if s == [] then 0 else CountChar(s[..|s| - 1], c) + (if s[|s| - 1] == c then 1 else 0)
  }

  lemma {:induction false} CountCharAppend(a: string, b: string, c: char)
    ensures CountChar(a + b, c) == CountChar(a, c) + CountChar(b, c)
    decreases |b|
  {
    if b != [] {
      var n := |b| - 1;
      assert (a + b)[..|a + b| - 1] == a + b[..n];
      assert (a + b)[|a + b| - 1] == b[n];
      CountCharAppend(a, b[..n], c);
      assert CountChar(a + b, c) == CountChar(a + b[..n], c) + (if b[n] == c then 1 else 0);
    } else {
      assert a + b == a;
    }
  }

  lemma {:induction false} DigitsHaveNoTag(s: string)
    requires AllDigits(s)
    ensures CountChar(s, '<') == 0
    decreases |s|
  {
    if s != [] {
      DigitsHaveNoTag(s[..|s| - 1]);
    }
  }

  lemma BreakHasOneTag()
    ensures CountChar("<br>", '<') == 1
  {
    assert "<br>"[..3] == "<br";
    assert "<br"[..2] == "<b";
    assert "<b"[..1] == "<";
    assert "<"[..0] == "";
  }

  /** `initCodeHighlighting`, for one code block: no gutter when the text
      has no separator; otherwise one entry per separator, 1 upwards. */
  method BuildLineNumbers(text: string) returns (gutter: Option<string>)
    ensures gutter.Some? <==> SeparatorCount(text) > 0
    ensures gutter.Some? ==> gutter.value == Gutter(SeparatorCount(text))
  {
    var lines := Split(text);
    PieceCount(text);
    if |lines| > 1 {
      var html := "";
      var i := 0;
      while i < |lines|
        invariant 0 <= i <= |lines|
        invariant html == Gutter(if i < |lines| then i else |lines| - 1)
      {
        if i < |lines| - 1 {
          html := html + NatToString(i + 1) + "<br>";
        }
        i := i + 1;
      }
      gutter := Some(html);
    } else {
      gutter := None;
    }
  }
}

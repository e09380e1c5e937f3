/**
 * Lines of text and the on-disk format of a cache file: every line followed
 * by a line feed. Reading splits on line feeds, as a line scanner does; a
 * final line without a line feed is still a line.
 */
module Lines {

  /** A line as the scanner yields it: it never holds a line feed. */
  type Line = s: string | '\n' !in s

  /** The set of lines occurring in a sequence. */
  function Elems(s: seq<Line>): set<Line>
  {
    set x | x in s
  }

  /** True when no line occurs twice in `s`. */
  predicate NoDuplicates(s: seq<Line>)
  {
    forall i, j :: 0 <= i < j < |s| ==> s[i] != s[j]
  }

  /** The position of the first occurrence of `x` in `s`. */
  function IndexOf(s: seq<Line>, x: Line): (k: nat)
    requires x in s
    ensures k < |s| && s[k] == x
    ensures forall i :: 0 <= i < k ==> s[i] != x
  {
    if s[0] == x then 0 else 1 + IndexOf(s[1..], x)
  }

  /** The content of a file holding each line followed by a line feed. */
  function Render(lines: seq<Line>): (s: string)
    ensures s == "" <==> lines == []
    ensures s != "" ==> s[|s| - 1] == '\n'
  {
    if lines == [] then "" else lines[0] + "\n" + Render(lines[1..])
  }

  /** The lines a scanner yields from file content `s`. */
  function SplitLines(s: string): (lines: seq<Line>)
    ensures lines == [] <==> s == ""
    decreases |s|
  {
    if s == "" then []
    else if s[0] == '\n' then [""] + SplitLines(s[1..])
    else
      var rest := SplitLines(s[1..]);
      if rest == [] then [[s[0]]] else [[s[0]] + rest[0]] + rest[1..]
  }

  /** A non-empty final line without a line feed is still read as one line. */
  lemma {:induction false} SplitLinesLast(w: Line)
    requires w != ""
    ensures SplitLines(w) == [w]
    decreases |w|
  {
    if |w| == 1 {
      assert SplitLines(w[1..]) == [];
      assert [w[0]] == w;
    } else {
      SplitLinesLast(w[1..]);
      assert [w[0]] + w[1..] == w;
    }
  }

  /** A file whose last line lacks its line feed yields every line, the last one included. */
  lemma {:induction false} SplitLinesUnterminated(lines: seq<Line>, w: Line)
    requires w != ""
    ensures SplitLines(Render(lines) + w) == lines + [w]
    decreases |lines|
  {
    if lines == [] {
      assert Render(lines) + w == w;
      SplitLinesLast(w);
    } else {
      var t := Render(lines[1..]) + w;
      assert Render(lines) + w == lines[0] + "\n" + t;
      SplitLinesAfterLine(lines[0], t);
      SplitLinesUnterminated(lines[1..], w);
      assert [lines[0]] + (lines[1..] + [w]) == lines + [w];
    }
  }

  /**
   * `p` is what a reader that stopped early got from lines `l`: the first
   * lines of `l`, except that the last of them may be cut short.
   */
  predicate TruncatedPrefix(p: seq<Line>, l: seq<Line>)
  {
    && |p| <= |l|
    && (p != [] ==> p[..|p| - 1] == l[..|p| - 1] && p[|p| - 1] <= l[|p| - 1])
  }

  /** Reading only the first `k` characters of `s` yields a truncated prefix of its lines. */
  lemma {:induction false} SplitLinesPrefix(s: string, k: nat)
    requires k <= |s|
    ensures TruncatedPrefix(SplitLines(s[..k]), SplitLines(s))
    decreases |s|
  {
    var p, l := SplitLines(s[..k]), SplitLines(s);
    if k == 0 {
      assert s[..k] == "";
    } else {
      var t := s[1..];
      assert s[..k][0] == s[0] && s[..k][1..] == t[..k - 1];
      SplitLinesPrefix(t, k - 1);
      var rp, rl := SplitLines(t[..k - 1]), SplitLines(t);
      if s[0] == '\n' {
        assert p == [""] + rp && l == [""] + rl;
        if rp != [] {
          assert p[..|p| - 1] == [""] + rp[..|rp| - 1];
          assert l[..|p| - 1] == [""] + rl[..|rp| - 1];
        }
      } else if rp == [] {
        assert p == [[s[0]]];
        assert l[0] == [s[0]] + (if rl == [] then "" else rl[0]);
      } else {
        assert p == [[s[0]] + rp[0]] + rp[1..];
        assert l == [[s[0]] + rl[0]] + rl[1..];
        if |rp| == 1 {
          assert rp[0] <= rl[0];
        } else {
          assert rp[0] == rl[0];
          assert p[..|p| - 1] == [[s[0]] + rp[0]] + rp[1..|rp| - 1];
          assert l[..|p| - 1] == [[s[0]] + rl[0]] + rl[1..|rp| - 1];
          assert rp[1..|rp| - 1] == rp[..|rp| - 1][1..];
          assert rl[1..|rp| - 1] == rl[..|rp| - 1][1..];
        }
      }
    }
  }

  /** Writing one more line appends it and a line feed to the file. */
  lemma {:induction false} RenderAppend(lines: seq<Line>, x: Line)
    ensures Render(lines + [x]) == Render(lines) + x + "\n"
    decreases |lines|
  {
    if lines == [] {
      assert lines + [x] == [x];
    } else {
      assert (lines + [x])[1..] == lines[1..] + [x];
      RenderAppend(lines[1..], x);
    }
  }

  /** Writing two runs of lines one after the other writes their rendered forms one after the other. */
  lemma {:induction false} RenderConcat(a: seq<Line>, b: seq<Line>)
    ensures Render(a + b) == Render(a) + Render(b)
    decreases |a|
  {
    if a == [] {
      assert a + b == b;
    } else {
      assert (a + b)[0] == a[0] && (a + b)[1..] == a[1..] + b;
      RenderConcat(a[1..], b);
    }
  }

  /** A line-feed-free prefix followed by a line feed is split off as one line. */
  lemma {:induction false} SplitLinesAfterLine(w: Line, t: string)
    ensures SplitLines(w + "\n" + t) == [w] + SplitLines(t)
    decreases |w|
  {
    var s := w + "\n" + t;
    if w == "" {
      assert s[0] == '\n' && s[1..] == t;
    } else {
      var w' := w[1..];
      assert s[0] == w[0] && s[1..] == w' + "\n" + t;
      SplitLinesAfterLine(w', t);
      assert [w[0]] + w' == w;
    }
  }

  /** Reading back a file this program wrote yields exactly the lines written. */
  lemma {:induction false} SplitRender(lines: seq<Line>)
    ensures SplitLines(Render(lines)) == lines
    decreases |lines|
  {
    if lines != [] {
      SplitLinesAfterLine(lines[0], Render(lines[1..]));
      SplitRender(lines[1..]);
    }
  }

  /** Conversely, newline-terminated content is rewritten byte for byte from its lines. */
  lemma {:induction false} RenderSplit(s: string)
    requires s == "" || s[|s| - 1] == '\n'
    ensures Render(SplitLines(s)) == s
    decreases |s|
  {
    if s != "" {
      var c, t := s[0], s[1..];
      assert s == [c] + t;
      assert t == "" || t[|t| - 1] == '\n';
      var rest := SplitLines(t);
      RenderSplit(t);
      if c == '\n' {
        var lines := [""] + rest;
        assert SplitLines(s) == lines;
        assert lines[0] == "" && lines[1..] == rest;
        assert Render(lines) == "" + "\n" + Render(rest);
      } else {
        assert rest != [];
        var first: Line := [c] + rest[0];
        var lines := [first] + rest[1..];
        assert SplitLines(s) == lines;
        assert lines[0] == first && lines[1..] == rest[1..];
        assert Render(lines) == first + "\n" + Render(rest[1..]);
        assert Render(rest) == rest[0] + "\n" + Render(rest[1..]);
        assert first + "\n" + Render(rest[1..]) == [c] + (rest[0] + "\n" + Render(rest[1..]));
      }
    }
  }
}

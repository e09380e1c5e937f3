/**
 * The line deduplicator of one invocation: the set of lines already shown,
 * the lines written to standard output, and the temporary file that stages
 * the new cache content.
 */
module Dedup {
  import opened Lines

  /**
   * The lines of `out` that the run phase shows when `seen` holds the lines
   * already shown: a line is shown, and joins `seen`, when it is not in it.
   */
  function Unseen(seen: set<Line>, out: seq<Line>): (r: seq<Line>)
    ensures |r| <= |out|
    ensures forall x :: x in r ==> x in out && x !in seen
    decreases |out|
  {
    if out == [] then []
    else if out[0] in seen then Unseen(seen, out[1..])
    else [out[0]] + Unseen(seen + {out[0]}, out[1..])
  }

  /** Feeding one more line extends what is shown by that line exactly when it was not seen yet. */
  lemma {:induction false} UnseenAppend(seen: set<Line>, before: seq<Line>, line: Line)
    ensures Unseen(seen, before + [line]) ==
      Unseen(seen, before) + (if line in seen + Elems(before) then [] else [line])
    decreases |before|
  {
    if before != [] {
      var x := before[0];
      assert (before + [line])[0] == x && (before + [line])[1..] == before[1..] + [line];
      assert Elems(before) == {x} + Elems(before[1..]);
      if x in seen {
        UnseenAppend(seen, before[1..], line);
      } else {
        UnseenAppend(seen + {x}, before[1..], line);
      }
    }
  }

  /** The set of lines fed grows by the line fed. */
  lemma ElemsStep(out: seq<Line>, i: nat)
    requires i < |out|
    ensures Elems(out[..i + 1]) == Elems(out[..i]) + {out[i]}
  {
    assert out[..i + 1] == out[..i] + [out[i]];
  }

  /** Feeding the head of the remaining output keeps what will have been shown. */
  lemma FeedOneShown(shown: seq<Line>, seen: set<Line>, rest: seq<Line>)
    requires rest != []
    ensures (if rest[0] in seen then shown else shown + [rest[0]]) + Unseen(seen + {rest[0]}, rest[1..])
      == shown + Unseen(seen, rest)
  {
    var x, tail := rest[0], rest[1..];
    if x in seen {
      assert seen + {x} == seen;
    } else {
      var u := Unseen(seen + {x}, tail);
      assert Unseen(seen, rest) == [x] + u;
      assert (shown + [x]) + u == shown + ([x] + u);
    }
  }

  /** Feeding the head of the remaining output keeps what will have been seen. */
  lemma FeedOneSeen(seen: set<Line>, rest: seq<Line>)
    requires rest != []
    ensures (seen + {rest[0]}) + Elems(rest[1..]) == seen + Elems(rest)
  {
    assert rest == [rest[0]] + rest[1..];
    assert Elems(rest) == {rest[0]} + Elems(rest[1..]);
  }

  /** Feeding the head of the remaining output keeps what will have been staged. */
  lemma FeedOneStaged(staged: seq<Line>, rest: seq<Line>)
    requires rest != []
    ensures (staged + [rest[0]]) + rest[1..] == staged + rest
  {
    assert rest == [rest[0]] + rest[1..];
  }

  /** `r` lists lines of `out` in the order of their first occurrence in `out`. */
  predicate InFirstOccurrenceOrder(r: seq<Line>, out: seq<Line>)
  {
    && (forall k :: 0 <= k < |r| ==> r[k] in out)
    && (forall i, j :: 0 <= i < j < |r| ==> IndexOf(out, r[i]) < IndexOf(out, r[j]))
  }

  /** The run phase never shows a line twice. */
  lemma {:induction false} UnseenNoDuplicates(seen: set<Line>, out: seq<Line>)
    ensures NoDuplicates(Unseen(seen, out))
    decreases |out|
  {
    if out != [] {
      if out[0] in seen {
        UnseenNoDuplicates(seen, out[1..]);
      } else {
        UnseenNoDuplicates(seen + {out[0]}, out[1..]);
      }
    }
  }

  /** The run phase shows exactly the output lines that were not seen before it. */
  lemma {:induction false} UnseenElems(seen: set<Line>, out: seq<Line>)
    ensures Elems(Unseen(seen, out)) == Elems(out) - seen
    decreases |out|
  {
    if out != [] {
      var x := out[0];
      assert Elems(out) == {x} + Elems(out[1..]);
      if x in seen {
        UnseenElems(seen, out[1..]);
      } else {
        var rest := Unseen(seen + {x}, out[1..]);
        UnseenElems(seen + {x}, out[1..]);
        assert Elems([x] + rest) == {x} + Elems(rest);
      }
    }
  }

  /** A line after the head of a sequence, other than the head, is found one place later. */
  lemma IndexOfTail(out: seq<Line>, y: Line)
    requires out != [] && y in out[1..] && y != out[0]
    ensures IndexOf(out, y) == 1 + IndexOf(out[1..], y)
  {
  }

  /** The lines shown by the run phase keep the order in which the command first printed them. */
  lemma {:induction false} UnseenOrder(seen: set<Line>, out: seq<Line>)
    ensures InFirstOccurrenceOrder(Unseen(seen, out), out)
    decreases |out|
  {
    if out != [] {
      var x := out[0];
      var seen' := if x in seen then seen else seen + {x};
      var rest := Unseen(seen', out[1..]);
      UnseenOrder(seen', out[1..]);
      forall k | 0 <= k < |rest|
        ensures rest[k] in out && rest[k] != x && IndexOf(out, rest[k]) == 1 + IndexOf(out[1..], rest[k])
      {
        assert rest[k] in rest;
        IndexOfTail(out, rest[k]);
      }
    }
  }

  /** After both phases, the lines shown are exactly the cached lines and the output lines. */
  lemma ShownCoversBoth(cached: seq<Line>, out: seq<Line>)
    ensures Elems(cached + Unseen(Elems(cached), out)) == Elems(cached) + Elems(out)
  {
    UnseenElems(Elems(cached), out);
    assert Elems(cached + Unseen(Elems(cached), out)) == Elems(cached) + Elems(Unseen(Elems(cached), out));
  }

  /**
   * The state the deduplicating loop of one invocation mutates: the set of
   * lines already shown, what has been written to standard output, and the
   * content of the temporary file.
   */
  class Deduplicator {
    var seen: set<Line>
    var shown: seq<Line>
    var temp: string
    /** The lines written to the temporary file so far. */
    ghost var staged: seq<Line>

    /**
     * A line is marked seen exactly when it has been shown, and the
     * temporary file holds the staged lines, each followed by a line feed.
     */
    ghost predicate Valid()
      reads this
    {
      seen == Elems(shown) && temp == Render(staged)
    }

    /** A fresh invocation: nothing seen, nothing shown, an empty temporary file. */
    constructor ()
      ensures Valid()
      ensures seen == {} && shown == [] && staged == [] && temp == ""
    {
      seen := {};
      shown := [];
      temp := "";
      staged := [];
    }

    /** Shows every cached line in file order, without a duplicate check, and marks it seen. */
    method Replay(cached: seq<Line>)
      requires Valid()
      modifies this
      ensures Valid()
      ensures shown == old(shown) + cached
      ensures seen == old(seen) + Elems(cached)
      ensures staged == old(staged) && temp == old(temp)
    {
      for i := 0 to |cached|
        invariant Valid()
        invariant shown == old(shown) + cached[..i]
        invariant seen == old(seen) + Elems(cached[..i])
        invariant staged == old(staged) && temp == old(temp)
      {
        assert cached[..i + 1] == cached[..i] + [cached[i]];
        ElemsStep(cached, i);
        shown := shown + [cached[i]];
        seen := seen + {cached[i]};
      }
      assert cached[..|cached|] == cached;
    }

    /**
     * Handles one line of the command's output: shows it and marks it seen
     * when it is new, and appends it and a line feed to the temporary file
     * in every case.
     */
    method Feed(line: Line)
      requires Valid()
      modifies this
      ensures Valid()
      ensures shown == if line in old(seen) then old(shown) else old(shown) + [line]
      ensures seen == old(seen) + {line}
      ensures staged == old(staged) + [line]
      ensures temp == old(temp) + line + "\n"
    {
      if line !in seen {
        seen := seen + {line};
        shown := shown + [line];
      }
      RenderAppend(staged, line);
      temp := temp + line + "\n";
      staged := staged + [line];
    }

    /**
     * Feeds the command's output line by line: what is shown is the new
     * lines at their first occurrence, while every line is staged.
     */
    method FeedAll(output: seq<Line>)
      requires Valid()
      modifies this
      ensures Valid()
      ensures shown == old(shown) + Unseen(old(seen), output)
      ensures seen == old(seen) + Elems(output)
      ensures staged == old(staged) + output
      ensures temp == old(temp) + Render(output)
    {
      var rest := output;
      while rest != []
        invariant Valid()
        invariant shown + Unseen(seen, rest) == old(shown) + Unseen(old(seen), output)
        invariant seen + Elems(rest) == old(seen) + Elems(output)
        invariant staged + rest == old(staged) + output
        decreases |rest|
      {
        FeedOneShown(shown, seen, rest);
        FeedOneSeen(seen, rest);
        FeedOneStaged(staged, rest);
        Feed(rest[0]);
        rest := rest[1..];
      }
      assert staged == old(staged) + output;
      RenderConcat(old(staged), output);
    }
  }
}

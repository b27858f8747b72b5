/** Python's `"\n".join(...)` and `str.split("\n")`, and how they undo each other. */
module Text {

  const NL: char := '\n'

  /** No character of `s` is a newline. */
  predicate SingleLine(s: string) {
    NL !in s
  }

  /** Two single lines concatenate to a single line. */
  lemma SingleLineConcat(a: string, b: string)
    requires SingleLine(a) && SingleLine(b)
    ensures SingleLine(a + b)
  {
  }

  /** `"\n".join(lines)`. */
  function Join(lines: seq<string>): string
  {
    if |lines| == 0 then ""
    else if |lines| == 1 then lines[0]
    else lines[0] + [NL] + Join(lines[1..])
  }

  /** `s.split("\n")`: always at least one piece, and no piece holds a newline. */
  function Split(s: string): (pieces: seq<string>)
    ensures |pieces| >= 1
    ensures forall k :: 0 <= k < |pieces| ==> SingleLine(pieces[k])
  {
    if |s| == 0 then [""]
    else
      var rest := Split(s[1..]);
      if s[0] == NL then [""] + rest
      else [[s[0]] + rest[0]] + rest[1..]
  }

  /** Every line followed by a newline, as a file writer emitting `f"{line}\n"` produces. */
  function Terminated(lines: seq<string>): string
  {
    if |lines| == 0 then "" else lines[0] + [NL] + Terminated(lines[1..])
  }

  /** Joining the pieces of a split gives back the original text. */
  lemma {:induction false} JoinSplit(s: string)
    ensures Join(Split(s)) == s
  {
    if |s| > 0 {
      var rest := Split(s[1..]);
      JoinSplit(s[1..]);
      if s[0] == NL {
        assert Join([""] + rest) == "" + [NL] + Join(rest) by {
          assert ([""] + rest)[1..] == rest;
        }
      } else {
        var r := [[s[0]] + rest[0]] + rest[1..];
        assert r[1..] == rest[1..];
        if |rest| == 1 {
          assert Join(r) == [s[0]] + rest[0];
        } else {
          assert Join(rest) == rest[0] + [NL] + Join(rest[1..]);
        }
        assert s == [s[0]] + s[1..];
      }
    }
  }

  /** A line without newlines splits to itself. */
  lemma {:induction false} SplitSingle(a: string)
    requires SingleLine(a)
    ensures Split(a) == [a]
  {
    if |a| > 0 {
      assert a[0] in a;
      assert forall c :: c in a[1..] ==> c in a;
      SplitSingle(a[1..]);
      assert [a[0]] + a[1..] == a;
    }
  }

  /** A newline-free prefix followed by a newline splits off as one piece. */
  lemma {:induction false} SplitLine(a: string, rest: string)
    requires SingleLine(a)
    ensures Split(a + [NL] + rest) == [a] + Split(rest)
  {
    var s := a + [NL] + rest;
    if |a| == 0 {
      assert s[1..] == rest;
    } else {
      assert s[1..] == a[1..] + [NL] + rest;
      assert a[0] in a && s[0] == a[0];
      assert forall c :: c in a[1..] ==> c in a;
      SplitLine(a[1..], rest);
      assert [a[0]] + a[1..] == a;
    }
  }

  /** Splitting a join of newline-free lines gives back the lines. */
  lemma {:induction false} SplitJoin(lines: seq<string>)
    requires |lines| >= 1
    requires forall k :: 0 <= k < |lines| ==> SingleLine(lines[k])
    ensures Split(Join(lines)) == lines
  {
    if |lines| == 1 {
      SplitSingle(lines[0]);
    } else {
      SplitJoin(lines[1..]);
      SplitLine(lines[0], Join(lines[1..]));
      assert [lines[0]] + lines[1..] == lines;
    }
  }

  /** A join is empty exactly when there are no lines or a single empty one. */
  lemma {:induction false} JoinEmpty(lines: seq<string>)
    ensures Join(lines) == "" <==> (|lines| == 0 || lines == [""])
  {
    if |lines| == 1 {
      assert lines == [lines[0]];
    }
  }

  /** The pieces of every line, line after line. */
  function SplitEach(lines: seq<string>): seq<string>
  {
    if |lines| == 0 then [] else Split(lines[0]) + SplitEach(lines[1..])
  }

  /** Splitting at a newline splits each side separately. */
  lemma {:induction false} SplitAtNewline(a: string, b: string)
    ensures Split(a + [NL] + b) == Split(a) + Split(b)
  {
    var s := a + [NL] + b;
    if |a| == 0 {
      assert s[1..] == b;
    } else {
      assert s[1..] == a[1..] + [NL] + b;
      assert s[0] == a[0];
      SplitAtNewline(a[1..], b);
    }
  }

  /** Splitting any join of lines splits every line: a line holding newlines yields several pieces. */
  lemma {:induction false} SplitJoinEach(lines: seq<string>)
    requires |lines| >= 1
    ensures Split(Join(lines)) == SplitEach(lines)
  {
    if |lines| == 1 {
      assert lines[1..] == [];
    } else {
      SplitJoinEach(lines[1..]);
      SplitAtNewline(lines[0], Join(lines[1..]));
    }
  }

  /** Joining two non-empty groups of lines puts one newline between the two joins. */
  lemma {:induction false} JoinAppend(a: seq<string>, b: seq<string>)
    requires |a| >= 1 && |b| >= 1
    ensures Join(a + b) == Join(a) + [NL] + Join(b)
  {
    if |a| == 1 {
      assert (a + b)[1..] == b;
    } else {
      assert (a + b)[1..] == a[1..] + b;
      JoinAppend(a[1..], b);
    }
  }

  /** Newline-terminated lines are the join of the lines plus one final newline. */
  lemma {:induction false} TerminatedIsJoin(lines: seq<string>)
    ensures Terminated(lines) == if |lines| == 0 then "" else Join(lines) + [NL]
  {
    if |lines| > 1 {
      TerminatedIsJoin(lines[1..]);
    }
  }
}

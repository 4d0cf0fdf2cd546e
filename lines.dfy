/** Query texts are written as arrays of lines joined with a line break
    (`[...].join('\n')`). `Join` is that join; `Split` cuts a text at every
    line break and is the yardstick for saying which lines a text holds. */
module Lines {

  /** `lines.join('\n')`. */
  function Join(lines: seq<string>): string
    decreases |lines|
  {
    if |lines| == 0 then ""
    else if |lines| == 1 then lines[0]
    else lines[0] + "\n" + Join(lines[1..])
  }

  /** The pieces of `s` between line breaks, in order (`s.split('\n')`). */
  function Split(s: string): (r: seq<string>)
    ensures |r| > 0
    decreases |s|
  {
    if |s| == 0 then [""]
    else if s[0] == '\n' then [""] + Split(s[1..])
    else
      var rest := Split(s[1..]);
      [[s[0]] + rest[0]] + rest[1..]
  }

  /** No line of `lines` holds a line break. */
  predicate OneLineEach(lines: seq<string>)
  {
    forall i :: 0 <= i < |lines| ==> '\n' !in lines[i]
  }

  /** A text without line breaks is a single line. */
  lemma {:induction false} SplitOneLine(l: string)
    requires '\n' !in l
    ensures Split(l) == [l]
    decreases |l|
  {
    if |l| > 0 {
      SplitOneLine(l[1..]);
      assert [l[0]] + l[1..] == l;
    }
  }

  /** The first line break of `l + "\n" + rest` ends the line `l`. */
  lemma {:induction false} SplitAtBreak(l: string, rest: string)
    requires '\n' !in l
    ensures Split(l + "\n" + rest) == [l] + Split(rest)
    decreases |l|
  {
    var s := l + "\n" + rest;
    if |l| == 0 {
      assert s == "\n" + rest;
      assert s[1..] == rest;
    } else {
      assert s[0] == l[0];
      assert s[1..] == l[1..] + "\n" + rest;
      SplitAtBreak(l[1..], rest);
      assert [l[0]] + l[1..] == l;
    }
  }

  /** Joining lines that hold no line break and splitting the result
      gives the lines back. */
  lemma {:induction false} SplitJoin(lines: seq<string>)
    requires |lines| > 0
    requires OneLineEach(lines)
    ensures Split(Join(lines)) == lines
    decreases |lines|
  {
    if |lines| == 1 {
      SplitOneLine(lines[0]);
    } else {
      SplitAtBreak(lines[0], Join(lines[1..]));
      SplitJoin(lines[1..]);
      assert [lines[0]] + lines[1..] == lines;
    }
  }

  /** A text has one line more than it has line breaks. */
  lemma {:induction false} SplitCount(s: string)
    ensures |Split(s)| == multiset(s)['\n'] + 1
    decreases |s|
  {
    if |s| > 0 {
      SplitCount(s[1..]);
      assert s == [s[0]] + s[1..];
      assert multiset(s) == multiset([s[0]]) + multiset(s[1..]);
    }
  }

  lemma NoBreakCount(l: string)
    requires '\n' !in l
    ensures multiset(l)['\n'] == 0
  {
  }

  /** The number of line breaks inside the lines themselves. */
  function Breaks(lines: seq<string>): nat
    decreases |lines|
  {
    if lines == [] then 0 else multiset(lines[0])['\n'] + Breaks(lines[1..])
  }

  /** Joining adds one line break between neighbouring lines. */
  lemma {:induction false} JoinBreaks(lines: seq<string>)
    requires |lines| > 0
    ensures multiset(Join(lines))['\n'] == |lines| - 1 + Breaks(lines)
    decreases |lines|
  {
    if |lines| > 1 {
      JoinBreaks(lines[1..]);
      assert multiset(lines[0] + "\n" + Join(lines[1..])) ==
        multiset(lines[0]) + multiset("\n") + multiset(Join(lines[1..]));
    } else {
      assert lines[1..] == [];
    }
  }

  /** A joined text has one line per joined line, plus one per line break
      that the lines themselves hold. */
  lemma JoinLineCount(lines: seq<string>)
    requires |lines| > 0
    ensures |Split(Join(lines))| == |lines| + Breaks(lines)
  {
    JoinBreaks(lines);
    SplitCount(Join(lines));
  }

  lemma {:induction false} BreaksNone(lines: seq<string>)
    requires OneLineEach(lines)
    ensures Breaks(lines) == 0
    decreases |lines|
  {
    if lines != [] {
      NoBreakCount(lines[0]);
      BreaksNone(lines[1..]);
    }
  }

  /** When only line `k` may hold line breaks, the joined text has one line
      per joined line plus one per line break in line `k`. */
  lemma {:induction false} LineCountWithBreaksAt(lines: seq<string>, k: nat)
    requires k < |lines|
    requires forall i :: 0 <= i < |lines| && i != k ==> '\n' !in lines[i]
    ensures |Split(Join(lines))| == |lines| + multiset(lines[k])['\n']
  {
    BreaksAt(lines, k);
    JoinLineCount(lines);
  }

  lemma {:induction false} BreaksAt(lines: seq<string>, k: nat)
    requires k < |lines|
    requires forall i :: 0 <= i < |lines| && i != k ==> '\n' !in lines[i]
    ensures Breaks(lines) == multiset(lines[k])['\n']
    decreases |lines|
  {
    if k == 0 {
      BreaksNone(lines[1..]);
    } else {
      NoBreakCount(lines[0]);
      BreaksAt(lines[1..], k - 1);
    }
  }
}

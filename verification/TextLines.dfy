/** Lines of a text that arrives in pieces. */
module TextLines {
  /** The complete lines of a text, without their newlines, and what follows the last. */
  datatype Lines = Lines(full: seq<string>, rest: string)

  function Cut(s: string): (r: Lines)
    ensures '\n' !in r.rest
  {
    if s == "" then Lines([], "")
    else
      var before, c := Cut(s[..|s| - 1]), s[|s| - 1];
      if c == '\n' then Lines(before.full + [before.rest], "") else Lines(before.full, before.rest + [c])
  }

  /** Lines written out again. */
  function Written(lines: seq<string>): string {
    if lines == [] then "" else lines[0] + "\n" + Written(lines[1..])
  }

  function Concat(pieces: seq<string>): string {
    if pieces == [] then "" else Concat(pieces[..|pieces| - 1]) + pieces[|pieces| - 1]
  }

  /** The pieces, one behind the other. */
  lemma {:induction false} ConcatAppend(a: seq<string>, b: seq<string>)
    ensures Concat(a + b) == Concat(a) + Concat(b)
    decreases |b|
  {
    if b == [] {
      assert a + b == a;
    } else {
      var front, last := b[..|b| - 1], b[|b| - 1];
      assert (a + b)[..|a + b| - 1] == a + front;
      ConcatAppend(a, front);
      Associate(Concat(a), Concat(front), last);
    }
  }

  lemma Associate(a: string, b: string, c: string)
    ensures a + b + c == a + (b + c)
  {
  }

  lemma {:induction false} CutUnbroken(s: string)
    requires '\n' !in s
    ensures Cut(s) == Lines([], s)
  {
    if s != "" {
      CutUnbroken(s[..|s| - 1]);
      assert s[|s| - 1] in s;
      assert s[..|s| - 1] + [s[|s| - 1]] == s;
    }
  }

  /** Cutting in two goes: keep the unfinished line and go on with the next piece. */
  lemma {:induction false} CutInPieces(a: string, b: string)
    ensures var first := Cut(a); var second := Cut(first.rest + b);
            Cut(a + b) == Lines(first.full + second.full, second.rest)
    decreases |b|
  {
    var first := Cut(a);
    if b == "" {
      assert a + b == a && first.rest + b == first.rest;
      CutUnbroken(first.rest);
    } else {
      var c, init := b[|b| - 1], b[..|b| - 1];
      CutInPieces(a, init);
      assert b == init + [c];
      assert (a + b)[..|a + b| - 1] == a + init && (a + b)[|a + b| - 1] == c;
      assert (first.rest + b)[..|first.rest + b| - 1] == first.rest + init && (first.rest + b)[|first.rest + b| - 1] == c;
    }
  }

  lemma {:induction false} CutTerminated(line: string, s: string)
    requires '\n' !in line && s == line + "\n"
    ensures Cut(s) == Lines([line], "")
  {
    CutUnbroken(line);
    assert s[..|s| - 1] == line && s[|s| - 1] == '\n';
  }

  /** One newline-terminated line in front of a text. */
  lemma {:induction false} CutLine(line: string, more: string)
    requires '\n' !in line
    ensures Cut(line + "\n" + more) == Lines([line] + Cut(more).full, Cut(more).rest)
  {
    var s := line + "\n";
    CutTerminated(line, s);
    CutInPieces(s, more);
    assert "" + more == more;
  }

  ghost predicate Unbroken(lines: seq<string>) { forall k :: 0 <= k < |lines| ==> '\n' !in lines[k] }

  lemma {:induction false} CutWritten(lines: seq<string>, more: string)
    requires Unbroken(lines)
    ensures Cut(Written(lines) + more) == Lines(lines + Cut(more).full, Cut(more).rest)
    decreases |lines|
  {
    if lines == [] {
      assert Written(lines) + more == more;
    } else {
      CutWritten(lines[1..], more);
      CutLine(lines[0], Written(lines[1..]) + more);
      assert Written(lines) + more == lines[0] + "\n" + (Written(lines[1..]) + more);
      assert [lines[0]] + (lines[1..] + Cut(more).full) == lines + Cut(more).full;
    }
  }
}

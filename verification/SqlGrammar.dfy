/** The token language of the migration splitter: writing well-separated tokens
    and splitting them again gives their groups back, and splitting is
    idempotent on every text.  The forms are those of sections 4.1.2.1 and
    4.1.2.4 of the PostgreSQL 16 documentation, as far as the splitter knows them. */
module SqlGrammar {
  import opened SqlSplitter

  // ------------------------------------------------------ writing tokens out

  /** The source text of a token; only a comment differs from what it emits. */
  function Write(t: Token): string {
    match t
    case Comment(body) => "--" + body + "\n"
    case _ => Emit(t)
  }

  function WriteAll(ts: seq<Token>): string {
    if ts == [] then "" else Write(ts[0]) + WriteAll(ts[1..])
  }

  /** Quotes inside '...' come in pairs. */
  predicate Escaped(body: string) {
    if body == "" then true
    else if body[0] != '\'' then Escaped(body[1..])
    else |body| >= 2 && body[1] == '\'' && Escaped(body[2..])
  }

  /** `rest` may follow the token without changing it. */
  predicate Separated(t: Token, rest: string) {
    match t
    case Plain(c) =>
      && c != '\'' && c != '"' && c != ';'
      && (c == '-' ==> rest == "" || rest[0] != '-')
      && (c == '$' ==> Lacks(rest, '$'))
    case Str(body) => Escaped(body) && (rest == "" || rest[0] != '\'')
    case Ident(body) => Lacks(body, '"')
    case Dollar(name, body) => Lacks(name, '$') && Find(body + Tag(name), Tag(name), 0) == |body|
    case Comment(body) => Lacks(body, '\n')
    case Semi => true
    case Open(text) => rest == "" && text != "" && Head(text) == (Open(text), |text|)
  }

  predicate WellSeparated(ts: seq<Token>) {
    ts != [] ==> Separated(ts[0], WriteAll(ts[1..])) && WellSeparated(ts[1..])
  }

  // --------------------------------------------- reading one token back again

  lemma {:induction false} LacksAppend(a: string, b: string, c: char)
    ensures Lacks(a + b, c) <==> Lacks(a, c) && Lacks(b, c)
    decreases |a|
  {
    if a == "" {
      assert a + b == b;
    } else {
      assert (a + b)[1..] == a[1..] + b;
      LacksAppend(a[1..], b, c);
      LacksCons(a + b, c);
      LacksCons(a, c);
    }
  }

  lemma LacksCons(s: string, c: char)
    requires s != ""
    ensures Lacks(s, c) <==> s[0] != c && Lacks(s[1..], c)
  {
    IndexOfSkip(s, c, 1, 1);
  }

  /** The text before the first occurrence lacks the character, and only that text. */
  lemma {:induction false} IndexOfText(body: string, c: char, rest: string)
    requires Lacks(body, c)
    ensures IndexOf(body + [c] + rest, c, 0) == |body|
    decreases |body|
  {
    var s := body + [c] + rest;
    if body != "" {
      LacksCons(body, c);
      assert s[1..] == body[1..] + [c] + rest;
      IndexOfText(body[1..], c, rest);
      IndexOfSkip(s, c, 1, 1);
    }
  }

  lemma {:induction false} LacksBefore(s: string, c: char, from: nat)
    requires from <= |s|
    ensures Lacks(s[from..IndexOf(s, c, from)], c)
    decreases |s| - from
  {
    if from < |s| && s[from] != c {
      LacksBefore(s, c, from + 1);
      var body := s[from..IndexOf(s, c, from)];
      assert body[1..] == s[from + 1..IndexOf(s, c, from)];
      LacksCons(body, c);
    }
  }

  lemma {:induction false} StrEndOfEscaped(s: string, from: nat, body: string, rest: string)
    requires from <= |s| && s[from..] == body + "'" + rest
    requires Escaped(body) && (rest == "" || rest[0] != '\'')
    ensures StrEnd(s, from) == from + |body| + 1
    decreases |body|
  {
    var t := s[from..];
    assert s[from] == t[0];
    if body == "" {
      if from + 1 < |s| { assert s[from + 1] == t[1] == rest[0]; }
    } else if body[0] != '\'' {
      assert s[from + 1..] == t[1..] == body[1..] + "'" + rest;
      StrEndOfEscaped(s, from + 1, body[1..], rest);
    } else {
      assert s[from + 1] == t[1] == body[1];
      assert s[from + 2..] == t[2..] == body[2..] + "'" + rest;
      StrEndOfEscaped(s, from + 2, body[2..], rest);
    }
  }

  lemma ReadStr(body: string, rest: string)
    requires Separated(Str(body), rest)
    ensures Head(Write(Str(body)) + rest) == (Str(body), |Write(Str(body))|)
  {
    var s := Write(Str(body)) + rest;
    assert s[1..] == body + "'" + rest;
    StrEndOfEscaped(s, 1, body, rest);
    assert s[1..|body| + 1] == body;
    assert Head(s) == HeadSingle(s);
  }

  lemma ReadIdent(body: string, rest: string)
    requires Separated(Ident(body), rest)
    ensures Head(Write(Ident(body)) + rest) == (Ident(body), |Write(Ident(body))|)
  {
    var s := Write(Ident(body)) + rest;
    assert s[1..] == body + ['"'] + rest;
    IndexOfText(body, '"', rest);
    IndexOfSkip(s, '"', 1, 1);
    assert s[1..|body| + 1] == body;
    assert Head(s) == HeadDouble(s);
  }

  lemma ReadComment(body: string, rest: string)
    requires Separated(Comment(body), rest)
    ensures Head(Write(Comment(body)) + rest) == (Comment(body), |Write(Comment(body))|)
  {
    var s := Write(Comment(body)) + rest;
    assert Dashes(s);
    assert s == ("--" + body) + ['\n'] + rest;
    LacksAppend("--", body, '\n');
    IndexOfText("--" + body, '\n', rest);
    assert s[2..|body| + 2] == body;
    assert Head(s) == HeadComment(s);
  }

  /** What comes after the first occurrence of a pattern does not matter. */
  lemma {:induction false} FindInPrefix(s: string, more: string, pat: string, from: nat)
    requires from <= |s| + 1 && Find(s, pat, from) <= |s|
    ensures Find(s + more, pat, from) == Find(s, pat, from)
    decreases |s| + 1 - from
  {
    assert (s + more)[..|s|] == s;
    OccursInCut(s + more, |s|, pat, from);
    if !At(s, pat, from) { FindInPrefix(s, more, pat, from + 1); }
  }

  lemma OccursInCut(s: string, n: nat, pat: string, from: nat)
    requires from + |pat| <= n <= |s|
    ensures At(s[..n], pat, from) <==> At(s, pat, from)
  {
  }

  lemma {:induction false} TagEnd(name: string, after: string)
    requires Lacks(name, '$')
    ensures IndexOf(Tag(name) + after, '$', 1) == |name| + 1
  {
    var s := Tag(name) + after;
    assert s[1..] == name + ['$'] + after;
    IndexOfText(name, '$', after);
    IndexOfSkip(s, '$', 1, 1);
  }

  lemma {:induction false} ClosingTag(s: string, n: nat, tail: string, tag: string)
    requires n <= |s| && s[n..] == tail
    ensures Find(s, tag, n) == n + Find(tail, tag, 0)
  {
    FindSkip(s, tag, n, n);
  }

  lemma {:induction false} HeadDollarIs(s: string, k: nat, j: nat)
    requires 1 <= k < |s| && j <= |s| && Find(s, s[..k + 1], k + 1) == j
    ensures HeadDollar(s, k) == (Dollar(s[1..k], s[k + 1..j]), j + k + 1)
  {
  }

  lemma BodySlice(s: string, k: nat, j: nat, tail: string, body: string)
    requires k + 1 <= j <= |s| && s[k + 1..] == tail && j == k + 1 + |body| && |body| <= |tail| && tail[..|body|] == body
    ensures s[k + 1..j] == body
  {
  }

  lemma HeadIsDollar(s: string, name: string, after: string)
    requires Lacks(name, '$') && s == Tag(name) + after
    ensures s != "" && Head(s) == HeadDollar(s, |name| + 1)
  {
    TagEnd(name, after);
    assert s[0] == '$';
  }

  lemma {:induction false} ReadDollarBody(s: string, k: nat, j: nat, name: string, body: string, tail: string)
    requires 1 <= k < |s| && j <= |s| && Find(s, s[..k + 1], k + 1) == j
    requires s[1..k] == name && s[k + 1..] == tail
    requires j == k + 1 + |body| && |body| <= |tail| && tail[..|body|] == body
    ensures HeadDollar(s, k) == (Dollar(name, body), j + k + 1)
  {
    HeadDollarIs(s, k, j);
    BodySlice(s, k, j, tail, body);
  }

  lemma {:induction false} BodyThenTag(tag: string, body: string, rest: string)
    requires Find(body + tag, tag, 0) == |body|
    ensures var tail := body + tag + rest; tail[..|body|] == body && Find(tail, tag, 0) == |body|
  {
    FindInPrefix(body + tag, rest, tag, 0);
  }

  lemma {:induction false} ReadTagged(s: string, n: nat, tag: string, name: string, body: string, tail: string)
    requires 1 <= n < |s| && s[1..n] == name && s[n + 1..] == tail && s[..n + 1] == tag
    requires |body| <= |tail| && tail[..|body|] == body && Find(tail, tag, 0) == |body|
    ensures HeadDollar(s, n) == (Dollar(name, body), n + 1 + |body| + n + 1)
  {
    ClosingTag(s, n + 1, tail, tag);
    ReadDollarBody(s, n, n + 1 + |body|, name, body, tail);
  }

  lemma {:induction false} ReadDollarTail(s: string, name: string, tag: string, body: string, tail: string)
    requires tag == Tag(name) && s == tag + tail
    requires |body| <= |tail| && tail[..|body|] == body && Find(tail, tag, 0) == |body|
    ensures HeadDollar(s, |name| + 1) == (Dollar(name, body), |name| + 2 + |body| + |name| + 2)
  {
    ReadTagged(s, |name| + 1, tag, name, body, tail);
  }

  lemma {:induction false} ReadDollarText(s: string, name: string, tag: string, body: string, tail: string)
    requires Lacks(name, '$') && tag == Tag(name) && s == tag + tail
    requires |body| <= |tail| && tail[..|body|] == body && Find(tail, tag, 0) == |body|
    ensures s != "" && Head(s) == (Dollar(name, body), |name| + 2 + |body| + |name| + 2)
  {
    ReadDollarTail(s, name, tag, body, tail);
    HeadIsDollar(s, name, tail);
  }

  lemma {:induction false} ReadDollarWhole(s: string, name: string, tag: string, body: string, rest: string)
    requires Lacks(name, '$') && tag == Tag(name) && s == tag + (body + tag + rest)
    requires Find(body + tag, tag, 0) == |body|
    ensures s != "" && Head(s) == (Dollar(name, body), |name| + 2 + |body| + |name| + 2)
  {
    BodyThenTag(tag, body, rest);
    ReadDollarText(s, name, tag, body, body + tag + rest);
  }

  lemma ReadDollar(name: string, body: string, rest: string)
    requires Separated(Dollar(name, body), rest)
    ensures Head(Write(Dollar(name, body)) + rest) == (Dollar(name, body), |Write(Dollar(name, body))|)
  {
    ReadDollarWhole(Write(Dollar(name, body)) + rest, name, Tag(name), body, rest);
  }

  lemma ReadPlain(c: char, rest: string)
    requires Separated(Plain(c), rest)
    ensures Head([c] + rest) == (Plain(c), 1)
  {
    var s := [c] + rest;
    assert s[1..] == rest;
    if c == '$' { IndexOfSkip(s, '$', 1, 1); }
  }

  lemma ReadToken(t: Token, rest: string)
    requires Separated(t, rest)
    ensures Write(t) + rest != "" && Head(Write(t) + rest) == (t, |Write(t)|)
  {
    match t
    case Plain(c) => ReadPlain(c, rest);
    case Str(body) => ReadStr(body, rest);
    case Ident(body) => ReadIdent(body, rest);
    case Dollar(name, body) => ReadDollar(name, body, rest);
    case Comment(body) => ReadComment(body, rest);
    case Semi => assert (";" + rest)[0] == ';';
    case Open(text) => assert text + rest == text;
  }

  lemma {:induction false} TokenizeCons(t: Token, rest: string)
    requires Separated(t, rest)
    ensures Tokenize(Write(t) + rest) == [t] + Tokenize(rest)
  {
    ReadToken(t, rest);
    var s := Write(t) + rest;
    assert s[|Write(t)|..] == rest;
    assert Head(s) == (t, |Write(t)|);
  }

  /** The lexer inverts the writer on every well-separated token sequence. */
  lemma {:induction false} TokenizeInvertsWrite(ts: seq<Token>)
    requires WellSeparated(ts)
    ensures Tokenize(WriteAll(ts)) == ts
  {
    if ts != [] {
      TokenizeCons(ts[0], WriteAll(ts[1..]));
      TokenizeInvertsWrite(ts[1..]);
      assert ts == [ts[0]] + ts[1..];
    }
  }

  // ------------------------------------------------- statements between semis

  /** The runs of tokens between the semicolons. */
  function Blocks(ts: seq<Token>): (r: seq<seq<Token>>)
    ensures r != []
  {
    if ts == [] then [[]]
    else
      var tail := Blocks(ts[1..]);
      if ts[0] == Semi then [[]] + tail else [[ts[0]] + tail[0]] + tail[1..]
  }

  /** The trimmed non-blank statements of the blocks. */
  function Statements(blocks: seq<seq<Token>>): seq<string> {
    if blocks == [] then [] else Keep(EmitAll(blocks[0])) + Statements(blocks[1..])
  }

  lemma {:induction false} GroupIsBlocks(ts: seq<Token>, stmt: string)
    ensures Group(ts, stmt) == Keep(stmt + EmitAll(Blocks(ts)[0])) + Statements(Blocks(ts)[1..])
  {
    if ts == [] {
      assert stmt + EmitAll([]) == stmt;
    } else if ts[0] == Semi {
      GroupIsBlocks(ts[1..], "");
      var tail := Blocks(ts[1..]);
      assert Blocks(ts)[1..] == tail;
      assert stmt + EmitAll([]) == stmt && "" + EmitAll(tail[0]) == EmitAll(tail[0]);
    } else {
      GroupIsBlocks(ts[1..], stmt + Emit(ts[0]));
      var tail := Blocks(ts[1..]);
      assert Blocks(ts)[1..] == tail[1..];
      assert ([ts[0]] + tail[0])[1..] == tail[0];
      assert stmt + Emit(ts[0]) + EmitAll(tail[0]) == stmt + (Emit(ts[0]) + EmitAll(tail[0]));
    }
  }

  /** The splitter on a well-separated text: the trimmed non-blank groups between
      its semicolon tokens, each comment replaced by a newline. */
  lemma {:induction false} SplitOfWritten(ts: seq<Token>)
    requires WellSeparated(ts)
    ensures Split(WriteAll(ts)) == Statements(Blocks(ts))
  {
    TokenizeInvertsWrite(ts);
    GroupIsBlocks(ts, "");
    assert "" + EmitAll(Blocks(ts)[0]) == EmitAll(Blocks(ts)[0]);
  }

  /** A comment does to its statement what a newline in its place would. */
  lemma {:induction false} CommentIsNewline(body: string, rest: string, stmt: string)
    requires '\n' !in body
    ensures Group(Tokenize("--" + body + "\n" + rest), stmt) == Group(Tokenize("\n" + rest), stmt)
  {
    LacksExactly(body, '\n');
    var s := "--" + body + "\n" + rest;
    assert s == Write(Comment(body)) + rest;
    ReadComment(body, rest);
    assert s[|Write(Comment(body))|..] == rest;
    GroupCons(s, stmt);
    var t := "\n" + rest;
    assert Head(t) == (Plain('\n'), 1) && t[1..] == rest;
    GroupCons(t, stmt);
  }

  lemma LacksExactly(s: string, c: char)
    requires c !in s
    ensures Lacks(s, c)
  {
    IndexOfIs(s, c, 0, |s|);
  }

  // -------------------------------------------------------------- idempotence

  /** The token a comment leaves in its statement. */
  function Norm(t: Token): Token { if t.Comment? then Plain('\n') else t }

  function NormAll(ts: seq<Token>): seq<Token> {
    if ts == [] then [] else [Norm(ts[0])] + NormAll(ts[1..])
  }

  lemma {:induction false} NormKeepsGroup(ts: seq<Token>, stmt: string)
    ensures Group(NormAll(ts), stmt) == Group(ts, stmt)
  {
    if ts != [] {
      assert NormAll(ts)[1..] == NormAll(ts[1..]);
      NormKeepsGroup(ts[1..], if ts[0] == Semi then "" else stmt + Emit(ts[0]));
    }
  }

  lemma {:induction false} EscapedEnd(s: string, from: nat)
    requires from <= |s| && StrEnd(s, from) != 0
    ensures var r := StrEnd(s, from); Escaped(s[from..r - 1]) && (r < |s| ==> s[r] != '\'')
    decreases |s| - from
  {
    var r := StrEnd(s, from);
    if s[from] != '\'' {
      EscapedEnd(s, from + 1);
      assert s[from..r - 1][1..] == s[from + 1..r - 1];
    } else if from + 1 < |s| && s[from + 1] == '\'' {
      EscapedEnd(s, from + 2);
      assert s[from..r - 1][2..] == s[from + 2..r - 1];
    }
  }

  /** Cutting a text after an occurrence of a pattern keeps where it is first found. */
  lemma {:induction false} FindInCut(s: string, n: nat, pat: string, from: nat)
    requires from <= |s| + 1 && Find(s, pat, from) + |pat| <= n <= |s|
    ensures Find(s[..n], pat, from) == Find(s, pat, from)
    decreases |s| + 1 - from
  {
    OccursInCut(s, n, pat, from);
    if !At(s, pat, from) { FindInCut(s, n, pat, from + 1); }
  }

  lemma {:induction false} HitText(s: string, pat: string, from: nat)
    requires from <= |s| + 1 && Find(s, pat, from) <= |s|
    ensures var n := Find(s, pat, from); s[n..n + |pat|] == pat && s[..n + |pat|] == s[..n] + pat
  {
    FindHit(s, pat, from);
    PrefixIsSlice(s, Find(s, pat, from), pat);
  }

  lemma {:induction false} BodyFound(tail: string, tag: string, n: nat)
    requires n == Find(tail, tag, 0) <= |tail|
    ensures Find(tail[..n] + tag, tag, 0) == n
  {
    HitText(tail, tag, 0);
    FindInCut(tail, n + |tag|, tag, 0);
  }

  /** The closing tag of a dollar quote, seen from the text after the opening one. */
  lemma ClosingFound(s: string, k: nat, tag: string, body: string)
    requires k < |s| && tag == s[..k + 1]
    requires Find(s, tag, k + 1) <= |s| && body == s[k + 1..Find(s, tag, k + 1)]
    ensures Find(body + tag, tag, 0) == |body|
  {
    var tail := s[k + 1..];
    FindSkip(s, tag, k + 1, k + 1);
    var n := Find(tail, tag, 0);
    BodyFound(tail, tag, n);
    assert tail[..n] == body;
  }

  lemma {:induction false} DollarHeadSeparated(s: string, k: nat, rest: string)
    requires s != "" && s[0] == '$' && k == IndexOf(s, '$', 1) < |s| && HeadDollar(s, k).0.Dollar?
    ensures Separated(HeadDollar(s, k).0, rest)
  {
    LacksBefore(s, '$', 1);
    TagText(s, k);
    ClosingFound(s, k, s[..k + 1], HeadDollar(s, k).0.body);
  }

  /** The first character the tokens of a text write is the text's own, or the
      newline of a comment; and they write no dollar sign the text has not. */
  ghost predicate Starts(w: string, s: string) {
    && (w == "" <==> s == "")
    && (s != "" && w != "" ==> w[0] == s[0] || w[0] == '\n')
    && (Lacks(s, '$') ==> Lacks(w, '$'))
  }

  lemma StartsAppend(head: string, more: string, s: string, n: nat)
    requires 0 < n <= |s| && head != "" && (head[0] == s[0] || head[0] == '\n')
    requires Lacks(s[..n], '$') ==> Lacks(head, '$')
    requires Starts(more, s[n..])
    ensures Starts(head + more, s)
  {
    LacksAppend(head, more, '$');
    LacksAppend(s[..n], s[n..], '$');
    assert s == s[..n] + s[n..];
  }

  lemma {:induction false} NormWrites(s: string)
    ensures Starts(WriteAll(NormAll(Tokenize(s))), s)
    decreases |s|
  {
    if s != "" {
      var n := Head(s).1;
      NormWrites(s[n..]);
      HeadWrites(s);
      StartsAppend(Write(Norm(Head(s).0)), WriteAll(NormAll(Tokenize(s[n..]))), s, n);
      NormCons(s);
    }
  }

  lemma {:induction false} NormCons(s: string)
    requires s != ""
    ensures NormAll(Tokenize(s)) == [Norm(Head(s).0)] + NormAll(Tokenize(s[Head(s).1..]))
    ensures NormAll(Tokenize(s))[1..] == NormAll(Tokenize(s[Head(s).1..]))
  {
  }

  lemma {:induction false} HeadDollarClosed(s: string, k: nat, j: nat)
    requires 0 < k < |s| && s[0] == '$' && s[k] == '$' && j <= |s| && Find(s, s[..k + 1], k + 1) == j
    ensures HeadDollar(s, k) == (Dollar(s[1..k], s[k + 1..j]), j + k + 1)
    ensures j + k + 1 <= |s| && Emit(Dollar(s[1..k], s[k + 1..j])) == s[..j + k + 1]
  {
    FindHit(s, s[..k + 1], k + 1);
    HeadDollarIs(s, k, j);
    DollarText(s, k, j);
  }

  lemma {:induction false} HeadDollarWrites(s: string, k: nat)
    requires s != "" && s[0] == '$' && k == IndexOf(s, '$', 1) < |s|
    ensures Emit(HeadDollar(s, k).0) == s[..HeadDollar(s, k).1] && !HeadDollar(s, k).0.Comment?
  {
    if Find(s, s[..k + 1], k + 1) <= |s| {
      HeadDollarClosed(s, k, Find(s, s[..k + 1], k + 1));
    } else {
      assert s[..|s|] == s;
    }
  }

  lemma HeadCopied(s: string)
    requires s != "" && !(Dashes(s))
    ensures var (t, n) := Head(s); !t.Comment? && Write(t) == s[..n]
  {
    if s[0] == '$' && IndexOf(s, '$', 1) < |s| { HeadDollarWrites(s, IndexOf(s, '$', 1)); }
  }

  lemma HeadWrites(s: string)
    requires s != ""
    ensures var w := Write(Norm(Head(s).0));
            w != "" && (w[0] == s[0] || w[0] == '\n') && (Lacks(s[..Head(s).1], '$') ==> Lacks(w, '$'))
  {
    if !(Dashes(s)) { HeadCopied(s); }
  }

  lemma QuoteSeparated(s: string, w: string)
    requires s != "" && (s[0] == '\'' || s[0] == '"') && Starts(w, s[Head(s).1..])
    ensures Separated(Head(s).0, w)
  {
    if s[0] == '\'' {
      assert Head(s) == HeadSingle(s);
      if StrEnd(s, 1) != 0 { EscapedEnd(s, 1); }
    } else {
      assert Head(s) == HeadDouble(s);
      LacksBefore(s, '"', 1);
    }
  }

  lemma {:induction false} PlainSeparated(s: string, w: string)
    requires s != "" && !Dashes(s) && s[0] != '\'' && s[0] != '"' && s[0] != ';' && Starts(w, s[1..])
    requires s[0] == '$' ==> IndexOf(s, '$', 1) == |s|
    ensures Separated(Plain(s[0]), w)
  {
    if s[0] == '$' {
      LacksBefore(s, '$', 1);
      assert s[1..|s|] == s[1..];
    }
  }

  lemma HeadSeparated(s: string)
    requires s != ""
    ensures Separated(Norm(Head(s).0), WriteAll(NormAll(Tokenize(s[Head(s).1..]))))
  {
    var w := WriteAll(NormAll(Tokenize(s[Head(s).1..])));
    NormWrites(s[Head(s).1..]);
    if !Dashes(s) && s[0] != ';' {
      if s[0] == '$' && IndexOf(s, '$', 1) < |s| {
        if Head(s).0.Dollar? { DollarHeadSeparated(s, IndexOf(s, '$', 1), w); }
      } else if s[0] == '\'' || s[0] == '"' {
        QuoteSeparated(s, w);
      } else {
        PlainSeparated(s, w);
      }
    }
  }

  /** Whatever the text, its tokens with comments as newlines are well separated. */
  lemma {:induction false} TokensWellSeparated(s: string)
    ensures WellSeparated(NormAll(Tokenize(s)))
    decreases |s|
  {
    if s != "" {
      var n := Head(s).1;
      HeadSeparated(s);
      TokensWellSeparated(s[n..]);
      NormCons(s);
    }
  }
}

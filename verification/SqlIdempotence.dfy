/** Splitting, joining the statements with semicolons and splitting again changes
    nothing, for every text: unclosed quotes, lone dollar signs and a comment on
    the last line included.  The proof rests on what the splitter returns being
    the text of token blocks that stay well separated when they are trimmed and
    put behind one another. */
module SqlIdempotence {
  import opened SqlSplitter
  import opened SqlGrammar
  import opened SqlTrimming

  /** strings.Join(stmts, ";"). */
  function Join(stmts: seq<string>): string {
    if stmts == [] then ""
    else if |stmts| == 1 then stmts[0]
    else stmts[0] + ";" + Join(stmts[1..])
  }

  /** Split after join after split is split, for every text. */
  lemma SplitIdempotent(s: string)
    ensures Split(Join(Split(s))) == Split(s)
  {
    var ts := NormAll(Tokenize(s));
    NormKeepsGroup(Tokenize(s), "");
    NormHasNoComments(Tokenize(s));
    TokensWellSeparated(s);
    ApartIsWellSeparated(ts);
    TidyTokens(ts);
    GroupIsBlocks(ts, "");
    assert "" + EmitAll(Blocks(ts)[0]) == EmitAll(Blocks(ts)[0]);
    assert Statements(Blocks(ts)) == Split(s);
    var tidy := Tidy(Blocks(ts));
    ApartIsWellSeparated(tidy);
    SplitOfWritten(tidy);
  }

  /** The first block of a token sequence, and what follows its semicolon. */
  lemma {:induction false} FirstBlock(ts: seq<Token>) returns (b: seq<Token>, rest: seq<Token>, ended: bool)
    requires NoComments(ts)
    ensures NoSemis(b) && NoComments(b) && NoComments(rest)
    ensures ended ==> ts == b + ([Semi] + rest) && Blocks(ts) == [b] + Blocks(rest) && |rest| < |ts|
    ensures !ended ==> ts == b && Blocks(ts) == [b]
  {
    if ts == [] {
      return [], [], false;
    }
    if ts[0] == Semi {
      assert ts == [] + ([Semi] + ts[1..]);
      return [], ts[1..], true;
    }
    b, rest, ended := FirstBlock(ts[1..]);
    ghost var more := [ts[0]] + b;
    assert more[1..] == b;
    assert ts == [ts[0]] + ts[1..];
    if ended {
      assert ts == more + ([Semi] + rest);
    }
    b := more;
  }

  lemma {:induction false} BlocksOf(b: seq<Token>, rest: seq<Token>)
    requires NoSemis(b)
    ensures Blocks(b) == [b] && Blocks(b + [Semi] + rest) == [b] + Blocks(rest)
  {
    var ts := b + [Semi] + rest;
    if b == [] {
      assert ts == [Semi] + rest && ts[1..] == rest;
    } else {
      BlocksOf(b[1..], rest);
      assert ts[1..] == b[1..] + [Semi] + rest;
      assert b == [b[0]] + b[1..];
    }
  }

  /** One trimmed block in front of the tidy tokens of the others. */
  function TidyJoin(head: seq<Token>, tail: seq<Token>): seq<Token> {
    if head == [] then tail else if tail == [] then head else head + [Semi] + tail
  }

  /** The trimmed non-blank blocks, semicolons between them. */
  function Tidy(blocks: seq<seq<Token>>): seq<Token> {
    if blocks == [] then [] else TidyJoin(TrimTokens(blocks[0]), Tidy(blocks[1..]))
  }

  /** What the induction carries: the tidy tokens of a text written as `source`, and
      the statements they stand for. */
  ghost predicate Renders(tidy: seq<Token>, stmts: seq<string>, source: string) {
    && Apart(tidy, "")
    && (Lacks(source, '$') ==> Lacks(WriteAll(tidy), '$'))
    && (tidy == [] <==> stmts == [])
    && WriteAll(tidy) == Join(stmts)
    && Statements(Blocks(tidy)) == stmts
  }

  lemma {:induction false} TrimmedBlock(b: seq<Token>, after: string)
    requires NoSemis(b) && NoComments(b) && Apart(b, after) && (after == "" || after[0] == ';')
    ensures var h := TrimTokens(b);
            && Apart(h, after) && AllInner(h) && NoSemis(h)
            && WriteAll(h) == EmitAll(h) == Trim(EmitAll(b))
            && (h == [] <==> Trim(EmitAll(b)) == "")
            && Keep(EmitAll(h)) == Keep(EmitAll(b))
            && (Lacks(WriteAll(b), '$') ==> Lacks(WriteAll(h), '$'))
  {
    var h := TrimTokens(b);
    ApartInner(b, after);
    ApartTrimLeft(b, after);
    ApartTrimRight(TrimTokensLeft(b), after);
    TrimOfTokens(b);
    InnerWrites(h);
    TrimTwice(EmitAll(b));
    TrimLeftLacks(EmitAll(b), '$');
    TrimRightLacks(TrimLeft(EmitAll(b)), '$');
  }

  lemma {:induction false} StatementsCons(b: seq<Token>, blocks: seq<seq<Token>>)
    ensures Statements([b] + blocks) == Keep(EmitAll(b)) + Statements(blocks)
  {
    assert ([b] + blocks)[1..] == blocks;
  }

  lemma {:induction false} SemiFirst(tail: seq<Token>, after: string)
    ensures WriteAll([Semi] + tail) == ";" + WriteAll(tail)
    ensures Apart([Semi] + tail, after) <==> Apart(tail, after)
  {
    assert ([Semi] + tail)[1..] == tail;
  }

  lemma {:induction false} WriteAtSemi(b: seq<Token>, rest: seq<Token>)
    ensures WriteAll(b + ([Semi] + rest)) == WriteAll(b) + ";" + WriteAll(rest)
  {
    SemiFirst(rest, "");
    WriteAppend(b, [Semi] + rest);
    Concat3(WriteAll(b), ";", WriteAll(rest));
  }

  lemma SofterRest(u: string, v: string)
    requires Lacks(u, '$') ==> Lacks(v, '$')
    ensures Softer(";" + u, ";" + v)
  {
    LacksAppend(";", u, '$');
    LacksAppend(";", v, '$');
  }

  lemma LacksParts(x: string, y: string, c: char)
    requires c != ';'
    ensures Lacks(x + ";" + y, c) <==> Lacks(x, c) && Lacks(y, c)
  {
    LacksAppend(x + ";", y, c);
    LacksAppend(x, ";", c);
  }

  lemma {:induction false} ApartBoth(h: seq<Token>, tail: seq<Token>, rest: string)
    requires Apart(h, ";" + rest) && Apart(tail, "")
    requires Lacks(rest, '$') ==> Lacks(WriteAll(tail), '$')
    ensures var j := [Semi] + tail;
            Apart(h + j, "") && WriteAll(h + j) == WriteAll(h) + ";" + WriteAll(tail)
  {
    var j := [Semi] + tail;
    SofterRest(rest, WriteAll(tail));
    ApartSofter(h, ";" + rest, ";" + WriteAll(tail));
    SemiFirst(tail, "");
    assert WriteAll(j) + "" == ";" + WriteAll(tail);
    ApartAppend(h, j, "");
    WriteAtSemi(h, tail);
  }

  lemma {:induction false} OneBlock(h: seq<Token>)
    requires NoSemis(h)
    ensures Statements(Blocks(h)) == Keep(EmitAll(h))
  {
    BlocksOf(h, []);
    StatementsCons(h, []);
    assert [h] + [] == [h] && Keep(EmitAll(h)) + [] == Keep(EmitAll(h));
  }

  /** A block that stands alone. */
  lemma {:induction false} RendersAlone(h: seq<Token>, source: string)
    requires Apart(h, "") && NoSemis(h) && (h == [] <==> Keep(EmitAll(h)) == [])
    requires WriteAll(h) == Join(Keep(EmitAll(h))) && (Lacks(source, '$') ==> Lacks(WriteAll(h), '$'))
    ensures Renders(h, Keep(EmitAll(h)), source)
  {
    OneBlock(h);
  }

  lemma {:induction false} StatementsOfTidy(h: seq<Token>, tail: seq<Token>)
    requires NoSemis(h)
    ensures Statements(Blocks(h + [Semi] + tail)) == Keep(EmitAll(h)) + Statements(Blocks(tail))
  {
    BlocksOf(h, tail);
    StatementsCons(h, Blocks(tail));
  }

  /** A block in front of others, a semicolon between. */
  lemma {:induction false} RendersMore(h: seq<Token>, tail: seq<Token>, stmts: seq<string>, x: string, rest: string, source: string)
    requires h != [] && NoSemis(h) && Keep(EmitAll(h)) == [x] && WriteAll(h) == x && Apart(h, ";" + rest)
    requires Renders(tail, stmts, rest) && tail != [] && (Lacks(source, '$') ==> Lacks(x, '$') && Lacks(rest, '$'))
    ensures Renders(h + [Semi] + tail, [x] + stmts, source)
  {
    ApartBoth(h, tail, rest);
    assert h + [Semi] + tail == h + ([Semi] + tail);
    LacksParts(x, WriteAll(tail), '$');
    StatementsOfTidy(h, tail);
  }

  lemma {:induction false} RendersCons(b: seq<Token>, tail: seq<Token>, stmts: seq<string>, rest: string)
    requires NoSemis(b) && NoComments(b) && Apart(b, ";" + rest) && Renders(tail, stmts, rest)
    ensures Renders(TidyJoin(TrimTokens(b), tail), Keep(EmitAll(b)) + stmts, WriteAll(b) + ";" + rest)
  {
    var h, source := TrimTokens(b), WriteAll(b) + ";" + rest;
    TrimmedBlock(b, ";" + rest);
    LacksParts(WriteAll(b), rest, '$');
    if h == [] {
      assert Keep(EmitAll(b)) + stmts == stmts;
    } else if tail == [] {
      ApartSofter(h, ";" + rest, "");
      RendersAlone(h, source);
      assert Keep(EmitAll(b)) + stmts == Keep(EmitAll(h));
    } else {
      RendersMore(h, tail, stmts, Trim(EmitAll(b)), rest, source);
    }
  }

  lemma {:induction false} RendersLast(b: seq<Token>)
    requires NoSemis(b) && NoComments(b) && Apart(b, "")
    ensures Renders(TrimTokens(b), Keep(EmitAll(b)), WriteAll(b))
  {
    TrimmedBlock(b, "");
    RendersAlone(TrimTokens(b), WriteAll(b));
  }

  lemma {:induction false} SplitAtSemi(b: seq<Token>, rest: seq<Token>)
    requires Apart(b + ([Semi] + rest), "")
    ensures Apart(b, ";" + WriteAll(rest)) && Apart(rest, "")
  {
    var j := [Semi] + rest;
    ApartAppend(b, j, "");
    SemiFirst(rest, "");
    assert WriteAll(j) + "" == ";" + WriteAll(rest);
  }

  lemma {:induction false} TidyTokens(ts: seq<Token>)
    requires Apart(ts, "") && NoComments(ts)
    ensures Renders(Tidy(Blocks(ts)), Statements(Blocks(ts)), WriteAll(ts))
    decreases |ts|
  {
    var b, rest, ended := FirstBlock(ts);
    if ended {
      SplitAtSemi(b, rest);
      TidyTokens(rest);
      RendersCons(b, Tidy(Blocks(rest)), Statements(Blocks(rest)), WriteAll(rest));
      WriteAtSemi(b, rest);
      StatementsCons(b, Blocks(rest));
      assert ([b] + Blocks(rest))[1..] == Blocks(rest);
    } else {
      RendersLast(b);
      assert Tidy([b]) == TidyJoin(TrimTokens(b), Tidy([b][1..])) == TrimTokens(b);
      assert Statements([b]) == Keep(EmitAll(b)) + Statements([b][1..]) == Keep(EmitAll(b));
    }
  }
}

/** What the splitter hands to the database, in terms of code points alone: each
    statement is its group without the white space around it, in order, and a group
    of nothing but white space gives none. */
module SqlStatements {
  import opened SqlSplitter
  import opened SqlGrammar
  import opened SqlTrimming

  /** The White_Space characters of Unicode, by code point. */
  predicate White(c: char) {
    var n := c as int;
    || 9 <= n <= 13 || n == 32 || n == 0x85 || n == 0xA0 || n == 0x1680 || 0x2000 <= n <= 0x200A
    || n == 0x2028 || n == 0x2029 || n == 0x202F || n == 0x205F || n == 0x3000
  }

  predicate AllWhite(s: string) { forall i :: 0 <= i < |s| ==> White(s[i]) }

  /** `core` stands in `g` between white space only, and neither begins nor ends with any. */
  ghost predicate CoreOf(g: string, core: string) {
    exists i, j :: 0 <= i < j <= |g| && core == g[i..j]
      && !White(g[i]) && !White(g[j - 1]) && AllWhite(g[..i]) && AllWhite(g[j..])
  }

  /** `stmts` are the cores of those groups that are not white, in order. */
  ghost predicate Cores(groups: seq<string>, stmts: seq<string>) {
    if groups == [] then stmts == []
    else if AllWhite(groups[0]) then Cores(groups[1..], stmts)
    else stmts != [] && CoreOf(groups[0], stmts[0]) && Cores(groups[1..], stmts[1..])
  }

  /** The texts of the blocks. */
  function Texts(blocks: seq<seq<Token>>): seq<string> {
    if blocks == [] then [] else [EmitAll(blocks[0])] + Texts(blocks[1..])
  }

  lemma SpacesAreWhite(c: char)
    ensures IsSpace(c) <==> White(c)
  {
  }

  lemma {:induction false} TrimLeftCuts(s: string)
    ensures var i := |s| - |TrimLeft(s)|; 0 <= i && TrimLeft(s) == s[i..] && AllWhite(s[..i])
    ensures TrimLeft(s) != "" ==> !White(TrimLeft(s)[0])
  {
    if s != "" && IsSpace(s[0]) {
      var rest := s[1..];
      TrimLeftCuts(rest);
      var i := |rest| - |TrimLeft(rest)|;
      assert TrimLeft(s) == TrimLeft(rest) && rest[i..] == s[i + 1..];
      WhiteCons(s, i + 1);
    }
  }

  lemma WhiteCons(s: string, n: nat)
    requires 0 < n <= |s| && White(s[0]) && AllWhite(s[1..][..n - 1])
    ensures AllWhite(s[..n])
  {
    assert s[..n] == [s[0]] + s[1..][..n - 1];
  }

  lemma {:induction false} TrimRightCuts(s: string)
    ensures var j := |TrimRight(s)|; j <= |s| && TrimRight(s) == s[..j] && AllWhite(s[j..])
    ensures TrimRight(s) != "" ==> !White(TrimRight(s)[|TrimRight(s)| - 1])
  {
    if s != "" && IsSpace(s[|s| - 1]) {
      var front := s[..|s| - 1];
      TrimRightCuts(front);
      var j := |TrimRight(front)|;
      assert s[j..] == front[j..] + [s[|s| - 1]];
      assert s[..j] == front[..j];
    }
  }

  /** What a group leaves behind. */
  lemma KeepsCore(g: string)
    ensures AllWhite(g) ==> Keep(g) == []
    ensures !AllWhite(g) ==> |Keep(g)| == 1 && CoreOf(g, Keep(g)[0])
  {
    var left := TrimLeft(g);
    TrimLeftCuts(g);
    TrimRightCuts(left);
    var i, j := |g| - |left|, |g| - |left| + |Trim(g)|;
    assert Trim(g) == g[i..j] && g[j..] == left[|Trim(g)|..];
    assert g == g[..i] + g[i..j] + g[j..];
    if i < j { assert left[0] == g[i] && g[j - 1] == Trim(g)[|Trim(g)| - 1]; }
  }

  lemma {:induction false} CoresCons(g: string, groups: seq<string>, stmts: seq<string>)
    requires Cores(groups, stmts)
    ensures Cores([g] + groups, Keep(g) + stmts)
  {
    KeepsCore(g);
    assert ([g] + groups)[1..] == groups;
    if AllWhite(g) {
      assert Keep(g) + stmts == stmts;
    } else {
      assert (Keep(g) + stmts)[1..] == stmts;
    }
  }

  lemma {:induction false} StatementsAreCores(blocks: seq<seq<Token>>)
    ensures Cores(Texts(blocks), Statements(blocks))
  {
    if blocks != [] {
      StatementsAreCores(blocks[1..]);
      CoresCons(EmitAll(blocks[0]), Texts(blocks[1..]), Statements(blocks[1..]));
    }
  }

  // ------------------------------------------------------------ main results

  /** Splitting any text gives the cores of its groups. */
  lemma {:induction false} SplitGivesCores(s: string)
    ensures Cores(Texts(Blocks(Tokenize(s))), Split(s))
  {
    GroupIsBlocks(Tokenize(s), "");
    assert "" + EmitAll(Blocks(Tokenize(s))[0]) == EmitAll(Blocks(Tokenize(s))[0]);
    StatementsAreCores(Blocks(Tokenize(s)));
  }

  lemma {:induction false} CoresAreTrimmed(groups: seq<string>, stmts: seq<string>, k: nat)
    requires Cores(groups, stmts) && k < |stmts|
    ensures stmts[k] != "" && !White(stmts[k][0]) && !White(stmts[k][|stmts[k]| - 1])
  {
    if AllWhite(groups[0]) { CoresAreTrimmed(groups[1..], stmts, k); }
    else if k > 0 { CoresAreTrimmed(groups[1..], stmts[1..], k - 1); }
  }

  /** No statement is empty, or begins or ends with a white character. */
  lemma SplitIsTrimmed(s: string, k: nat)
    requires k < |Split(s)|
    ensures var stmt := Split(s)[k];
            && stmt != ""
            && stmt[0] !in ['\n', '\r', '\t', ' '] && stmt[|stmt| - 1] !in ['\n', '\r', '\t', ' ']
            && !White(stmt[0]) && !White(stmt[|stmt| - 1])
  {
    SplitGivesCores(s);
    CoresAreTrimmed(Texts(Blocks(Tokenize(s))), Split(s), k);
  }

  /** White space and semicolons alone give no statement. */
  lemma {:induction false} WhiteGivesNothing(s: string)
    requires forall i :: 0 <= i < |s| ==> White(s[i]) || s[i] == ';'
    ensures Split(s) == []
  {
    WhiteGroups(s, "");
  }

  lemma {:induction false} WhiteGroups(s: string, stmt: string)
    requires AllWhite(stmt) && forall i :: 0 <= i < |s| ==> White(s[i]) || s[i] == ';'
    ensures Group(Tokenize(s), stmt) == []
  {
    if s == "" {
      KeepsCore(stmt);
    } else {
      assert White(s[0]) || s[0] == ';';
      assert Head(s) == if s[0] == ';' then (Semi, 1) else (Plain(s[0]), 1);
      KeepsCore(stmt);
      WhiteGroups(s[1..], if s[0] == ';' then "" else stmt + [s[0]]);
    }
  }
}

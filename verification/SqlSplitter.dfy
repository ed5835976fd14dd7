/** The migration runner's SQL splitter (services/api/internal/migrate/migrate.go):
    the byte loop with its mode flags, and the token language it implements.
    Text is a sequence of characters; the loop only compares with ASCII, so on
    valid UTF-8 this is the byte loop. */
module SqlSplitter {

  // ------------------------------------------------------------ white space

  /** unicode.IsSpace. */
  predicate IsSpace(c: char) {
    || c == '\t' || c == '\n' || c == '\U{0B}' || c == '\U{0C}' || c == '\r' || c == ' '
    || c == '\U{85}' || c == '\U{A0}' || c == '\U{1680}' || '\U{2000}' <= c <= '\U{200A}'
    || c == '\U{2028}' || c == '\U{2029}' || c == '\U{202F}' || c == '\U{205F}' || c == '\U{3000}'
  }

  function TrimLeft(s: string): string {
    if s != "" && IsSpace(s[0]) then TrimLeft(s[1..]) else s
  }

  function TrimRight(s: string): string {
    if s != "" && IsSpace(s[|s| - 1]) then TrimRight(s[..|s| - 1]) else s
  }

  /** strings.TrimSpace. */
  function Trim(s: string): string { TrimRight(TrimLeft(s)) }

  // ------------------------------------------------------------- searching

  /** The first `c` at or after `from`, or |s|. */
  function IndexOf(s: string, c: char, from: nat): (r: nat)
    requires from <= |s|
    ensures from <= r <= |s|
    ensures r < |s| ==> s[r] == c
    decreases |s| - from
  {
    if from == |s| || s[from] == c then from else IndexOf(s, c, from + 1)
  }

  /** `pat` stands in `s` at position n: strings.HasPrefix(s[n:], pat). */
  predicate At(s: string, pat: string, n: nat) {
    n + |pat| <= |s| && s[n..n + |pat|] == pat
  }

  predicate Dashes(s: string) { |s| > 1 && s[0] == '-' && s[1] == '-' }

  /** The first position at or after `from` where `pat` occurs in `s`, or |s|+1. */
  function Find(s: string, pat: string, from: nat): (r: nat)
    requires from <= |s| + 1
    ensures from <= r <= |s| + 1
    ensures r <= |s| ==> r + |pat| <= |s|
    decreases |s| + 1 - from
  {
    if from > |s| then from
    else if At(s, pat, from) then from
    else Find(s, pat, from + 1)
  }

  predicate Lacks(s: string, c: char) { IndexOf(s, c, 0) == |s| }

  lemma {:induction false} IndexOfIs(s: string, c: char, from: nat, r: nat)
    requires from <= r <= |s| && (r < |s| ==> s[r] == c)
    requires forall k :: from <= k < r ==> s[k] != c
    ensures IndexOf(s, c, from) == r
    decreases |s| - from
  {
    if from < r { IndexOfIs(s, c, from + 1, r); }
  }

  lemma {:induction false} IndexOfMiss(s: string, c: char, from: nat, k: nat)
    requires from <= |s| && from <= k < IndexOf(s, c, from)
    ensures s[k] != c
    decreases |s| - from
  {
    if from < k { IndexOfMiss(s, c, from + 1, k); }
  }

  lemma {:induction false} FindHit(s: string, pat: string, from: nat)
    requires from <= |s| + 1 && Find(s, pat, from) <= |s|
    ensures At(s, pat, Find(s, pat, from))
    decreases |s| + 1 - from
  {
    if !At(s, pat, from) { FindHit(s, pat, from + 1); }
  }

  lemma {:induction false} FindMiss(s: string, pat: string, from: nat, k: nat)
    requires from <= |s| + 1 && from <= k < Find(s, pat, from) && k <= |s|
    ensures !At(s, pat, k)
    decreases |s| + 1 - from
  {
    if from < k { FindMiss(s, pat, from + 1, k); }
  }

  // ------------------------------------------------------------- the tokens

  datatype Token =
    | Plain(c: char)                       // one character outside every quote
    | Str(body: string)                    // '...', body with '' kept as written
    | Ident(body: string)                  // "..."
    | Dollar(name: string, body: string)   // $name$...$name$
    | Comment(body: string)                // --... up to the end of the line
    | Semi
    | Open(text: string)                   // a quote the input never closes

  /** The end of the quoted string that starts at s[0]: the position after its
      closing quote, or 0 when there is none. */
  function StrEnd(s: string, from: nat): (r: nat)
    requires from <= |s|
    ensures r == 0 || from < r <= |s|
    ensures r != 0 ==> s[r - 1] == '\''
    decreases |s| - from
  {
    if from == |s| then 0
    else if s[from] != '\'' then StrEnd(s, from + 1)
    else if from + 1 < |s| && s[from + 1] == '\'' then StrEnd(s, from + 2)
    else from + 1
  }

  /** The end of the first line. */
  function LineEnd(s: string): (r: nat) { IndexOf(s, '\n', 0) }

  function HeadComment(s: string): (r: (Token, nat))
    requires Dashes(s)
    ensures 0 < r.1 <= |s|
  {
    var n := LineEnd(s);
    assert s[0] == '-' && s[1] == '-';
    if n < |s| then (Comment(s[2..n]), n + 1) else (Comment(s[2..]), |s|)
  }

  /** The tag runs to the next dollar sign, whatever stands between. */
  function HeadDollar(s: string, k: nat): (r: (Token, nat))
    requires 0 < k < |s|
    ensures 0 < r.1 <= |s| && !r.0.Semi?
  {
    var tag := s[..k + 1];
    var j := Find(s, tag, k + 1);
    if j <= |s| then (Dollar(s[1..k], s[k + 1..j]), j + |tag|) else (Open(s), |s|)
  }

  function HeadSingle(s: string): (r: (Token, nat))
    requires s != ""
    ensures 0 < r.1 <= |s| && !r.0.Semi?
  {
    var n := StrEnd(s, 1);
    if n != 0 then (Str(s[1..n - 1]), n) else (Open(s), |s|)
  }

  function HeadDouble(s: string): (r: (Token, nat))
    requires s != ""
    ensures 0 < r.1 <= |s| && !r.0.Semi?
  {
    var j := IndexOf(s, '"', 1);
    if j < |s| then (Ident(s[1..j]), j + 1) else (Open(s), |s|)
  }

  /** The token at the head of `s` and how many characters it takes. */
  function Head(s: string): (r: (Token, nat))
    requires s != ""
    ensures 0 < r.1 <= |s|
  {
    if Dashes(s) then HeadComment(s)
    else if s[0] == '$' && IndexOf(s, '$', 1) < |s| then HeadDollar(s, IndexOf(s, '$', 1))
    else if s[0] == '\'' then HeadSingle(s)
    else if s[0] == '"' then HeadDouble(s)
    else if s[0] == ';' then (Semi, 1)
    else (Plain(s[0]), 1)
  }

  function Tokenize(s: string): seq<Token> {
    if s == "" then []
    else [Head(s).0] + Tokenize(s[Head(s).1..])
  }

  // ----------------------------------------------- what the splitter returns

  function Tag(name: string): string { "$" + name + "$" }

  /** What a token contributes to its statement. */
  function Emit(t: Token): string {
    match t
    case Plain(c) => [c]
    case Str(body) => "'" + body + "'"
    case Ident(body) => "\"" + body + "\""
    case Dollar(name, body) => Tag(name) + body + Tag(name)
    case Comment(_) => "\n"
    case Semi => ";"
    case Open(text) => text
  }

  function EmitAll(ts: seq<Token>): string {
    if ts == [] then "" else Emit(ts[0]) + EmitAll(ts[1..])
  }

  /** A trimmed statement, unless it is blank. */
  function Keep(stmt: string): seq<string> {
    if Trim(stmt) == "" then [] else [Trim(stmt)]
  }

  /** The statements of `ts`, of which `stmt` has been read already. */
  function Group(ts: seq<Token>, stmt: string): seq<string> {
    if ts == [] then Keep(stmt)
    else if ts[0] == Semi then Keep(stmt) + Group(ts[1..], "")
    else Group(ts[1..], stmt + Emit(ts[0]))
  }

  function Split(s: string): seq<string> { Group(Tokenize(s), "") }

  // --------------------------------------------------- the loop, step by step

  datatype Mode = Top | InSingle | InDouble | InDollar(tag: string)

  datatype Closing = Never | After(n: nat)

  /** How far the quote the loop is in reaches into the unread text. */
  function CloseOf(mode: Mode, s: string): (r: Closing)
    requires !mode.Top?
    requires mode.InDollar? ==> mode.tag != ""
    ensures r.After? ==> 0 < r.n <= |s|
  {
    match mode
    case InSingle => (var r := StrEnd(s, 0); if r == 0 then Never else After(r))
    case InDouble => (var j := IndexOf(s, '"', 0); if j < |s| then After(j + 1) else Never)
    case InDollar(tag) => (var j := Find(s, tag, 0); if j <= |s| then After(j + |tag|) else Never)
  }

  /** Where the loop is back at top level: the statement by then, and the text
      that is still to be read. */
  datatype Resume = Resume(stmt: string, text: string)

  function ResumeOf(mode: Mode, s: string, stmt: string): Resume
    requires mode.InDollar? ==> mode.tag != ""
  {
    if mode.Top? then Resume(stmt, s)
    else match CloseOf(mode, s)
      case Never => Resume(stmt + s, "")
      case After(n) => Resume(stmt + s[..n], s[n..])
  }

  /** Everything the loop still has to do, as a function of its state. */
  function Rest(mode: Mode, s: string, stmt: string): seq<string>
    requires mode.InDollar? ==> mode.tag != ""
  {
    Group(Tokenize(ResumeOf(mode, s, stmt).text), ResumeOf(mode, s, stmt).stmt)
  }

  function Shift(c: Closing, n: nat): Closing {
    if c.Never? then Never else After(c.n + n)
  }

  /** An opening quote of n characters: the token it starts ends where its mode does. */
  lemma Enter(mode: Mode, s: string, stmt: string, n: nat, head: (Token, nat))
    requires !mode.Top? && (mode.InDollar? ==> mode.tag != "")
    requires s != "" && n <= |s| && head.1 <= |s|
    requires CloseOf(mode, s[n..]).Never? ==> head == (Open(s), |s|)
    requires CloseOf(mode, s[n..]).After? ==> head.1 == n + CloseOf(mode, s[n..]).n && Emit(head.0) == s[..head.1]
    ensures ResumeOf(mode, s[n..], stmt + s[..n]) == Resume(stmt + Emit(head.0), s[head.1..])
  {
    if CloseOf(mode, s[n..]).Never? {
      assert stmt + s[..n] + s[n..] == stmt + s;
    } else {
      var m := CloseOf(mode, s[n..]).n;
      assert s[n..][m..] == s[n + m..];
      assert stmt + s[..n] + s[n..][..m] == stmt + s[..n + m];
    }
  }

  lemma {:induction false} GroupCons(s: string, stmt: string)
    requires s != "" && Head(s).0 != Semi
    ensures Group(Tokenize(s), stmt) == Group(Tokenize(s[Head(s).1..]), stmt + Emit(Head(s).0))
  {
  }

  lemma {:induction false} StrEndShift(s: string, from: nat)
    requires s != "" && 1 <= from <= |s|
    ensures StrEnd(s, from) == if StrEnd(s[1..], from - 1) == 0 then 0 else StrEnd(s[1..], from - 1) + 1
    decreases |s| - from
  {
    if from < |s| {
      if s[from] != '\'' { StrEndShift(s, from + 1); }
      else if from + 1 < |s| && s[from + 1] == '\'' { StrEndShift(s, from + 2); }
    }
  }

  lemma AtSkip(s: string, pat: string, n: nat, from: nat)
    requires n <= from <= |s|
    ensures At(s[n..], pat, from - n) <==> At(s, pat, from)
  {
  }

  lemma {:induction false} FindSkip(s: string, pat: string, n: nat, from: nat)
    requires n <= from <= |s| + 1 && n <= |s|
    ensures Find(s, pat, from) == Find(s[n..], pat, from - n) + n
    decreases |s| + 1 - from
  {
    if from <= |s| {
      AtSkip(s, pat, n, from);
      if !At(s, pat, from) { FindSkip(s, pat, n, from + 1); }
    }
  }

  lemma {:induction false} IndexOfSkip(s: string, c: char, n: nat, from: nat)
    requires n <= from <= |s|
    ensures IndexOf(s, c, from) == IndexOf(s[n..], c, from - n) + n
    decreases |s| - from
  {
    if from < |s| && s[from] != c { IndexOfSkip(s, c, n, from + 1); }
  }

  /** Inside '...': one character, or an escaped quote. */
  lemma SingleStep(s: string, n: nat)
    requires s != "" && (if s[0] != '\'' then n == 1 else n == 2 && |s| > 1 && s[1] == '\'')
    ensures CloseOf(InSingle, s) == Shift(CloseOf(InSingle, s[n..]), n)
  {
    StrEndShift(s, n);
    if n == 2 {
      StrEndShift(s[1..], 1);
      assert s[1..][1..] == s[2..];
    }
  }

  lemma DoubleStep(s: string)
    requires s != "" && s[0] != '"'
    ensures CloseOf(InDouble, s) == Shift(CloseOf(InDouble, s[1..]), 1)
  {
    IndexOfSkip(s, '"', 1, 1);
  }

  lemma DollarStep(tag: string, s: string)
    requires tag != "" && s != "" && !At(s, tag, 0)
    ensures CloseOf(InDollar(tag), s) == Shift(CloseOf(InDollar(tag), s[1..]), 1)
  {
    FindSkip(s, tag, 1, 1);
  }

  lemma EnterSingle(s: string, stmt: string)
    requires s != "" && s[0] == '\''
    ensures ResumeOf(InSingle, s[1..], stmt + [s[0]]) == Resume(stmt + Emit(HeadSingle(s).0), s[HeadSingle(s).1..])
  {
    assert [s[0]] == s[..1];
    StrEndShift(s, 1);
    Enter(InSingle, s, stmt, 1, HeadSingle(s));
  }

  lemma OpenSingle(s: string, stmt: string)
    requires s != "" && s[0] == '\''
    ensures Rest(Top, s, stmt) == Rest(InSingle, s[1..], stmt + [s[0]])
  {
    EnterSingle(s, stmt);
    assert Head(s) == HeadSingle(s);
    GroupCons(s, stmt);
  }

  lemma EnterDouble(s: string, stmt: string)
    requires s != "" && s[0] == '"'
    ensures ResumeOf(InDouble, s[1..], stmt + [s[0]]) == Resume(stmt + Emit(HeadDouble(s).0), s[HeadDouble(s).1..])
  {
    assert [s[0]] == s[..1];
    IndexOfSkip(s, '"', 1, 1);
    Enter(InDouble, s, stmt, 1, HeadDouble(s));
  }

  lemma OpenDouble(s: string, stmt: string)
    requires s != "" && s[0] == '"'
    ensures Rest(Top, s, stmt) == Rest(InDouble, s[1..], stmt + [s[0]])
  {
    EnterDouble(s, stmt);
    assert Head(s) == HeadDouble(s);
    GroupCons(s, stmt);
  }

  lemma TagText(s: string, k: nat)
    requires 0 < k < |s| && s[0] == '$' && s[k] == '$'
    ensures Tag(s[1..k]) == s[..k + 1]
  {
  }

  lemma PrefixIsSlice(s: string, n: nat, pat: string)
    requires At(s, pat, n)
    ensures s[..n + |pat|] == s[..n] + pat
  {
  }

  lemma DollarText(s: string, k: nat, j: nat)
    requires 0 < k < |s| && s[0] == '$' && s[k] == '$'
    requires k + 1 <= j <= |s| && At(s, s[..k + 1], j)
    ensures Emit(Dollar(s[1..k], s[k + 1..j])) == s[..j + k + 1]
  {
    TagText(s, k);
    PrefixIsSlice(s, j, s[..k + 1]);
    assert s[..j] == s[..k + 1] + s[k + 1..j];
  }

  lemma EnterDollar(s: string, stmt: string, k: nat)
    requires s != "" && s[0] == '$' && 0 < k < |s| && s[k] == '$'
    ensures ResumeOf(InDollar(s[..k + 1]), s[k + 1..], stmt + s[..k + 1])
         == Resume(stmt + Emit(HeadDollar(s, k).0), s[HeadDollar(s, k).1..])
  {
    var tag := s[..k + 1];
    var j := Find(s, tag, k + 1);
    FindSkip(s, tag, k + 1, k + 1);
    if j <= |s| {
      FindHit(s, tag, k + 1);
      DollarText(s, k, j);
    }
    Enter(InDollar(tag), s, stmt, k + 1, HeadDollar(s, k));
  }

  lemma {:induction false} OpenDollar(s: string, stmt: string, k: nat, tag: string, rest: string)
    requires s != "" && s[0] == '$' && k == IndexOf(s, '$', 1) < |s|
    requires tag == s[..k + 1] && rest == s[k + 1..]
    ensures Rest(Top, s, stmt) == Rest(InDollar(tag), rest, stmt + tag)
  {
    EnterDollar(s, stmt, k);
    assert Head(s) == HeadDollar(s, k);
    GroupCons(s, stmt);
  }

  lemma {:induction false} PlainStep(s: string, stmt: string)
    requires s != "" && !(Dashes(s)) && s[0] != '\'' && s[0] != '"' && s[0] != ';'
    requires s[0] == '$' ==> IndexOf(s, '$', 1) >= |s|
    ensures Rest(Top, s, stmt) == Rest(Top, s[1..], stmt + [s[0]])
  {
  }

  lemma SemiStep(s: string, stmt: string)
    requires s != "" && s[0] == ';'
    ensures Rest(Top, s, stmt) == Keep(stmt) + Rest(Top, s[1..], "")
  {
  }

  lemma AtEnd(mode: Mode, stmt: string)
    requires mode.InDollar? ==> mode.tag != ""
    ensures Rest(mode, "", stmt) == Keep(stmt)
  {
    assert stmt + "" == stmt;
  }

  /** What the loop does to one character, or one closing tag, inside a quote. */
  lemma DollarKeep(tag: string, s: string, stmt: string)
    requires tag != "" && s != "" && !At(s, tag, 0)
    ensures ResumeOf(InDollar(tag), s, stmt) == ResumeOf(InDollar(tag), s[1..], stmt + [s[0]])
  {
    DollarStep(tag, s);
    assert s[..1] == [s[0]];
  }

  lemma SingleTurn(s: string, stmt: string)
    requires s != ""
    ensures s[0] != '\'' ==> ResumeOf(InSingle, s, stmt) == ResumeOf(InSingle, s[1..], stmt + [s[0]])
    ensures s[0] == '\'' && |s| > 1 && s[1] == '\'' ==>
              ResumeOf(InSingle, s, stmt) == ResumeOf(InSingle, s[2..], stmt + [s[0]] + [s[1]])
    ensures s[0] == '\'' && !(|s| > 1 && s[1] == '\'') ==>
              ResumeOf(InSingle, s, stmt) == Resume(stmt + [s[0]], s[1..])
  {
    assert s[..1] == [s[0]];
    if s[0] != '\'' {
      SingleStep(s, 1);
    } else if |s| > 1 && s[1] == '\'' {
      SingleStep(s, 2);
      assert stmt + s[..2] == stmt + [s[0]] + [s[1]];
    }
  }

  lemma DoubleTurn(s: string, stmt: string)
    requires s != ""
    ensures s[0] != '"' ==> ResumeOf(InDouble, s, stmt) == ResumeOf(InDouble, s[1..], stmt + [s[0]])
    ensures s[0] == '"' ==> ResumeOf(InDouble, s, stmt) == Resume(stmt + [s[0]], s[1..])
  {
    assert s[..1] == [s[0]];
    if s[0] != '"' {
      DoubleStep(s);
    } else {
    }
  }

  lemma SkipComment(s: string, stmt: string, n: nat)
    requires Dashes(s) && n == LineEnd(s)
    ensures Rest(Top, s, stmt) == Rest(Top, From(s, n + 1), stmt + "\n")
  {
    assert Head(s) == HeadComment(s);
    GroupCons(s, stmt);
    assert s[|s|..] == "";
  }

  // ------------------------------------------------------------- the program

  /** The unread text; a comment on the last line leaves the index one past it. */
  function From(s: string, i: nat): string {
    if i <= |s| then s[i..] else ""
  }

  function ModeOf(inSingle: bool, inDouble: bool, dollarTag: string): Mode {
    if dollarTag != "" then InDollar(dollarTag)
    else if inSingle then InSingle
    else if inDouble then InDouble
    else Top
  }

  method SkipLine(sql: string, start: nat) returns (i: nat)
    requires start <= |sql|
    ensures start <= i <= |sql| && i - start == LineEnd(sql[start..])
  {
    i := start;
    while i < |sql| && sql[i] != '\n'
      invariant start <= i <= |sql|
      invariant forall k :: 0 <= k < i - start ==> sql[start..][k] != '\n'
    {
      i := i + 1;
    }
    IndexOfIs(sql[start..], '\n', 0, i - start);
  }

  lemma DollarCloses(sql: string, i: nat, stmt: string, tag: string)
    requires i < |sql| && tag != "" && At(sql, tag, i)
    ensures ResumeOf(InDollar(tag), From(sql, i), stmt)
         == Resume(stmt + [sql[i]] + sql[i + 1..i + |tag|], From(sql, i + |tag|))
  {
  }

  lemma DollarCopies(sql: string, i: nat, stmt: string, tag: string)
    requires i < |sql| && tag != "" && !At(sql, tag, i)
    ensures ResumeOf(InDollar(tag), From(sql, i), stmt) == ResumeOf(InDollar(tag), From(sql, i + 1), stmt + [sql[i]])
  {
    AtSkip(sql, tag, i, i);
    DollarKeep(tag, sql[i..], stmt);
  }

  /** One turn of the loop inside $tag$...$tag$. */
  method InDollarTurn(sql: string, i: nat, stmt: string, tag: string)
    returns (next: nat, stmt': string, closed: bool)
    requires i < |sql| && tag != "" && tag[0] == '$'
    ensures i < next <= |sql|
    ensures ResumeOf(InDollar(tag), From(sql, i), stmt)
         == ResumeOf(if closed then Top else InDollar(tag), From(sql, next), stmt')
  {
    next, stmt', closed := i + 1, stmt + [sql[i]], false;
    if sql[i] == '$' && At(sql, tag, i) {
      DollarCloses(sql, i, stmt, tag);
      next, stmt', closed := i + |tag|, stmt' + sql[i + 1..i + |tag|], true;
    } else {
      if sql[i] != '$' { NotAt(sql, tag, i); }
      DollarCopies(sql, i, stmt, tag);
    }
  }

  lemma NotAt(s: string, pat: string, n: nat)
    requires n < |s| && pat != "" && s[n] != pat[0]
    ensures !At(s, pat, n)
  {
  }

  method InSingleTurn(sql: string, i: nat, stmt: string)
    returns (next: nat, stmt': string, closed: bool)
    requires i < |sql|
    ensures i < next <= |sql|
    ensures ResumeOf(InSingle, From(sql, i), stmt) == ResumeOf(if closed then Top else InSingle, From(sql, next), stmt')
  {
    SingleTurn(sql[i..], stmt);
    next, stmt', closed := i + 1, stmt + [sql[i]], false;
    if sql[i] == '\'' {
      if i + 1 < |sql| && sql[i + 1] == '\'' {
        next, stmt' := i + 2, stmt' + [sql[i + 1]];
      } else {
        closed := true;
      }
    }
  }

  method InDoubleTurn(sql: string, i: nat, stmt: string)
    returns (next: nat, stmt': string, closed: bool)
    requires i < |sql|
    ensures next == i + 1
    ensures ResumeOf(InDouble, From(sql, i), stmt) == ResumeOf(if closed then Top else InDouble, From(sql, next), stmt')
  {
    DoubleTurn(sql[i..], stmt);
    next, stmt', closed := i + 1, stmt + [sql[i]], sql[i] == '"';
  }

  lemma PlainTurn(sql: string, i: nat, stmt: string)
    requires i < |sql| && sql[i] != '\'' && sql[i] != '"' && sql[i] != ';'
    requires sql[i] == '-' ==> i + 1 == |sql| || sql[i + 1] != '-'
    requires sql[i] == '$' ==> IndexOf(sql, '$', i + 1) >= |sql|
    ensures Rest(Top, From(sql, i), stmt) == Rest(Top, From(sql, i + 1), stmt + [sql[i]])
  {
    var s := sql[i..];
    IndexOfSkip(sql, '$', i, i + 1);
    PlainStep(s, stmt);
  }

  method CommentTurn(sql: string, i: nat, ghost stmt: string) returns (next: nat)
    requires i + 1 < |sql| && sql[i] == '-' && sql[i + 1] == '-'
    ensures i < next <= |sql| + 1
    ensures Rest(Top, From(sql, i), stmt) == Rest(Top, From(sql, next), stmt + "\n")
  {
    ghost var s := sql[i..];
    SkipComment(s, stmt, LineEnd(s));
    var end := SkipLine(sql, i);
    next := end + 1;
    assert From(sql, next) == From(s, LineEnd(s) + 1);
  }

  /** One turn at top level, where no statement ends. */
  method TopTurn(sql: string, i: nat, stmt: string)
    returns (next: nat, stmt': string, inSingle: bool, inDouble: bool, dollarTag: string)
    requires i < |sql| && sql[i] != ';'
    ensures i < next <= |sql| + 1
    ensures dollarTag != "" ==> dollarTag[0] == '$' && !inSingle && !inDouble
    ensures !(inSingle && inDouble)
    ensures Rest(Top, From(sql, i), stmt) == Rest(ModeOf(inSingle, inDouble, dollarTag), From(sql, next), stmt')
  {
    var ch := sql[i];
    next, stmt', inSingle, inDouble, dollarTag := i + 1, stmt + [ch], false, false, "";
    if ch == '-' && i + 1 < |sql| && sql[i + 1] == '-' {
      next := CommentTurn(sql, i, stmt);
      stmt' := stmt + "\n";
    } else if ch == '$' && IndexOf(sql, '$', i + 1) < |sql| {
      next, dollarTag := DollarTurn(sql, i, stmt);
      stmt' := stmt + dollarTag;
    } else if ch == '\'' {
      SingleStart(sql, i, stmt);
      inSingle := true;
    } else if ch == '"' {
      DoubleStart(sql, i, stmt);
      inDouble := true;
    } else {
      PlainTurn(sql, i, stmt);
    }
  }

  method DollarTurn(sql: string, i: nat, ghost stmt: string) returns (next: nat, dollarTag: string)
    requires i < |sql| && sql[i] == '$' && IndexOf(sql, '$', i + 1) < |sql|
    ensures i < next <= |sql| && dollarTag != "" && dollarTag[0] == '$'
    ensures Rest(Top, From(sql, i), stmt) == Rest(InDollar(dollarTag), From(sql, next), stmt + dollarTag)
  {
    var end := IndexOf(sql, '$', i + 1);
    next, dollarTag := end + 1, sql[i..end + 1];
    OpenDollarAt(sql, i, end, stmt, dollarTag, From(sql, next), stmt + dollarTag);
  }

  lemma SingleStart(sql: string, i: nat, stmt: string)
    requires i < |sql| && sql[i] == '\''
    ensures Rest(Top, From(sql, i), stmt) == Rest(InSingle, From(sql, i + 1), stmt + [sql[i]])
  {
    OpenSingle(sql[i..], stmt);
  }

  lemma DoubleStart(sql: string, i: nat, stmt: string)
    requires i < |sql| && sql[i] == '"'
    ensures Rest(Top, From(sql, i), stmt) == Rest(InDouble, From(sql, i + 1), stmt + [sql[i]])
  {
    OpenDouble(sql[i..], stmt);
  }

  lemma {:induction false} OpenDollarAt(sql: string, i: nat, end: nat, stmt: string, tag: string, rest: string, more: string)
    requires i < |sql| && sql[i] == '$' && end == IndexOf(sql, '$', i + 1) < |sql|
    requires tag == sql[i..end + 1] && rest == From(sql, end + 1) && more == stmt + tag
    ensures Rest(Top, From(sql, i), stmt) == Rest(InDollar(tag), rest, more)
  {
    var s, k := sql[i..], end - i;
    IndexOfSkip(sql, '$', i, i + 1);
    assert tag == s[..k + 1] && rest == s[k + 1..];
    OpenDollar(s, stmt, k, tag, rest);
  }

  /** splitStatements: every slice is in bounds, the loop ends, and the result is
      the non-blank trimmed groups between the top-level semicolons. */
  method SplitStatements(sql: string) returns (out: seq<string>)
    ensures out == Split(sql)
  {
    out := [];
    var stmt := "";
    var inSingle, inDouble, dollarTag := false, false, "";
    var i := 0;
    while i < |sql|
      invariant i <= |sql| + 1
      invariant dollarTag != "" ==> dollarTag[0] == '$' && !inSingle && !inDouble
      invariant !(inSingle && inDouble)
      invariant out + Rest(ModeOf(inSingle, inDouble, dollarTag), From(sql, i), stmt) == Split(sql)
    {
      var closed := false;
      if dollarTag != "" {
        i, stmt, closed := InDollarTurn(sql, i, stmt, dollarTag);
        if closed { dollarTag := ""; }
      } else if inSingle {
        i, stmt, closed := InSingleTurn(sql, i, stmt);
        inSingle := !closed;
      } else if inDouble {
        i, stmt, closed := InDoubleTurn(sql, i, stmt);
        inDouble := !closed;
      } else if sql[i] == ';' {
        SemiStep(sql[i..], stmt);
        out := out + Keep(stmt);
        stmt, i := "", i + 1;
      } else {
        i, stmt, inSingle, inDouble, dollarTag := TopTurn(sql, i, stmt);
      }
    }
    AtEnd(ModeOf(inSingle, inDouble, dollarTag), stmt);
    out := out + Keep(stmt);
  }
}

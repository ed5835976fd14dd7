/** Trimming a statement and trimming its tokens come to the same, and token
    sequences that stay apart from what follows them stay so when they are cut,
    trimmed or put behind one another. */
module SqlTrimming {
  import opened SqlSplitter
  import opened SqlGrammar

  // ----------------------------------------------------------- trimming text

  /** Trimming the right end stops inside a tail that is not blank. */
  lemma {:induction false} TrimRightInside(s: string, tail: string)
    requires tail != "" && !IsSpace(tail[0])
    ensures TrimRight(s + tail) == s + TrimRight(tail)
    ensures TrimRight(tail) != "" && TrimRight(tail)[0] == tail[0]
    decreases |tail|
  {
    var n := |tail| - 1;
    assert (s + tail)[|s| + n] == tail[n];
    if IsSpace(tail[n]) {
      assert (s + tail)[..|s| + n] == s + tail[..n];
      assert TrimRight(s + tail) == TrimRight((s + tail)[..|s| + n]);
      TrimRightInside(s, tail[..n]);
    }
  }

  lemma {:induction false} TrimLeftStops(s: string)
    ensures TrimLeft(s) != "" ==> !IsSpace(TrimLeft(s)[0])
  {
    if s != "" && IsSpace(s[0]) { TrimLeftStops(s[1..]); }
  }

  lemma {:induction false} TrimRightStops(s: string)
    ensures var r := TrimRight(s); |r| <= |s| && r == s[..|r|] && (r != "" ==> !IsSpace(r[|r| - 1]))
    ensures TrimRight(s) != s ==> IsSpace(s[|TrimRight(s)|])
  {
    if s != "" && IsSpace(s[|s| - 1]) {
      var front := s[..|s| - 1];
      TrimRightStops(front);
      assert front[..|TrimRight(front)|] == s[..|TrimRight(front)|];
    }
  }

  lemma TrimTwice(s: string)
    ensures Trim(Trim(s)) == Trim(s)
  {
    TrimLeftStops(s);
    TrimRightStops(TrimLeft(s));
    var r := Trim(s);
    if r != "" {
      assert r[0] == TrimLeft(s)[0];
    }
  }

  // --------------------------------------------------------- trimming tokens

  predicate Blank(t: Token) { t.Plain? && IsSpace(t.c) }

  function TrimTokensLeft(ts: seq<Token>): seq<Token> {
    if ts != [] && Blank(ts[0]) then TrimTokensLeft(ts[1..]) else ts
  }

  function TrimTokensRight(ts: seq<Token>): seq<Token> {
    if ts == [] then []
    else
      var last := ts[|ts| - 1];
      if Blank(last) then TrimTokensRight(ts[..|ts| - 1])
      else if last.Open? then ts[..|ts| - 1] + [Open(TrimRight(last.text))]
      else ts
  }

  function TrimTokens(ts: seq<Token>): seq<Token> { TrimTokensRight(TrimTokensLeft(ts)) }

  /** Tokens a block of a tokenized text is made of. */
  predicate Inner(t: Token) {
    match t
    case Semi => false
    case Comment(_) => false
    case Open(text) => text != "" && !IsSpace(text[0])
    case _ => true
  }

  predicate AllInner(ts: seq<Token>) {
    ts != [] ==> Inner(ts[0]) && AllInner(ts[1..])
  }

  lemma {:induction false} TrimLeftOfTokens(ts: seq<Token>)
    requires AllInner(ts)
    ensures EmitAll(TrimTokensLeft(ts)) == TrimLeft(EmitAll(ts)) && AllInner(TrimTokensLeft(ts))
  {
    if ts != [] {
      if Blank(ts[0]) {
        TrimLeftOfTokens(ts[1..]);
        assert EmitAll(ts)[1..] == EmitAll(ts[1..]);
      } else {
      }
    }
  }

  lemma {:induction false} EmitSnoc(ts: seq<Token>, t: Token)
    ensures EmitAll(ts + [t]) == EmitAll(ts) + Emit(t)
  {
    if ts == [] {
      assert [] + [t] == [t] && [t][1..] == [];
    } else {
      assert (ts + [t])[1..] == ts[1..] + [t];
      EmitSnoc(ts[1..], t);
    }
  }

  lemma {:induction false} InnerSnoc(ts: seq<Token>, t: Token)
    ensures AllInner(ts + [t]) <==> AllInner(ts) && Inner(t)
  {
    if ts == [] {
      assert [] + [t] == [t] && [t][1..] == [];
    } else {
      assert (ts + [t])[1..] == ts[1..] + [t];
      InnerSnoc(ts[1..], t);
    }
  }

  lemma {:induction false} TrimRightOfTokens(ts: seq<Token>)
    requires AllInner(ts)
    ensures EmitAll(TrimTokensRight(ts)) == TrimRight(EmitAll(ts)) && AllInner(TrimTokensRight(ts))
  {
    if ts != [] {
      var front, last := ts[..|ts| - 1], ts[|ts| - 1];
      assert ts == front + [last];
      EmitSnoc(front, last);
      InnerSnoc(front, last);
      if Blank(last) {
        TrimRightOfTokens(front);
      } else {
        if last.Open? {
          TrimRightInside(EmitAll(front), last.text);
          EmitSnoc(front, Open(TrimRight(last.text)));
          InnerSnoc(front, Open(TrimRight(last.text)));
        } else {
        }
      }
    }
  }

  lemma {:induction false} TrimOfTokens(ts: seq<Token>)
    requires AllInner(ts)
    ensures EmitAll(TrimTokens(ts)) == Trim(EmitAll(ts)) && AllInner(TrimTokens(ts))
  {
    TrimLeftOfTokens(ts);
    TrimRightOfTokens(TrimTokensLeft(ts));
  }

  // -------------------------------------- separation survives the trimming

  /** The tokens stay apart when the text `after` follows them. */
  predicate Apart(ts: seq<Token>, after: string) {
    ts != [] ==> Separated(ts[0], WriteAll(ts[1..]) + after) && Apart(ts[1..], after)
  }

  lemma {:induction false} ApartIsWellSeparated(ts: seq<Token>)
    ensures Apart(ts, "") <==> WellSeparated(ts)
  {
    if ts != [] {
      ApartIsWellSeparated(ts[1..]);
      assert WriteAll(ts[1..]) + "" == WriteAll(ts[1..]);
    }
  }

  lemma {:induction false} WriteAppend(a: seq<Token>, b: seq<Token>)
    ensures WriteAll(a + b) == WriteAll(a) + WriteAll(b)
  {
    if a == [] {
      assert a + b == b;
    } else {
      assert (a + b)[1..] == a[1..] + b;
      WriteAppend(a[1..], b);
    }
  }

  lemma Concat3(x: string, y: string, z: string)
    ensures (x + y) + z == x + (y + z)
  {
  }

  lemma {:induction false} WriteAppendThree(a: seq<Token>, b: seq<Token>, after: string)
    ensures WriteAll(a + b) + after == WriteAll(a) + (WriteAll(b) + after)
  {
    WriteAppend(a, b);
    Concat3(WriteAll(a), WriteAll(b), after);
  }

  predicate SepAt(ts: seq<Token>, after: string, i: nat)
    requires i < |ts|
  {
    Separated(ts[i], WriteAll(ts[i + 1..]) + after)
  }

  lemma {:induction false} ApartAt(ts: seq<Token>, after: string)
    ensures Apart(ts, after) <==> forall i: nat :: i < |ts| ==> SepAt(ts, after, i)
  {
    if ts != [] {
      ApartAt(ts[1..], after);
      forall i: nat | i < |ts| - 1 ensures SepAt(ts[1..], after, i) <==> SepAt(ts, after, i + 1) {
        assert ts[1..][i + 1..] == ts[i + 2..];
      }
      assert SepAt(ts, after, 0) <==> Separated(ts[0], WriteAll(ts[1..]) + after);
      if Apart(ts, after) {
        forall i: nat | i < |ts| ensures SepAt(ts, after, i) { if i > 0 { assert SepAt(ts[1..], after, i - 1); } }
      }
    }
  }

  lemma {:induction false} TextFront(a: seq<Token>, b: seq<Token>, after: string, i: nat)
    requires i < |a|
    ensures (a + b)[i] == a[i] && WriteAll((a + b)[i + 1..]) + after == WriteAll(a[i + 1..]) + (WriteAll(b) + after)
  {
    assert (a + b)[i + 1..] == a[i + 1..] + b;
    WriteAppendThree(a[i + 1..], b, after);
  }

  lemma TextBack(a: seq<Token>, b: seq<Token>, after: string, i: nat)
    requires |a| <= i < |a| + |b|
    ensures (a + b)[i] == b[i - |a|] && (a + b)[i + 1..] == b[i - |a| + 1..]
  {
  }

  lemma {:induction false} SepFront(a: seq<Token>, b: seq<Token>, after: string, i: nat)
    requires i < |a|
    ensures SepAt(a + b, after, i) <==> SepAt(a, WriteAll(b) + after, i)
  {
    TextFront(a, b, after, i);
  }

  lemma SepBack(a: seq<Token>, b: seq<Token>, after: string, i: nat)
    requires |a| <= i < |a| + |b|
    ensures SepAt(a + b, after, i) <==> SepAt(b, after, i - |a|)
  {
    TextBack(a, b, after, i);
  }

  lemma {:induction false} SepEither(a: seq<Token>, b: seq<Token>, after: string, i: nat)
    requires i < |a| + |b|
    ensures SepAt(a + b, after, i) <==> if i < |a| then SepAt(a, WriteAll(b) + after, i) else SepAt(b, after, i - |a|)
  {
    if i < |a| { SepFront(a, b, after, i); } else { SepBack(a, b, after, i); }
  }

  lemma {:induction false} ApartAppend(a: seq<Token>, b: seq<Token>, after: string)
    ensures Apart(a + b, after) <==> Apart(a, WriteAll(b) + after) && Apart(b, after)
  {
    ApartAt(a + b, after);
    ApartAt(a, WriteAll(b) + after);
    ApartAt(b, after);
    forall i: nat | i < |a| + |b|
      ensures SepAt(a + b, after, i) <==> if i < |a| then SepAt(a, WriteAll(b) + after, i) else SepAt(b, after, i - |a|)
    {
      SepEither(a, b, after, i);
    }
    forall i: nat | i < |b| ensures SepAt(b, after, i) <==> SepAt(a + b, after, i + |a|) { SepEither(a, b, after, i + |a|); }
  }

  predicate Softer(u: string, v: string) {
    && (v == "" || v[0] == ';' || (u != "" && v[0] == u[0]))
    && (Lacks(u, '$') ==> Lacks(v, '$'))
    && (u == "" ==> v == "")
  }

  lemma {:induction false} ApartSofter(ts: seq<Token>, u: string, v: string)
    requires Apart(ts, u) && Softer(u, v)
    ensures Apart(ts, v)
  {
    if ts != [] {
      var w := WriteAll(ts[1..]);
      LacksAppend(w, u, '$');
      LacksAppend(w, v, '$');
      ApartSofter(ts[1..], u, v);
    }
  }

  lemma {:induction false} ApartTrimLeft(ts: seq<Token>, after: string)
    requires Apart(ts, after)
    ensures Apart(TrimTokensLeft(ts), after)
  {
    if ts != [] && Blank(ts[0]) { ApartTrimLeft(ts[1..], after); }
  }

  lemma {:induction false} TrimRightLacks(s: string, c: char)
    ensures Lacks(s, c) ==> Lacks(TrimRight(s), c)
  {
    TrimRightStops(s);
    var r := TrimRight(s);
    LacksAppend(r, s[|r|..], c);
    assert s == r + s[|r|..];
  }

  lemma {:induction false} TrimLeftLacks(s: string, c: char)
    ensures Lacks(s, c) ==> Lacks(TrimLeft(s), c)
  {
    if s != "" && IsSpace(s[0]) {
      TrimLeftLacks(s[1..], c);
      LacksCons(s, c);
    }
  }

  /** An unclosed quote stays unclosed, and one token, when blanks at its end go. */
  lemma {:induction false} OpenTrimmed(text: string)
    requires text != "" && Head(text) == (Open(text), |text|)
    ensures var r := TrimRight(text); r != "" && Head(r) == (Open(r), |r|) && r[0] == text[0]
  {
    TrimRightInside("", text);
    TrimRightStops(text);
    OpenCut(text, |TrimRight(text)|);
  }

  lemma {:induction false} OpenHead(text: string)
    requires text != "" && Head(text).0 == Open(text)
    ensures !Dashes(text)
    ensures text[0] == '\'' || text[0] == '"' || (text[0] == '$' && IndexOf(text, '$', 1) < |text|)
  {
  }

  lemma {:induction false} StrEndInCut(s: string, n: nat, from: nat)
    requires from <= n <= |s| && StrEnd(s, from) == 0
    requires n < |s| ==> s[n] != '\''
    ensures StrEnd(s[..n], from) == 0
    decreases |s| - from
  {
    if from < n {
      if s[from] != '\'' { StrEndInCut(s, n, from + 1); }
      else { StrEndInCut(s, n, from + 2); }
    }
  }

  lemma {:induction false} NoFindInCut(s: string, n: nat, pat: string, from: nat)
    requires from <= n + 1 && n <= |s| && Find(s, pat, from) == |s| + 1
    ensures Find(s[..n], pat, from) == n + 1
    decreases |s| + 1 - from
  {
    if from <= n {
      if from + |pat| <= n { OccursInCut(s, n, pat, from); }
      NoFindInCut(s, n, pat, from + 1);
    }
  }

  lemma {:induction false} IndexOfInCut(s: string, n: nat, c: char, from: nat)
    requires from <= n <= |s|
    ensures IndexOf(s[..n], c, from) == if IndexOf(s, c, from) < n then IndexOf(s, c, from) else n
    decreases |s| - from
  {
    if from < n && s[from] != c { IndexOfInCut(s, n, c, from + 1); }
  }

  lemma {:induction false} OpenCut(text: string, n: nat)
    requires text != "" && Head(text) == (Open(text), |text|)
    requires 0 < n <= |text| && !IsSpace(text[n - 1]) && (n < |text| ==> IsSpace(text[n]))
    requires TrimRight(text) == text[..n]
    ensures Head(text[..n]) == (Open(text[..n]), n)
  {
    OpenHead(text);
    if text[0] == '$' {
      OpenDollarCut(text, n);
    } else if text[0] == '\'' {
      assert StrEnd(text, 1) == 0;
      StrEndInCut(text, n, 1);
      assert Head(text[..n]) == HeadSingle(text[..n]);
    } else {
      IndexOfInCut(text, n, '"', 1);
      assert Head(text[..n]) == HeadDouble(text[..n]);
    }
  }

  lemma {:induction false} BlankTail(s: string, k: nat)
    requires |TrimRight(s)| <= k < |s|
    ensures IsSpace(s[k])
  {
    if k < |s| - 1 { BlankTail(s[..|s| - 1], k); }
  }

  lemma OpenDollarTag(s: string, k: nat, tag: string)
    requires s != "" && s[0] == '$' && k == IndexOf(s, '$', 1) < |s| && tag == s[..k + 1]
    requires Head(s) == (Open(s), |s|)
    ensures Find(s, tag, k + 1) == |s| + 1
  {
    assert Head(s) == HeadDollar(s, k);
  }

  lemma OpenDollarHead(s: string, k: nat, tag: string)
    requires s != "" && s[0] == '$' && k == IndexOf(s, '$', 1) < |s| && tag == s[..k + 1]
    requires Find(s, tag, k + 1) == |s| + 1
    ensures Head(s) == (Open(s), |s|)
  {
    assert Head(s) == HeadDollar(s, k);
  }

  lemma {:induction false} OpenDollarCut(text: string, n: nat)
    requires text != "" && text[0] == '$' && Head(text) == (Open(text), |text|)
    requires 0 < n <= |text| && TrimRight(text) == text[..n] && IndexOf(text, '$', 1) < |text|
    ensures Head(text[..n]) == (Open(text[..n]), n)
  {
    var k := IndexOf(text, '$', 1);
    if n <= k { BlankTail(text, k); }
    IndexOfInCut(text, n, '$', 1);
    OpenDollarTag(text, k, text[..k + 1]);
    NoFindInCut(text, n, text[..k + 1], k + 1);
    assert text[..n][..k + 1] == text[..k + 1];
    OpenDollarHead(text[..n], k, text[..k + 1]);
  }

  /** A blank token at the end may go. */
  lemma {:induction false} ApartDropBlank(front: seq<Token>, last: Token, after: string)
    requires Apart(front + [last], after) && Blank(last) && (after == "" || after[0] == ';')
    ensures Apart(front, after)
  {
    ApartAppend(front, [last], after);
    LastApart(last, after);
    LacksAppend([last.c], after, '$');
    ApartSofter(front, [last.c] + after, after);
  }

  /** An unclosed token at the end may be trimmed. */
  lemma {:induction false} ApartTrimOpen(front: seq<Token>, last: Token, after: string)
    requires Apart(front + [last], after) && last.Open?
    ensures Apart(front + [Open(TrimRight(last.text))], after)
  {
    var text := last.text;
    ApartAppend(front, [last], after);
    LastApart(last, after);
    OpenTrimmed(text);
    TrimRightLacks(text, '$');
    assert TrimRight(text) + after == TrimRight(text);
    ApartSofter(front, text, TrimRight(text));
    LastApart(Open(TrimRight(text)), after);
    ApartAppend(front, [Open(TrimRight(text))], after);
  }

  lemma {:induction false} ApartTrimRight(ts: seq<Token>, after: string)
    requires Apart(ts, after) && (after == "" || after[0] == ';')
    ensures Apart(TrimTokensRight(ts), after)
  {
    if ts != [] {
      var front, last := ts[..|ts| - 1], ts[|ts| - 1];
      assert ts == front + [last];
      if Blank(last) {
        ApartDropBlank(front, last, after);
        ApartTrimRight(front, after);
      } else if last.Open? {
        ApartTrimOpen(front, last, after);
      }
    }
  }

  lemma {:induction false} LastApart(t: Token, after: string)
    ensures Apart([t], after) <==> Separated(t, after)
    ensures WriteAll([t]) == Write(t)
    ensures t.Open? && Separated(t, after) ==> after == "" && t.text + after == t.text
  {
    assert [t][1..] == [];
    assert WriteAll([]) + after == after;
    assert Write(t) + "" == Write(t);
  }

  // ------------------------------------------------------ blocks put together

  predicate NoComments(ts: seq<Token>) {
    ts != [] ==> !ts[0].Comment? && NoComments(ts[1..])
  }

  predicate NoSemis(ts: seq<Token>) {
    ts != [] ==> ts[0] != Semi && NoSemis(ts[1..])
  }

  lemma {:induction false} NormHasNoComments(ts: seq<Token>)
    ensures NoComments(NormAll(ts))
  {
    if ts != [] { NormHasNoComments(ts[1..]); assert NormAll(ts)[1..] == NormAll(ts[1..]); }
  }

  lemma {:induction false} ApartInner(ts: seq<Token>, after: string)
    requires Apart(ts, after) && NoComments(ts) && NoSemis(ts)
    ensures AllInner(ts) && WriteAll(ts) == EmitAll(ts)
  {
    if ts != [] {
      if ts[0].Open? { OpenHead(ts[0].text); }
      ApartInner(ts[1..], after);
    }
  }

  lemma {:induction false} InnerWrites(ts: seq<Token>)
    requires AllInner(ts)
    ensures WriteAll(ts) == EmitAll(ts) && NoSemis(ts)
  {
    if ts != [] { InnerWrites(ts[1..]); }
  }
}

/** Cutting a conversation down to a model's context window, in place
    (services/api/internal/provider/tokens.go). */
module Truncation {
  datatype Message = Message(role: string, content: string)

  /** The token estimate of a list of messages; nothing is assumed about it. */
  type Estimate = seq<Message> -> nat

  const SAFETY_MARGIN: int := 2000
  const BUDGET_FLOOR: int := 4000

  function Budget(window: int, maxOutput: int): (budget: int)
    ensures window - maxOutput > 2000 ==> budget + maxOutput + 2000 == window
    ensures window - maxOutput <= 2000 ==> budget == 4000
  {
    var b := window - maxOutput - SAFETY_MARGIN;
    if b <= 0 then BUDGET_FLOOR else b
  }

  /** Length of the leading run of system messages. */
  function Prompts(s: seq<Message>): (f: nat)
    ensures f <= |s|
  {
    if s == [] || s[0].role != "system" then 0 else 1 + Prompts(s[1..])
  }

  /** The list without the d messages after the prompts. */
  function Cut(s: seq<Message>, f: nat, d: nat): seq<Message>
    requires f + d <= |s|
  {
    s[..f] + s[f + d..]
  }

  predicate Enough(est: Estimate, budget: int, s: seq<Message>, f: nat, d: nat)
    requires f + d < |s|
  {
    f + d + 1 == |s| || est(Cut(s, f, d)) <= budget
  }

  /** How many messages go, counting on from d. */
  function Drops(est: Estimate, budget: int, s: seq<Message>, f: nat, d: nat): (n: nat)
    requires f + d < |s|
    ensures d <= n && f + n < |s|
    decreases |s| - d
  {
    if Enough(est, budget, s, f, d) then d else Drops(est, budget, s, f, d + 1)
  }

  predicate LeftAlone(est: Estimate, budget: int, s: seq<Message>) {
    s == [] || est(s) <= budget || Prompts(s) + 1 >= |s|
  }

  function Dropped(est: Estimate, budget: int, s: seq<Message>): (n: nat)
    ensures n == 0 || Prompts(s) + n < |s|
  {
    if LeftAlone(est, budget, s) then 0 else Drops(est, budget, s, Prompts(s), 0)
  }

  function Truncated(est: Estimate, budget: int, s: seq<Message>): seq<Message> {
    var d := Dropped(est, budget, s);
    if d == 0 then s else Cut(s, Prompts(s), d)
  }

  // ----------------------------------------------------------------- program

  /** One element out, the rest of the first n moved down, the end left as it was. */
  ghost predicate Shifted(before: seq<Message>, after: seq<Message>, f: nat, n: nat)
    requires f < n <= |before|
  {
    && |after| == |before|
    && (forall k :: 0 <= k < f ==> after[k] == before[k])
    && (forall k :: f <= k < n - 1 ==> after[k] == before[k + 1])
    && (forall k :: n - 1 <= k < |before| ==> after[k] == before[k])
  }

  /** append(messages[:f], messages[f+1:]...) on a slice of length n. */
  method RemoveAt(a: array<Message>, f: nat, n: nat)
    requires f < n <= a.Length
    modifies a
    ensures Shifted(old(a[..]), a[..], f, n)
  {
    for i := f to n - 1
      invariant forall k :: 0 <= k < f ==> a[k] == old(a[k])
      invariant forall k :: f <= k < i ==> a[k] == old(a[k + 1])
      invariant forall k :: i <= k < a.Length ==> a[k] == old(a[k])
    {
      a[i] := a[i + 1];
    }
  }

  lemma RemovedOne(s: seq<Message>, before: seq<Message>, after: seq<Message>, f: nat, n: nat, d: nat)
    requires f + 1 < n <= |before| == |s| && n + d == |s| && before[..n] == Cut(s, f, d)
    requires Shifted(before, after, f, n)
    requires forall i :: n - 1 <= i < |s| ==> before[i] == s[|s| - 1]
    ensures after[..n - 1] == Cut(s, f, d + 1)
    ensures forall i :: n - 2 <= i < |s| ==> after[i] == s[|s| - 1]
  {
  }

  method DropOldest(a: array<Message>, est: Estimate, budget: int, f: nat) returns (n: nat, dropped: nat)
    requires f + 1 < a.Length
    modifies a
    ensures dropped == Drops(est, budget, old(a[..]), f, 0) && n == a.Length - dropped
    ensures a[..n] == Cut(old(a[..]), f, dropped)
    ensures forall i :: n - 1 <= i < a.Length ==> a[i] == old(a[a.Length - 1])
  {
    n, dropped := a.Length, 0;
    ghost var s := a[..];
    while n > f + 1 && est(a[..n]) > budget
      invariant f < n && n + dropped == |s| == a.Length
      invariant Drops(est, budget, s, f, dropped) == Drops(est, budget, s, f, 0)
      invariant a[..n] == Cut(s, f, dropped)
      invariant forall i :: n - 1 <= i < |s| ==> a[i] == s[|s| - 1]
      decreases n
    {
      ghost var before := a[..];
      assert before[..n] == a[..n];
      RemoveAt(a, f, n);
      RemovedOne(s, before, a[..], f, n, dropped);
      n, dropped := n - 1, dropped + 1;
      assert a[..n] == a[..][..n];
    }
  }

  method CountPrompts(a: array<Message>) returns (f: nat)
    ensures f == Prompts(a[..])
  {
    f := 0;
    assert a[0..] == a[..];
    while f < a.Length && a[f].role == "system"
      invariant f <= a.Length && Prompts(a[..]) == f + Prompts(a[f..])
    {
      assert a[f..][1..] == a[f + 1..];
      f := f + 1;
    }
  }

  /** `a` is the caller's slice; the result is its first `n` elements. What lies
      behind them afterwards, still in the caller's view, repeats the last message. */
  method TruncateMessages(a: array<Message>, est: Estimate, window: int, maxOutput: int) returns (n: nat, dropped: nat)
    modifies a
    ensures var s, budget := old(a[..]), Budget(window, maxOutput);
            && dropped == Dropped(est, budget, s) && n == |s| - dropped
            && a[..n] == Truncated(est, budget, s)
            && forall i :: n <= i < |s| ==> a[i] == s[|s| - 1]
  {
    n, dropped := a.Length, 0;
    ghost var s := a[..];
    assert a[..n] == s;
    if n == 0 { return; }
    var budget := Budget(window, maxOutput);
    if est(a[..n]) <= budget { return; }
    var f := CountPrompts(a);
    if f >= n - 1 { return; }
    n, dropped := DropOldest(a, est, budget, f);
    assert Cut(s, f, 0) == s;
  }

  // -------------------------------------------------------------- properties

  lemma {:induction false} DropsIsLeast(est: Estimate, budget: int, s: seq<Message>, f: nat, d: nat, k: nat)
    requires f + d < |s|
    ensures Enough(est, budget, s, f, Drops(est, budget, s, f, d))
    ensures d <= k < Drops(est, budget, s, f, d) ==> !Enough(est, budget, s, f, k)
    decreases |s| - d
  {
    if !Enough(est, budget, s, f, d) && f + d + 1 < |s| { DropsIsLeast(est, budget, s, f, d + 1, k); }
  }

  lemma {:induction false} LeastDropped(est: Estimate, budget: int, s: seq<Message>, k: nat)
    requires k < Dropped(est, budget, s)
    ensures est(Cut(s, Prompts(s), k)) > budget
    ensures var d := Dropped(est, budget, s);
            est(Truncated(est, budget, s)) <= budget || |Truncated(est, budget, s)| == Prompts(s) + 1
  {
    DropsIsLeast(est, budget, s, Prompts(s), 0, k);
  }

  lemma {:induction false} PromptsExactly(s: seq<Message>, f: nat)
    requires f <= |s| && (forall i :: 0 <= i < f ==> s[i].role == "system") && (f < |s| ==> s[f].role != "system")
    ensures Prompts(s) == f
  {
    if f > 0 { PromptsExactly(s[1..], f - 1); }
  }

  /** The result in full: behind the leading system messages as few go as will do (with
      k gone, fewer than that, the rest would not fit), and then it fits, or at most one
      message is left behind them. */
  lemma TruncatedExactly(est: Estimate, budget: int, s: seq<Message>, f: nat, k: nat)
    requires f <= |s| && (forall i :: 0 <= i < f ==> s[i].role == "system") && (f < |s| ==> s[f].role != "system")
    ensures var r := Truncated(est, budget, s); var d := |s| - |r|;
            && 0 <= d && (d == 0 || f + d < |s|) && r == s[..f] + s[f + d..]
            && (k < d ==> est(s[..f] + s[f + k..]) > budget)
            && (est(r) <= budget || |r| <= f + 1)
  {
    PromptsExactly(s, f);
    var d := Dropped(est, budget, s);
    if d == 0 {
      assert s == s[..f] + s[f..] && Cut(s, f, 0) == s;
    } else {
      LeastDropped(est, budget, s, 0);
      if k < d { LeastDropped(est, budget, s, k); }
    }
  }

  lemma CutEnds(s: seq<Message>, f: nat, d: nat)
    requires f + d < |s|
    ensures var r := Cut(s, f, d); |r| == |s| - d && r[|r| - 1] == s[|s| - 1] && r[..f] == s[..f] && r[f..] == s[f + d..]
  {
  }

  /** The system prompts and the last message always survive, in front and at the end. */
  lemma {:induction false} EndsSurvive(est: Estimate, budget: int, s: seq<Message>)
    requires s != []
    ensures var r, f, d := Truncated(est, budget, s), Prompts(s), Dropped(est, budget, s);
            && |r| == |s| - d && r[|r| - 1] == s[|s| - 1]
            && f <= |r| && r[..f] == s[..f] && r[f..] == s[f + d..]
  {
    var d := Dropped(est, budget, s);
    if d > 0 { CutEnds(s, Prompts(s), d); }
  }

  lemma {:induction false} PromptsPrefix(s: seq<Message>, f: nat, r: seq<Message>)
    requires f <= Prompts(s) && f <= |r| && r[..f] == s[..f]
    ensures Prompts(r) >= f
    decreases f
  {
    if f > 0 {
      assert r[0] == r[..f][0] && s[0] == s[..f][0];
      assert r[1..][..f - 1] == r[..f][1..] && s[1..][..f - 1] == s[..f][1..];
      PromptsPrefix(s[1..], f - 1, r[1..]);
    }
  }

  /** Truncating a second time changes nothing, whatever the estimate. */
  lemma TruncateTwice(est: Estimate, budget: int, s: seq<Message>)
    ensures Truncated(est, budget, Truncated(est, budget, s)) == Truncated(est, budget, s)
  {
    var r, d := Truncated(est, budget, s), Dropped(est, budget, s);
    if d > 0 {
      LeastDropped(est, budget, s, d - 1);
      EndsSurvive(est, budget, s);
      PromptsPrefix(s, Prompts(s), r);
      assert LeftAlone(est, budget, r);
    }
  }
}

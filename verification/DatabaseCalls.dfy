/** Database calls that fail one by one. */
module DatabaseCalls {
  /** How the calls to come turn out; the process dies when they run out. */
  type Calls = seq<bool>

  predicate Served(calls: Calls) { calls != [] && calls[0] }

  function Later(calls: Calls): (later: Calls)
    ensures calls != [] ==> |later| < |calls|
  {
    if calls == [] then [] else calls[1..]
  }

  datatype Streak = Streak(served: bool, left: Calls)

  /** The next n calls, as long as they are served. */
  function Take(calls: Calls, n: nat): Streak {
    if n == 0 then Streak(true, calls)
    else if !Served(calls) then Streak(false, Later(calls))
    else Take(Later(calls), n - 1)
  }

  predicate AllServed(calls: Calls) { forall i :: 0 <= i < |calls| ==> calls[i] }

  lemma {:induction false} TakeServed(calls: Calls, n: nat)
    requires AllServed(calls) && n <= |calls|
    ensures Take(calls, n).served
    decreases n
  {
    if n > 0 { TakeServed(Later(calls), n - 1); }
  }

  lemma {:induction false} TakeMore(calls: Calls, m: nat, n: nat)
    ensures Take(calls, m + n) == if Take(calls, m).served then Take(Take(calls, m).left, n) else Take(calls, m)
    decreases m
  {
    if m > 0 && Served(calls) { TakeMore(Later(calls), m - 1, n); }
  }
}

/** The web client's single-flight token refresh (apps/web/src/lib/api.ts). Code runs
    to its next await undisturbed; replies and wake-ups interleave freely. */
module TokenRefresh {
  import opened Wrappers

  /** A request: its fetch under way, waiting for refresh g, returned to its caller
      (with a value or an error), or sent to the login page. */
  datatype Phase = Fetching | Waiting(g: nat) | Settled | Redirected

  /** `after` is the refresh whose success let the request be replayed. */
  datatype Request = Request(authPath: bool, phase: Phase, fetches: nat, after: Option<nat>)

  /** `inflight` is the client's field; `open` holds the refresh POSTs really on the
      wire, numbered as they are posted, and `outcomes` those that ended. */
  datatype State = State(inflight: Option<nat>, open: set<nat>, posts: nat, outcomes: map<nat, bool>, requests: map<nat, Request>)

  datatype Event = Issue(r: nat, authPath: bool) | Reply(r: nat, unauthorized: bool) | RefreshEnds(g: nat, ok: bool) | Wake(r: nat)

  // -------------------------------------------------------------------- steps

  predicate Enabled(s: State, e: Event) {
    match e
    case Issue(r, _) => r !in s.requests
    case Reply(r, _) => r in s.requests && s.requests[r].phase == Fetching
    case RefreshEnds(g, _) => g in s.open
    case Wake(r) => r in s.requests && s.requests[r].phase.Waiting? && s.requests[r].phase.g in s.outcomes
  }

  function SetPhase(s: State, r: nat, phase: Phase): State
    requires r in s.requests
  {
    s.(requests := s.requests[r := s.requests[r].(phase := phase)])
  }

  /** A 401 waits for the refresh in flight, starting one when there is none; a
      request that was replayed already gives up. */
  function Unauthorized(s: State, r: nat): State
    requires r in s.requests
  {
    if s.requests[r].after.Some? then SetPhase(s, r, Redirected)
    else if s.inflight.Some? then SetPhase(s, r, Waiting(s.inflight.value))
    else SetPhase(s, r, Waiting(s.posts)).(inflight := Some(s.posts), open := s.open + {s.posts}, posts := s.posts + 1)
  }

  function WakeUp(s: State, r: nat): State
    requires Enabled(s, Wake(r))
  {
    var q := s.requests[r];
    if s.outcomes[q.phase.g]
    then s.(requests := s.requests[r := q.(phase := Fetching, fetches := q.fetches + 1, after := Some(q.phase.g))])
    else SetPhase(s, r, Redirected)
  }

  function Apply(s: State, e: Event): State
    requires Enabled(s, e)
  {
    match e
    case Issue(r, authPath) => s.(requests := s.requests[r := Request(authPath, Fetching, 1, None)])
    case Reply(r, unauthorized) =>
      if unauthorized && !s.requests[r].authPath then Unauthorized(s, r) else SetPhase(s, r, Settled)
    case RefreshEnds(g, ok) => s.(inflight := None, open := s.open - {g}, outcomes := s.outcomes[g := ok])
    case Wake(r) => WakeUp(s, r)
  }

  predicate Possible(s: State, events: seq<Event>)
    decreases |events|
  {
    events == [] || (Enabled(s, events[0]) && Possible(Apply(s, events[0]), events[1..]))
  }

  function Run(s: State, events: seq<Event>): State
    requires Possible(s, events)
    decreases |events|
  {
    if events == [] then s else Run(Apply(s, events[0]), events[1..])
  }

  const INIT: State := State(None, {}, 0, map[], map[])

  // ----------------------------------------------------------------- programs

  class APIClient {
    var inflight: Option<nat>
    var open: set<nat>
    var posts: nat
    var outcomes: map<nat, bool>
    var requests: map<nat, Request>

    ghost function View(): State
      reads this
    {
      State(inflight, open, posts, outcomes, requests)
    }

    constructor ()
      ensures View() == INIT
    {
      inflight, open, posts, outcomes, requests := None, {}, 0, map[], map[];
    }

    /** refreshToken, up to the promise it returns. */
    method RefreshToken() returns (g: nat)
      modifies this`inflight, this`open, this`posts
      ensures inflight == Some(g)
      ensures if old(inflight).Some? then inflight == old(inflight) && open == old(open) && posts == old(posts)
              else g == old(posts) && open == old(open) + {g} && posts == g + 1
    {
      if inflight.None? {
        inflight, open, posts := Some(posts), open + {posts}, posts + 1;
      }
      g := inflight.value;
    }

    method OnReply(r: nat, unauthorized: bool)
      requires Enabled(View(), Reply(r, unauthorized))
      modifies this
      ensures View() == Apply(old(View()), Reply(r, unauthorized))
    {
      var q := requests[r];
      if !unauthorized || q.authPath {
        requests := requests[r := q.(phase := Settled)];
      } else if q.after.Some? {
        requests := requests[r := q.(phase := Redirected)];
      } else {
        var g := RefreshToken();
        requests := requests[r := q.(phase := Waiting(g))];
      }
    }

    method OnRefreshEnds(g: nat, ok: bool)
      requires Enabled(View(), RefreshEnds(g, ok))
      modifies this
      ensures View() == Apply(old(View()), RefreshEnds(g, ok))
    {
      outcomes, open := outcomes[g := ok], open - {g};
      inflight := None;
    }

    method OnWake(r: nat)
      requires Enabled(View(), Wake(r))
      modifies this`requests
      ensures View() == Apply(old(View()), Wake(r))
    {
      var q := requests[r];
      requests := requests[r := if outcomes[q.phase.g]
                                then q.(phase := Fetching, fetches := q.fetches + 1, after := Some(q.phase.g))
                                else q.(phase := Redirected)];
    }
  }

  // ------------------------------------------------------------ the invariant

  /** The client's field tells the truth about the wire. */
  ghost predicate Truthful(s: State) {
    && s.open == (if s.inflight.Some? then {s.inflight.value} else {})
    && (forall g: nat :: g < s.posts <==> g in s.open || g in s.outcomes)
    && (forall g :: g in s.open ==> g !in s.outcomes)
  }

  predicate Orderly(s: State, q: Request) {
    && q.fetches == 1 + (if q.after.Some? then 1 else 0)
    && (q.after.Some? ==> q.after.value in s.outcomes && s.outcomes[q.after.value])
    && (q.phase.Waiting? ==> q.phase.g < s.posts && q.after == None && !q.authPath)
  }

  ghost predicate Good(s: State) { Truthful(s) && forall r :: r in s.requests ==> Orderly(s, s.requests[r]) }

  lemma StepKeepsTruthful(s: State, e: Event)
    requires Truthful(s) && Enabled(s, e)
    ensures Truthful(Apply(s, e))
  {
  }

  lemma StepKeepsGood(s: State, e: Event)
    requires Good(s) && Enabled(s, e)
    ensures Good(Apply(s, e))
  {
    StepKeepsTruthful(s, e);
  }

  lemma {:induction false} RunKeepsGood(s: State, events: seq<Event>)
    requires Good(s) && Possible(s, events)
    ensures Good(Run(s, events))
    decreases |events|
  {
    if events != [] {
      StepKeepsGood(s, events[0]);
      RunKeepsGood(Apply(s, events[0]), events[1..]);
    }
  }

  /** In every run, however many requests fail at once, at most one refresh is on the
      wire; no request is sent more than twice; and one is sent twice only after a
      refresh that succeeded. */
  lemma {:induction false} SingleFlight(events: seq<Event>, r: nat)
    requires Possible(INIT, events)
    ensures var s := Run(INIT, events);
            && |s.open| <= 1
            && (r in s.requests ==> 1 <= s.requests[r].fetches <= 2)
            && (r in s.requests && s.requests[r].fetches == 2 ==>
                s.requests[r].after.Some? && s.requests[r].after.value in s.outcomes && s.outcomes[s.requests[r].after.value])
  {
    RunKeepsGood(INIT, events);
    var s := Run(INIT, events);
    if r in s.requests { assert Orderly(s, s.requests[r]); }
  }

  /** Nobody waits in vain: the refresh is still on the wire or has its outcome. */
  lemma {:induction false} WaiterCanWake(events: seq<Event>, r: nat)
    requires Possible(INIT, events)
    requires var s := Run(INIT, events); r in s.requests && s.requests[r].phase.Waiting?
    ensures var s := Run(INIT, events); s.requests[r].phase.g in s.open || Enabled(s, Wake(r))
  {
    RunKeepsGood(INIT, events);
    var s := Run(INIT, events);
    assert Orderly(s, s.requests[r]);
  }

  /** A refresh's outcome, once there, never changes: all its waiters see the same one. */
  lemma {:induction false} OneOutcome(s: State, events: seq<Event>, g: nat)
    requires Good(s) && Possible(s, events) && g in s.outcomes
    ensures g in Run(s, events).outcomes && Run(s, events).outcomes[g] == s.outcomes[g]
    decreases |events|
  {
    if events != [] {
      StepKeepsGood(s, events[0]);
      OneOutcome(Apply(s, events[0]), events[1..], g);
    }
  }

  // ------------------------------------------------- what becomes of a request

  /** A reply settles its request unless it is a 401 off the auth paths. That sends a
      request that was replayed to the login page, and has any other wait for a refresh
      on the wire; one more is posted exactly when there was none. */
  lemma ReplyFate(s: State, r: nat, unauthorized: bool)
    requires Good(s) && Enabled(s, Reply(r, unauthorized))
    ensures var t, q := Apply(s, Reply(r, unauthorized)), s.requests[r];
            && var refused := unauthorized && !q.authPath;
            && r in t.requests && t.requests == s.requests[r := q.(phase := t.requests[r].phase)] && t.outcomes == s.outcomes
            && (!refused ==> t.requests[r].phase == Settled)
            && (refused && q.fetches > 1 ==> t.requests[r].phase == Redirected)
            && (refused && q.fetches == 1 ==> t.requests[r].phase.Waiting? && t.requests[r].phase.g in t.open)
            && (refused && q.fetches == 1 && s.open == {} ==> t.posts == s.posts + 1 && t.open == {s.posts})
            && (!(refused && q.fetches == 1 && s.open == {}) ==> t.posts == s.posts && t.open == s.open)
  {
    assert Orderly(s, s.requests[r]);
  }

  /** What the refresh makes of a request that waits for it. */
  predicate Decided(s: State, r: nat, g: nat) {
    r in s.requests &&
    if s.requests[r].phase.Waiting? then s.requests[r] == Request(false, Waiting(g), 1, None)
    else g in s.outcomes &&
         if s.outcomes[g] then s.requests[r].fetches == 2 && s.requests[r].after == Some(g)
         else s.requests[r] == Request(false, Redirected, 1, None)
  }

  lemma StepKeepsDecided(s: State, e: Event, r: nat, g: nat)
    requires Truthful(s) && Enabled(s, e) && Decided(s, r, g)
    ensures Decided(Apply(s, e), r, g)
  {
  }

  lemma {:induction false} RunKeepsDecided(s: State, events: seq<Event>, r: nat, g: nat)
    requires Good(s) && Possible(s, events) && Decided(s, r, g)
    ensures Decided(Run(s, events), r, g)
    decreases |events|
  {
    if events != [] {
      StepKeepsDecided(s, events[0], r, g);
      StepKeepsGood(s, events[0]);
      RunKeepsDecided(Apply(s, events[0]), events[1..], r, g);
    }
  }

  /** Whatever else happens, a request that waits for a refresh is replayed when that one
      succeeds, and only then: when it fails, the request ends at the login page. */
  lemma {:induction false} WaiterFate(s: State, events: seq<Event>, r: nat, g: nat)
    requires Good(s) && Possible(s, events) && r in s.requests && s.requests[r].phase == Waiting(g)
    ensures var t := Run(s, events);
            && r in t.requests
            && (t.requests[r].phase.Waiting? ==> t.requests[r] == s.requests[r])
            && (!t.requests[r].phase.Waiting? ==> g in t.outcomes)
            && (!t.requests[r].phase.Waiting? && t.outcomes[g] ==> t.requests[r].fetches == 2 && t.requests[r].after == Some(g))
            && (!t.requests[r].phase.Waiting? && !t.outcomes[g] ==> t.requests[r] == s.requests[r].(phase := Redirected))
  {
    assert Orderly(s, s.requests[r]);
    RunKeepsDecided(s, events, r, g);
  }

  /** A request on an auth path is sent once, never waits for a refresh and never leads
      to the login page. */
  lemma {:induction false} AuthPathsStayOut(events: seq<Event>, r: nat)
    requires Possible(INIT, events)
    ensures var s := Run(INIT, events);
            r in s.requests && s.requests[r].authPath ==> s.requests[r].fetches == 1 && s.requests[r].phase in {Fetching, Settled}
  {
    AuthPaths(INIT, events, r);
  }

  predicate StaysOut(s: State, r: nat) {
    r in s.requests && s.requests[r].authPath ==> s.requests[r].fetches == 1 && s.requests[r].phase in {Fetching, Settled}
  }

  lemma {:induction false} AuthPaths(s: State, events: seq<Event>, r: nat)
    requires Possible(s, events) && StaysOut(s, r)
    ensures StaysOut(Run(s, events), r)
    decreases |events|
  {
    if events != [] { AuthPaths(Apply(s, events[0]), events[1..], r); }
  }

  // -------------------------------------------------------------- termination

  predicate About(e: Event, r: nat) { !e.RefreshEnds? && e.r == r }

  function Count(events: seq<Event>, r: nat): nat {
    if events == [] then 0 else (if About(events[0], r) then 1 else 0) + Count(events[1..], r)
  }

  /** Steps a request may still take. */
  function Left(s: State, r: nat): nat {
    if r !in s.requests then 4
    else match s.requests[r].phase
      case Fetching => if s.requests[r].after.None? then 3 else 1
      case Waiting(_) => 2
      case _ => 0
  }

  lemma StepUsesOne(s: State, e: Event, r: nat)
    requires Enabled(s, e)
    ensures About(e, r) ==> Left(Apply(s, e), r) < Left(s, r)
    ensures !About(e, r) ==> Left(Apply(s, e), r) == Left(s, r)
  {
  }

  /** The recursion ends: in any run a request takes at most four steps, and one whose
      steps are used up has been settled or redirected. */
  lemma {:induction false} RequestEnds(s: State, events: seq<Event>, r: nat)
    requires Possible(s, events)
    ensures Count(events, r) + Left(Run(s, events), r) <= Left(s, r) <= 4
    decreases |events|
  {
    if events != [] {
      StepUsesOne(s, events[0], r);
      RequestEnds(Apply(s, events[0]), events[1..], r);
    }
  }
}

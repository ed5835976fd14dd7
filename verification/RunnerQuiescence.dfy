/** Every acknowledged run is called back in the end.  What the program leaves to its
    surroundings is named event by event: file operations succeed, the first launch
    waits for the recovery, and a new session's journal name is not in use. */
module RunnerQuiescence {
  import opened RunnerProtocol
  import opened RunnerFanOut
  import opened RunnerRecovery

  // -------------------------------------------------------------- hypotheses

  /** The listing is complete, files can be read and removed. */
  predicate Undisturbed(s: State, e: Event) {
    match e
    case ListJournals(listing) => forall p :: p in s.disk ==> p in listing
    case ReadJournal(readable) => readable
    case RemoveJournal(_, removed) => removed
    case DiscardJournal(removed) => removed
    case _ => true
  }

  /** No session that is not through has the new session's sanitized name: none of
      another key, and none of this key on its way from done to os.Remove. */
  ghost predicate NameFree(s: State, req: LaunchRequest) {
    && (forall i :: Holds(s, i) && s.table[i].key != SessionKey(req) ==> Sanitize(s.table[i].key) != Sanitize(SessionKey(req)))
    && (forall i :: Holds(s, i) && s.table[i].key == SessionKey(req) ==> !s.table[i].done)
  }

  /** The journal of a launch is written, and a session starts only when recovery is
      over and its journal name is free. */
  ghost predicate Ordinary(s: State, e: Event)
    requires WellFormed(s)
  {
    && Undisturbed(s, e)
    && (e.Launch? ==> e.write.Saved? && (Creates(s, e.req) ==> s.recovery.Recovered? && NameFree(s, e.req)))
  }

  ghost predicate OrdinaryRun(s: State, events: seq<Event>, t: State)
    decreases |events|
  {
    if events == [] then s == t
    else WellFormed(s) && Enabled(s, events[0]) && Ordinary(s, events[0]) && OrdinaryRun(Apply(s, events[0]), events[1..], t)
  }

  // --------------------------------------------------- who answers for a file

  ghost predicate Held(s: State, path: string) { exists i :: Holds(s, i) && JournalName(s.table[i].key) == path }

  /** Once the listing is taken, each file belongs to a session or to the replay. */
  ghost predicate Owned(s: State) {
    !s.recovery.NotListed? ==> forall p :: p in s.disk ==> Held(s, p) || InReplay(s, p)
  }

  lemma HeldStays(s: State, t: State, path: string)
    requires Held(s, path) && |s.table| <= |t.table|
    requires forall i :: 0 <= i < |s.table| ==> t.table[i].key == s.table[i].key && (Holds(s, i) ==> Holds(t, i))
    ensures Held(t, path)
  {
    var i :| Holds(s, i) && JournalName(s.table[i].key) == path;
    assert Holds(t, i) && JournalName(t.table[i].key) == path;
  }

  /** Sessions keep their journals, and no file appears or leaves the replay. */
  lemma SameFilesOwned(s: State, t: State)
    requires Owned(s) && t.recovery == s.recovery && |t.table| == |s.table|
    requires forall p :: p in t.disk ==> p in s.disk
    requires forall i :: 0 <= i < |s.table| ==> t.table[i].key == s.table[i].key && (Holds(s, i) ==> Holds(t, i))
    ensures Owned(t)
  {
    if !t.recovery.NotListed? {
      forall p | p in t.disk ensures Held(t, p) || InReplay(t, p) {
        if Held(s, p) { HeldStays(s, t, p); } else { assert InReplay(s, p); }
      }
    }
  }

  lemma LaunchOwned(s: State, req: LaunchRequest)
    requires MapOk(s) && SessionsOk(s) && Owned(s) && ValidRequest(req)
    ensures Owned(Apply(s, Launch(req, Saved)))
  {
    var t := Apply(s, Launch(req, Saved));
    var key := SessionKey(req);
    var sid := if Live(s, key) then s.sessions[key] else |s.table|;
    if Live(s, key) { assert SessionOk(s.table[sid]); }
    assert Holds(t, sid) && t.table[sid].key == key;
    if !t.recovery.NotListed? {
      forall p | p in t.disk ensures Held(t, p) || InReplay(t, p) {
        if p != JournalName(key) {
          if Held(s, p) { HeldStays(s, t, p); } else { assert InReplay(s, p); }
        }
      }
    }
  }

  lemma RemoveOwned(s: State, sid: nat)
    requires Owned(s) && sid < |s.table|
    ensures Owned(Remove(s, sid, true))
  {
    var t := Remove(s, sid, true);
    if !t.recovery.NotListed? {
      forall p | p in t.disk ensures Held(t, p) || InReplay(t, p) {
        if Held(s, p) {
          var i :| Holds(s, i) && JournalName(s.table[i].key) == p;
          assert Holds(t, i) && JournalName(t.table[i].key) == p;
        } else {
          assert InReplay(s, p);
        }
      }
    }
  }

  /** The replay gives up a path only with its file, or to the open journal. */
  lemma ReplayOwned(s: State, t: State)
    requires Owned(s) && t.table == s.table && !t.recovery.NotListed? && !s.recovery.NotListed?
    requires forall p :: p in t.disk ==> p in s.disk && (InReplay(s, p) ==> InReplay(t, p))
    ensures Owned(t)
  {
    forall p | p in t.disk ensures Held(t, p) || InReplay(t, p) {
      if Held(s, p) { HeldStays(s, t, p); }
    }
  }

  lemma OpenOwned(s: State)
    requires Owned(s) && ReplayOk(s) && s.recovery.Replaying? && s.recovery.current.Idle?
    ensures Owned(Open(s, true))
  {
    var t, todo := Open(s, true), s.recovery.todo;
    forall p | p in t.disk && InReplay(s, p) ensures InReplay(t, p) {
      if p != todo[0] { assert p in todo[1..]; }
    }
    ReplayOwned(s, t);
  }

  lemma ListOwned(s: State, listing: seq<string>)
    requires forall p :: p in s.disk ==> p in listing
    ensures Owned(s.(recovery := Replaying(listing, Idle)))
  {
    var t := s.(recovery := Replaying(listing, Idle));
    forall p | p in t.disk ensures InReplay(t, p) {}
  }

  lemma SessionStepOwned(s: State, e: Event)
    requires WellFormed(s) && Owned(s) && Enabled(s, e)
    requires e.SetCancel? || e.Cancel? || e.Finish? || e.Deliver?
    ensures Owned(Apply(s, e))
  {
    SameFilesOwned(s, Apply(s, e));
  }

  lemma RecoveryStepOwned(s: State, e: Event)
    requires WellFormed(s) && ReplayOk(s) && Owned(s) && Enabled(s, e) && Undisturbed(s, e)
    requires e.ListJournals? || e.ReadJournal? || e.NotifyCrashed? || e.DiscardJournal?
    ensures Owned(Apply(s, e))
  {
    if e.ListJournals? {
      ListOwned(s, e.listing);
    } else if e.ReadJournal? {
      OpenOwned(s);
    } else {
      ReplayOwned(s, Apply(s, e));
    }
  }

  lemma StepKeepsOwned(s: State, e: Event)
    requires Consistent(s) && ReplayOk(s) && Owned(s) && Enabled(s, e) && Ordinary(s, e)
    ensures Owned(Apply(s, e))
  {
    match e
    case Launch(req, _) => LaunchOwned(s, req);
    case RemoveJournal(sid, _) => RemoveOwned(s, sid);
    case Crash =>
    case ListJournals(_) => RecoveryStepOwned(s, e);
    case ReadJournal(_) => RecoveryStepOwned(s, e);
    case NotifyCrashed => RecoveryStepOwned(s, e);
    case DiscardJournal(_) => RecoveryStepOwned(s, e);
    case _ => SessionStepOwned(s, e);
  }

  /** An ordinary launch is careful: when recovery is over, every file belongs to a
      session at work, and none of those has the new name. */
  lemma OrdinaryLaunchIsCareful(s: State, req: LaunchRequest)
    requires Consistent(s) && Owned(s) && Ordinary(s, Launch(req, Saved))
    ensures Careful(s, Launch(req, Saved))
  {
    var path := JournalName(SessionKey(req));
    if Creates(s, req) {
      forall i | Holds(s, i) ensures JournalName(s.table[i].key) != path {
        assert Registered(s, i);
        if JournalName(s.table[i].key) == path { SameJournalName(s.table[i].key, SessionKey(req)); }
      }
      assert !Held(s, path);
    }
  }

  lemma OrdinaryStep(s: State, e: Event)
    requires Durable(s) && Owned(s) && Enabled(s, e) && Ordinary(s, e)
    ensures Careful(s, e) && Durable(Apply(s, e)) && Owned(Apply(s, e))
  {
    if e.Launch? { OrdinaryLaunchIsCareful(s, e.req); }
    StepKeepsDurable(s, e);
    StepKeepsOwned(s, e);
  }

  lemma {:induction false} OrdinaryRunKeeps(s: State, events: seq<Event>, t: State)
    requires Durable(s) && Owned(s) && OrdinaryRun(s, events, t)
    ensures Durable(t) && Owned(t)
    decreases |events|
  {
    if events != [] {
      OrdinaryStep(s, events[0]);
      OrdinaryRunKeeps(Apply(s, events[0]), events[1..], t);
    }
  }

  // ------------------------------------------------------------ main results

  /** Recovery is over and no goroutine is left. */
  predicate Quiescent(s: State) {
    s.recovery.Recovered? && forall i :: 0 <= i < |s.table| ==> s.table[i].phase.Exited?
  }

  lemma QuietMeansEmpty(s: State)
    requires Owned(s) && Quiescent(s)
    ensures s.disk == map[]
  {
    assert forall p :: p in s.disk ==> Held(s, p);
    assert forall p :: !Held(s, p);
  }

  lemma QuietMeansCalled(s: State, a: Ack)
    requires Durable(s) && Owned(s) && Quiescent(s) && a in s.acks
    ensures s.disk == map[] && CalledSince(s.log, a.at, a.key, a.req.runId)
  {
    QuietMeansEmpty(s);
    var k :| 0 <= k < |s.acks| && s.acks[k] == a;
    assert Accounted(s, s.acks[k]);
  }

  /** In every ordinary run, with any number of crashes: when all is quiet the work
      directory is empty and every acknowledged launch has been called back since. */
  lemma {:induction false} QuiescentMeansCalled(s: State, events: seq<Event>, t: State, a: Ack)
    requires Init(s) && OrdinaryRun(s, events, t) && Quiescent(t) && a in t.acks
    ensures t.disk == map[] && CalledSince(t.log, a.at, a.key, a.req.runId)
  {
    OrdinaryRunKeeps(s, events, t);
    QuietMeansCalled(t, a);
  }

  // ------------------------------------------------- and it does become quiet

  /** No launch and no crash: what the program does when left alone. */
  predicate Calm(events: seq<Event>) {
    events != [] ==> !events[0].Launch? && !events[0].Crash? && Calm(events[1..])
  }

  lemma {:induction false} OrdinaryCons(s: State, e: Event, rest: seq<Event>, t: State)
    requires WellFormed(s) && Enabled(s, e) && Ordinary(s, e) && OrdinaryRun(Apply(s, e), rest, t)
    requires !e.Launch? && !e.Crash? && Calm(rest)
    ensures OrdinaryRun(s, [e] + rest, t) && Calm([e] + rest)
  {
    assert ([e] + rest)[1..] == rest;
  }

  lemma {:induction false} OrdinaryConcat(s: State, first: seq<Event>, t: State, second: seq<Event>, u: State)
    requires OrdinaryRun(s, first, t) && OrdinaryRun(t, second, u) && Calm(first) && Calm(second)
    ensures OrdinaryRun(s, first + second, u) && Calm(first + second)
    decreases |first|
  {
    if first == [] {
      assert first + second == second;
    } else {
      OrdinaryConcat(Apply(s, first[0]), first[1..], t, second, u);
      assert (first + second)[1..] == first[1..] + second;
    }
  }

  lemma {:induction false} Listed(paths: set<string>) returns (listing: seq<string>)
    ensures forall p :: p in listing <==> p in paths
    ensures forall i, j :: 0 <= i < j < |listing| ==> listing[i] != listing[j]
  {
    if paths == {} { return []; }
    var p :| p in paths;
    var rest := Listed(paths - {p});
    listing := [p] + rest;
  }

  function Stage(r: Recovery): nat { if r.NotListed? then 2 else if r.Replaying? then 1 else 0 }
  function Waiting(r: Recovery): nat { if r.Replaying? then |r.todo| else 0 }
  function Unnotified(r: Recovery): nat {
    if r.Replaying? && r.current.Notifying? && r.current.journal.Journal? && r.current.next <= |r.current.journal.subscribers|
    then 1 + |r.current.journal.subscribers| - r.current.next else 0
  }

  /** What recovery does next. */
  lemma RecoveryMoves(s: State) returns (e: Event)
    requires Durable(s) && !s.recovery.Recovered?
    ensures !e.Launch? && !e.Crash? && Enabled(s, e) && Ordinary(s, e)
    ensures var t := Apply(s, e);
            && t.table == s.table && t.acks == s.acks
            && (Stage(t.recovery) < Stage(s.recovery)
                || (Stage(t.recovery) == Stage(s.recovery)
                    && (Waiting(t.recovery) < Waiting(s.recovery)
                        || (Waiting(t.recovery) == Waiting(s.recovery) && Unnotified(t.recovery) < Unnotified(s.recovery)))))
  {
    if s.recovery.NotListed? {
      var listing := Listed(s.disk.Keys);
      return ListJournals(listing);
    }
    var current := s.recovery.current;
    if current.Idle? {
      return ReadJournal(true);
    }
    if current.next < |current.journal.subscribers| {
      return NotifyCrashed;
    }
    return DiscardJournal(true);
  }

  /** Recovery reaches its end. */
  lemma {:induction false} DrainRecovery(s: State) returns (events: seq<Event>, t: State)
    requires Durable(s) && Owned(s)
    ensures OrdinaryRun(s, events, t) && Calm(events) && Durable(t) && Owned(t)
    ensures t.recovery.Recovered? && t.table == s.table && t.acks == s.acks
    decreases Stage(s.recovery), Waiting(s.recovery), Unnotified(s.recovery)
  {
    if s.recovery.Recovered? { return [], s; }
    var e := RecoveryMoves(s);
    OrdinaryStep(s, e);
    var rest;
    rest, t := DrainRecovery(Apply(s, e));
    OrdinaryCons(s, e, rest, t);
    events := [e] + rest;
  }

  function Step(sess: Session): nat {
    match sess.phase
    case Working => if sess.cancel.Unset? then 3 else 2
    case Delivering(_, _, _) => 1
    case Exited => 0
  }

  function Unserved(sess: Session): nat {
    if sess.phase.Delivering? && sess.phase.next <= |sess.phase.snapshot| then |sess.phase.snapshot| - sess.phase.next else 0
  }

  /** What a session's goroutine does next. */
  lemma SessionMoves(s: State, i: nat) returns (e: Event)
    requires SessionsOk(s) && WellFormed(s) && i < |s.table| && !s.table[i].phase.Exited?
    ensures !e.Launch? && !e.Crash? && Enabled(s, e) && Ordinary(s, e)
    ensures var t := Apply(s, e);
            && t.recovery == s.recovery && t.acks == s.acks && |t.table| == |s.table|
            && (forall j :: 0 <= j < |s.table| && j != i ==> t.table[j] == s.table[j])
            && (Step(t.table[i]) < Step(s.table[i])
                || (Step(t.table[i]) == Step(s.table[i]) && Unserved(t.table[i]) < Unserved(s.table[i])))
  {
    var sess := s.table[i];
    assert SessionOk(sess);
    if sess.phase.Working? {
      return if sess.cancel.Unset? then SetCancel(i) else Finish(i, "");
    }
    return if sess.phase.next < |sess.phase.snapshot| then Deliver(i) else RemoveJournal(i, true);
  }

  /** A session's goroutine reaches its end. */
  lemma {:induction false} DrainSession(s: State, i: nat) returns (events: seq<Event>, t: State)
    requires Durable(s) && Owned(s) && i < |s.table|
    ensures OrdinaryRun(s, events, t) && Calm(events) && Durable(t) && Owned(t)
    ensures t.recovery == s.recovery && t.acks == s.acks && |t.table| == |s.table| && t.table[i].phase.Exited?
    ensures forall j :: 0 <= j < |s.table| && j != i ==> t.table[j] == s.table[j]
    decreases Step(s.table[i]), Unserved(s.table[i])
  {
    if s.table[i].phase.Exited? { return [], s; }
    var e := SessionMoves(s, i);
    OrdinaryStep(s, e);
    var rest;
    rest, t := DrainSession(Apply(s, e), i);
    OrdinaryCons(s, e, rest, t);
    events := [e] + rest;
  }

  lemma {:induction false} DrainSessions(s: State, n: nat) returns (events: seq<Event>, t: State)
    requires Durable(s) && Owned(s) && n <= |s.table| && forall j :: 0 <= j < n ==> s.table[j].phase.Exited?
    ensures OrdinaryRun(s, events, t) && Calm(events) && Durable(t) && Owned(t)
    ensures t.recovery == s.recovery && t.acks == s.acks
    ensures forall j :: 0 <= j < |t.table| ==> t.table[j].phase.Exited?
    decreases |s.table| - n
  {
    if n == |s.table| { return [], s; }
    var first, u := DrainSession(s, n);
    var second;
    second, t := DrainSessions(u, n + 1);
    OrdinaryConcat(s, first, u, second, t);
    events := first + second;
  }

  /** No acknowledged launch is ever lost: from every state an ordinary run can reach,
      crashes included, the program left alone calls back everyone it owes, removes
      every journal and comes to rest. */
  lemma EveryLaunchIsCalledBack(s: State, events: seq<Event>, t: State) returns (more: seq<Event>, u: State)
    requires Init(s) && OrdinaryRun(s, events, t)
    ensures OrdinaryRun(t, more, u) && Calm(more) && Quiescent(u) && u.disk == map[]
    ensures u.acks == t.acks && forall a :: a in t.acks ==> CalledSince(u.log, a.at, a.key, a.req.runId)
  {
    OrdinaryRunKeeps(s, events, t);
    var first, v := DrainRecovery(t);
    var second;
    second, u := DrainSessions(v, 0);
    OrdinaryConcat(t, first, v, second, u);
    more := first + second;
    QuietMeansEmpty(u);
    forall a | a in t.acks ensures CalledSince(u.log, a.at, a.key, a.req.runId) { QuietMeansCalled(u, a); }
  }
}

/** When a run is stranded, exactly.  A run is stranded when nobody will ever call it
    back: the launch was acknowledged, and neither the log nor any file, session or
    replay has it.  Each step is judged by a condition on the state before it. */
module RunnerStranding {
  import opened RunnerProtocol
  import opened RunnerFanOut
  import opened RunnerRecovery

  // ------------------------------------------------------- stranded is final

  predicate HasIt(key: string, subs: seq<Subscriber>, a: Ack) { key == a.key && HasRun(subs, a.req.runId) }

  ghost predicate Stranded(s: State, a: Ack) {
    && !Since(s, a)
    && (forall p :: p in s.disk && s.disk[p].Journal? ==> !HasIt(s.disk[p].key, s.disk[p].subscribers, a))
    && (forall i :: 0 <= i < |s.table| ==> !HasIt(s.table[i].key, s.table[i].subscribers, a))
    && (s.recovery.Replaying? && s.recovery.current.Notifying? && s.recovery.current.journal.Journal? ==>
          !HasIt(s.recovery.current.journal.key, s.recovery.current.journal.subscribers, a))
  }

  predicate Relaunches(e: Event, a: Ack) { e.Launch? && SessionKey(e.req) == a.key && e.req.runId == a.req.runId }

  lemma StrandedLaunch(s: State, req: LaunchRequest, write: WriteOutcome, a: Ack)
    requires MapOk(s) && Stranded(s, a) && (SessionKey(req) != a.key || req.runId != a.req.runId)
    ensures Stranded(if Live(s, SessionKey(req)) then Join(s, req, write) else Start(s, req, write), a)
  {
    if Live(s, SessionKey(req)) {
      HasRunAppend(s.table[s.sessions[SessionKey(req)]].subscribers, SubscriberOf(req));
    }
  }

  lemma StrandedDeliver(s: State, sid: nat, a: Ack)
    requires Stranded(s, a) && sid < |s.table| && SessionOk(s.table[sid])
    requires s.table[sid].phase.Delivering? && s.table[sid].phase.next < |s.table[sid].phase.snapshot|
    ensures Stranded(DeliverNext(s, sid), a)
  {
    var sess := s.table[sid];
    assert sess.subscribers[sess.phase.next] == DeliverNext(s, sid).log[|s.log|].sub;
  }

  lemma StrandedRecovery(s: State, e: Event, a: Ack)
    requires WellFormed(s) && Stranded(s, a) && Enabled(s, e)
    requires e.ListJournals? || e.ReadJournal? || e.NotifyCrashed? || e.DiscardJournal?
    ensures Stranded(Apply(s, e), a)
  {
  }

  /** No later step of any process calls a stranded run back, unless somebody launches
      the same run under the same key again. */
  lemma StrandedStays(s: State, e: Event, a: Ack)
    requires MapOk(s) && SessionsOk(s) && Stranded(s, a) && Enabled(s, e) && !Relaunches(e, a)
    ensures Stranded(Apply(s, e), a)
  {
    match e
    case Launch(req, write) => StrandedLaunch(s, req, write, a);
    case Deliver(sid) => StrandedDeliver(s, sid, a);
    case ListJournals(_) => StrandedRecovery(s, e, a);
    case ReadJournal(_) => StrandedRecovery(s, e, a);
    case NotifyCrashed => StrandedRecovery(s, e, a);
    case DiscardJournal(_) => StrandedRecovery(s, e, a);
    case _ =>
  }

  lemma {:induction false} StrandedForever(s: State, events: seq<Event>, t: State, a: Ack)
    requires Consistent(s) && Stranded(s, a) && Run(s, events, t)
    requires forall e :: e in events ==> !Relaunches(e, a)
    ensures !CalledSince(t.log, a.at, a.key, a.req.runId)
    decreases |events|
  {
    if events != [] {
      StrandedStays(s, events[0], a);
      StepKeepsConsistent(s, events[0]);
      StrandedForever(Apply(s, events[0]), events[1..], t, a);
    }
  }

  // --------------------------------------------------- what a crash would strand

  /** A journal lies under its own key's name. */
  ghost predicate FilesNamed(s: State) {
    forall p :: p in s.disk && s.disk[p].Journal? ==> p == JournalName(s.disk[p].key)
  }

  lemma StepKeepsNamed(s: State, e: Event)
    requires WellFormed(s) && FilesNamed(s) && Enabled(s, e)
    ensures FilesNamed(Apply(s, e))
  {
  }

  /** A crash strands a launch exactly when it was neither called back since nor is in
      a file under its key. */
  lemma CrashStrandsExactly(s: State, a: Ack)
    requires FilesNamed(s)
    ensures Stranded(Restart(s), a) <==> !Accounted(s, a)
  {
  }

  ghost predicate CrashStrandsNone(s: State) {
    forall k :: 0 <= k < |s.acks| ==> !Stranded(Restart(s), s.acks[k])
  }

  lemma AccountedMeansUnstranded(s: State)
    requires FilesNamed(s)
    ensures CrashStrandsNone(s) <==> AccountsOk(s)
  {
    forall k | 0 <= k < |s.acks| ensures Stranded(Restart(s), s.acks[k]) <==> !Accounted(s, s.acks[k]) {
      CrashStrandsExactly(s, s.acks[k]);
    }
  }

  // -------------------------------------------------------- the exact conditions

  /** The launch is a join under a run id the session already has: no file is written. */
  predicate Rejoins(s: State, req: LaunchRequest)
    requires WellFormed(s)
  {
    Live(s, SessionKey(req)) && HasRun(s.table[s.sessions[SessionKey(req)]].subscribers, req.runId)
  }

  /** The subscribers that a launch writes to the journal. */
  function SubsAfter(s: State, req: LaunchRequest): seq<Subscriber>
    requires WellFormed(s)
  {
    (if Live(s, SessionKey(req)) then s.table[s.sessions[SessionKey(req)]].subscribers else []) + [SubscriberOf(req)]
  }

  /** Every launch that could rely on the file was called back. */
  ghost predicate Dispensable(s: State, path: string) {
    forall k :: 0 <= k < |s.acks| && JournalName(s.acks[k].key) == path ==> Since(s, s.acks[k])
  }

  /** Of the launches that could rely on the file, those not called back are in `subs`. */
  ghost predicate Replaceable(s: State, path: string, key: string, subs: seq<Subscriber>) {
    forall k :: 0 <= k < |s.acks| && JournalName(s.acks[k].key) == path ==> Since(s, s.acks[k]) || HasIt(key, subs, s.acks[k])
  }

  /** A launch that writes nothing needs its run on disk already; one that writes must
      succeed, and what it overwrites must be settled or written again; a file may go
      when all who could rely on it were called back. */
  ghost predicate Safe(s: State, e: Event)
    requires WellFormed(s) && Enabled(s, e)
  {
    match e
    case Launch(req, write) =>
      if Rejoins(s, req) || write.NotSaved? then OnDisk(s, SessionKey(req), req.runId)
      else write.Saved? && Replaceable(s, JournalName(SessionKey(req)), SessionKey(req), SubsAfter(s, req))
    case RemoveJournal(sid, removed) => removed ==> Dispensable(s, JournalName(s.table[sid].key))
    case DiscardJournal(removed) => removed ==> Dispensable(s, s.recovery.current.path)
    case _ => true
  }

  lemma NewAckUncalled(s: State, t: State)
    requires t.log == s.log && |t.acks| == |s.acks| + 1 && t.acks[|s.acks|].at == |s.log|
    ensures !Since(t, t.acks[|s.acks|])
  {
  }

  lemma OldAcks(s: State, t: State)
    requires s.acks <= t.acks && |t.acks| == |s.acks| + 1
    ensures AccountsOk(t) <==> Accounted(t, t.acks[|s.acks|]) && forall k :: 0 <= k < |s.acks| ==> Accounted(t, s.acks[k])
  {
    assert forall k :: 0 <= k < |s.acks| ==> t.acks[k] == s.acks[k];
  }

  /** A launch that leaves the files as they were. */
  lemma UnwrittenExactly(s: State, t: State)
    requires AccountsOk(s) && t.log == s.log && t.disk == s.disk && s.acks <= t.acks && |t.acks| == |s.acks| + 1
    requires t.acks[|s.acks|].at == |s.log|
    ensures var a := t.acks[|s.acks|]; AccountsOk(t) <==> OnDisk(s, a.key, a.req.runId)
  {
    OldAcks(s, t);
    NewAckUncalled(s, t);
    forall k | 0 <= k < |s.acks| ensures Accounted(t, s.acks[k]) { assert Accounted(s, s.acks[k]); }
  }

  /** A launch that writes its journal. */
  lemma WrittenExactly(s: State, t: State, f: File)
    requires AccountsOk(s) && t.log == s.log && s.acks <= t.acks && |t.acks| == |s.acks| + 1
    requires t.acks[|s.acks|].at == |s.log| && t.disk == s.disk[JournalName(t.acks[|s.acks|].key) := f]
    requires f.Journal? ==> HasIt(f.key, f.subscribers, t.acks[|s.acks|])
    ensures var path := JournalName(t.acks[|s.acks|].key);
            AccountsOk(t) <==> f.Journal? && Replaceable(s, path, f.key, f.subscribers)
  {
    OldAcks(s, t);
    NewAckUncalled(s, t);
    if f.Journal? {
      forall k | 0 <= k < |s.acks|
        ensures Accounted(t, s.acks[k]) <==>
                (JournalName(s.acks[k].key) == JournalName(t.acks[|s.acks|].key) ==> Since(s, s.acks[k]) || HasIt(f.key, f.subscribers, s.acks[k]))
      {
        WrittenAck(s, t, k, f);
      }
    }
  }

  lemma WrittenAck(s: State, t: State, k: nat, f: File)
    requires AccountsOk(s) && t.log == s.log && k < |s.acks| < |t.acks| && f.Journal?
    requires t.disk == s.disk[JournalName(t.acks[|s.acks|].key) := f]
    ensures Accounted(t, s.acks[k]) <==>
            (JournalName(s.acks[k].key) == JournalName(t.acks[|s.acks|].key) ==> Since(s, s.acks[k]) || HasIt(f.key, f.subscribers, s.acks[k]))
  {
    assert Accounted(s, s.acks[k]);
  }

  lemma LaunchSafeExactly(s: State, req: LaunchRequest, write: WriteOutcome)
    requires MapOk(s) && AccountsOk(s) && ValidRequest(req)
    ensures AccountsOk(Apply(s, Launch(req, write))) <==> Safe(s, Launch(req, write))
  {
    var t := Apply(s, Launch(req, write));
    if Rejoins(s, req) || write.NotSaved? {
      UnwrittenExactly(s, t);
    } else {
      var sid := if Live(s, SessionKey(req)) then s.sessions[SessionKey(req)] else |s.table|;
      if Live(s, SessionKey(req)) { HasRunAppend(s.table[sid].subscribers, SubscriberOf(req)); }
      assert [] + [SubscriberOf(req)] == [SubscriberOf(req)];
      assert t.table[sid].key == SessionKey(req) && t.table[sid].subscribers == SubsAfter(s, req);
      assert SubsAfter(s, req)[|SubsAfter(s, req)| - 1].runId == req.runId;
      WrittenExactly(s, t, if write.Saved? then JournalOf(t.table[sid]) else Garbled);
    }
  }

  lemma RemovedExactly(s: State, t: State, path: string)
    requires AccountsOk(s) && t.log == s.log && t.acks == s.acks && t.disk == s.disk - {path}
    ensures AccountsOk(t) <==> Dispensable(s, path)
  {
    forall k | 0 <= k < |s.acks| ensures Accounted(t, t.acks[k]) <==> (JournalName(s.acks[k].key) == path ==> Since(s, s.acks[k])) {
      assert Accounted(s, s.acks[k]);
    }
  }

  /** A step keeps every launch safe from a crash exactly when it meets its condition. */
  lemma StepSafeExactly(s: State, e: Event)
    requires MapOk(s) && AccountsOk(s) && Enabled(s, e)
    ensures AccountsOk(Apply(s, e)) <==> Safe(s, e)
  {
    match e
    case Launch(req, write) => LaunchSafeExactly(s, req, write);
    case RemoveJournal(sid, removed) => if removed { RemovedExactly(s, Apply(s, e), JournalName(s.table[sid].key)); }
    case DiscardJournal(removed) => if removed { RemovedExactly(s, Apply(s, e), s.recovery.current.path); }
    case _ => KeepsAccounts(s, Apply(s, e));
  }

  // ------------------------------------------------------------- over whole runs

  /** A crash at any point of the run would strand no acknowledged launch. */
  ghost predicate NeverStrands(s: State, events: seq<Event>)
    decreases |events|
  {
    && CrashStrandsNone(s)
    && (events != [] ==> WellFormed(s) && Enabled(s, events[0]) && NeverStrands(Apply(s, events[0]), events[1..]))
  }

  ghost predicate SafeRun(s: State, events: seq<Event>)
    decreases |events|
  {
    events != [] ==> WellFormed(s) && Enabled(s, events[0]) && Safe(s, events[0]) && SafeRun(Apply(s, events[0]), events[1..])
  }

  lemma {:induction false} SafeRunKeeps(s: State, events: seq<Event>, t: State)
    requires Consistent(s) && FilesNamed(s) && AccountsOk(s) && Run(s, events, t)
    ensures NeverStrands(s, events) <==> SafeRun(s, events)
    decreases |events|
  {
    AccountedMeansUnstranded(s);
    if events != [] {
      var next := Apply(s, events[0]);
      StepSafeExactly(s, events[0]);
      StepKeepsConsistent(s, events[0]);
      StepKeepsNamed(s, events[0]);
      AccountedMeansUnstranded(next);
      if Safe(s, events[0]) {
        SafeRunKeeps(next, events[1..], t);
      } else {
        assert !CrashStrandsNone(next);
      }
    }
  }

  /** No acknowledged run is ever stranded, whenever the process may die, exactly when
      every step of the run meets its condition. */
  lemma {:induction false} NeverStrandedExactly(s: State, events: seq<Event>, t: State)
    requires Init(s) && Run(s, events, t)
    ensures NeverStrands(s, events) <==> SafeRun(s, events)
  {
    SafeRunKeeps(s, events, t);
  }

  /** Careful runs meet all of the conditions. */
  lemma {:induction false} CarefulRunIsSafe(s: State, events: seq<Event>, t: State)
    requires Durable(s) && CarefulRun(s, events, t)
    ensures SafeRun(s, events)
    decreases |events|
  {
    if events != [] {
      StepKeepsDurable(s, events[0]);
      StepSafeExactly(s, events[0]);
      CarefulRunIsSafe(Apply(s, events[0]), events[1..], t);
    }
  }

  // ------------------------------------------------- both races are reachable

  const BOOT := State(0, map[], [], map[], NotListed, [], [])

  lemma {:induction false} RunCons(s: State, e: Event, rest: seq<Event>, t: State)
    requires WellFormed(s) && Enabled(s, e) && Run(Apply(s, e), rest, t)
    ensures Run(s, [e] + rest, t)
  {
  }

  lemma {:induction false} RunSnoc(s: State, events: seq<Event>, t: State, e: Event)
    requires Run(s, events, t) && WellFormed(t) && Enabled(t, e)
    ensures Run(s, events + [e], Apply(t, e))
    decreases |events|
  {
    if events == [] {
      assert events + [e] == [e];
      RunCons(s, e, [], Apply(t, e));
    } else {
      RunSnoc(Apply(s, events[0]), events[1..], t, e);
      assert events + [e] == [events[0]] + (events[1..] + [e]);
    }
  }

  lemma FirstSessionDone(first: LaunchRequest, status: string) returns (events: seq<Event>, t: State)
    requires ValidRequest(first)
    ensures CarefulRun(BOOT, events, t) && Run(BOOT, events, t)
    ensures t.epoch == 0 && |t.table| == 1 && t.table[0].key == SessionKey(first)
    ensures t.table[0].phase == Delivering([SubscriberOf(first)], 1, status)
    ensures t.log == [Callback(FromSession(0, 0), SessionKey(first), SubscriberOf(first), status, WorkOf(first))]
  {
    var idle := BOOT.(recovery := Replaying([], Idle));
    var s0 := BOOT.(recovery := Recovered);
    var s1 := Start(s0, first, Saved);
    var s2 := Patch(s1, 0, s1.table[0].(cancel := Armed));
    var s3 := FinishSession(s2, 0, status);
    t := DeliverNext(s3, 0);
    var e4 := [Deliver(0)];
    var e3 := [Finish(0, status)] + e4;
    var e2 := [SetCancel(0)] + e3;
    var e1 := [Launch(first, Saved)] + e2;
    var e0 := [ReadJournal(true)] + e1;
    events := [ListJournals([])] + e0;
    CarefulCons(s3, Deliver(0), [], t);
    CarefulCons(s2, Finish(0, status), e4, t);
    CarefulCons(s1, SetCancel(0), e3, t);
    CarefulCons(s0, Launch(first, Saved), e2, t);
    CarefulCons(idle, ReadJournal(true), e1, t);
    CarefulCons(BOOT, ListJournals([]), e0, t);
    CarefulIsRun(BOOT, events, t);
  }

  lemma {:induction false} CarefulCons(s: State, e: Event, rest: seq<Event>, t: State)
    requires WellFormed(s) && Enabled(s, e) && Careful(s, e) && CarefulRun(Apply(s, e), rest, t)
    ensures CarefulRun(s, [e] + rest, t)
  {
  }

  lemma {:induction false} CarefulIsRun(s: State, events: seq<Event>, t: State)
    requires CarefulRun(s, events, t)
    ensures Run(s, events, t)
    decreases |events|
  {
    if events != [] { CarefulIsRun(Apply(s, events[0]), events[1..], t); }
  }

  lemma BootDurable()
    ensures Durable(BOOT)
  {
  }

  /** The old goroutine's os.Remove deletes the journal of the session that was started
      meanwhile for the same work item. */
  lemma RelaunchBeforeRemoveStrands(s: State, sid: nat, req: LaunchRequest)
    requires sid < |s.table| && s.table[sid].key == SessionKey(req) && FilesNamed(s)
    ensures var t := Remove(Start(s, req, Saved), sid, true);
            Stranded(Restart(t), Ack(s.epoch, |s.table|, SessionKey(req), req, |s.log|))
  {
    var t := Remove(Start(s, req, Saved), sid, true);
    CrashStrandsExactly(t, Ack(s.epoch, |s.table|, SessionKey(req), req, |s.log|));
  }

  /** From an empty machine: a second launch of the same work item in the window
      between `done` and os.Remove is acknowledged and never called back. */
  lemma RelaunchRace(first: LaunchRequest, second: LaunchRequest, status: string)
    returns (events: seq<Event>, t: State)
    requires ValidRequest(first) && ValidRequest(second) && SessionKey(first) == SessionKey(second)
    ensures Run(BOOT, events, t)
    ensures var a := Ack(0, 1, SessionKey(second), second, 1); a in t.acks && Stranded(t, a)
  {
    var s: State;
    events, s := FirstSessionDone(first, status);
    BootDurable();
    RunKeepsDurable(BOOT, events, s);
    assert FilesNamed(s) by {
      forall p | p in s.disk ensures p == JournalName(s.disk[p].key) { assert FileOk(p, s.disk[p]); }
    }
    RelaunchBeforeRemoveStrands(s, 0, second);
    t := Restart(Remove(Start(s, second, Saved), 0, true));
    events := RaceSteps(events, s, second);
    assert t.acks[|s.acks|] == Ack(0, 1, SessionKey(second), second, 1);
  }

  lemma RaceSteps(events: seq<Event>, s: State, second: LaunchRequest) returns (more: seq<Event>)
    requires Run(BOOT, events, s) && MapOk(s) && ValidRequest(second) && |s.table| == 1 && s.table[0].done
    requires s.table[0].phase.Delivering? && s.table[0].phase.next == |s.table[0].phase.snapshot|
    ensures Run(BOOT, more, Restart(Remove(Start(s, second, Saved), 0, true)))
  {
    var s1 := Start(s, second, Saved);
    var s2 := Remove(s1, 0, true);
    var launched := events + [Launch(second, Saved)];
    assert Apply(s, Launch(second, Saved)) == s1;
    RunSnoc(BOOT, events, s, Launch(second, Saved));
    RunSnoc(BOOT, launched, s1, RemoveJournal(0, true));
    RunSnoc(BOOT, launched + [RemoveJournal(0, true)], s2, Crash);
    more := launched + [RemoveJournal(0, true)] + [Crash];
  }

  /** One journal, of a first launch that did not wait for the listing, is open for
      replay while a second launch has joined the session. */
  predicate MidReplay(s: State, first: LaunchRequest, second: LaunchRequest) {
    var key := SessionKey(first);
    var sess := Session(key, first, [SubscriberOf(first), SubscriberOf(second)], false, Unset, Working);
    s == State(0, map[key := 0], [sess], map[JournalName(key) := JournalOf(sess)],
               Replaying([], Notifying(JournalName(key), Journal(key, first.repo, first.ticketKey, [SubscriberOf(first)]), 0)),
               [], [Ack(0, 0, key, first, 0), Ack(0, 0, key, second, 0)])
  }

  lemma JoinMidReplay(first: LaunchRequest, second: LaunchRequest, s: State)
    requires SessionKey(first) == SessionKey(second) && first.runId != second.runId
    requires s == Open(Start(BOOT, first, Saved).(recovery := Replaying([JournalName(SessionKey(first))], Idle)), true)
    ensures Live(s, SessionKey(second)) && MidReplay(Join(s, second, Saved), first, second)
  {
    var key := SessionKey(first);
    var path := JournalName(key);
    var t := Join(s, second, Saved);
    assert s.table == [Session(key, first, [SubscriberOf(first)], false, Unset, Working)];
    assert !HasRun(s.table[0].subscribers, second.runId);
    assert t.sessions == map[key := 0] && t.acks == [Ack(0, 0, key, first, 0), Ack(0, 0, key, second, 0)];
    assert t.disk == map[path := JournalOf(t.table[0])];
    assert t.table[0].subscribers == [SubscriberOf(first), SubscriberOf(second)];
    assert t.recovery.todo == [] && t.table == [t.table[0]];
  }

  lemma ReachMidReplay(first: LaunchRequest, second: LaunchRequest) returns (events: seq<Event>, t: State)
    requires ValidRequest(first) && ValidRequest(second)
    requires SessionKey(first) == SessionKey(second) && first.runId != second.runId
    ensures Run(BOOT, events, t) && MidReplay(t, first, second)
  {
    var path := JournalName(SessionKey(first));
    var s1 := Start(BOOT, first, Saved);
    var s2 := s1.(recovery := Replaying([path], Idle));
    var s3 := Open(s2, true);
    t := Join(s3, second, Saved);
    var e3 := [Launch(second, Saved)];
    var e2 := [ReadJournal(true)] + e3;
    var e1 := [ListJournals([path])] + e2;
    events := [Launch(first, Saved)] + e1;
    JoinMidReplay(first, second, s3);
    RunCons(s3, Launch(second, Saved), [], t);
    RunCons(s2, ReadJournal(true), e3, t);
    RunCons(s1, ListJournals([path]), e2, t);
    RunCons(BOOT, Launch(first, Saved), e1, t);
  }

  /** The startup race from an empty machine: a run that joins a session which was
      started before the listing was taken is acknowledged and never called back. */
  lemma StartupRace(first: LaunchRequest, second: LaunchRequest) returns (events: seq<Event>, t: State)
    requires ValidRequest(first) && ValidRequest(second)
    requires SessionKey(first) == SessionKey(second) && first.runId != second.runId
    ensures Run(BOOT, events, t)
    ensures var a := Ack(0, 0, SessionKey(second), second, 0); a in t.acks && Stranded(t, a)
  {
    var s: State;
    events, s := ReachMidReplay(first, second);
    var s1 := NotifyNext(s);
    var s2 := Discard(s1, true);
    t := Restart(s2);
    RunSnoc(BOOT, events, s, NotifyCrashed);
    RunSnoc(BOOT, events + [NotifyCrashed], s1, DiscardJournal(true));
    RunSnoc(BOOT, events + [NotifyCrashed] + [DiscardJournal(true)], s2, Crash);
    events := events + [NotifyCrashed] + [DiscardJournal(true)] + [Crash];
    assert t.acks == [Ack(0, 0, SessionKey(first), first, 0), Ack(0, 0, SessionKey(second), second, 0)];
    assert t.disk == map[] && t.table == [];
    assert s1.log == [Callback(FromJournal, SessionKey(first), SubscriberOf(first), "crashed", Work(first.repo, first.ticketKey, ""))];
  }
}

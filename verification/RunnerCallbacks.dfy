/** What callbacks say: to whom, about which work, and with which status.  The events
    of a run so far are `past`; every claim is traced back to one of them. */
module RunnerCallbacks {
  import opened RunnerProtocol
  import opened RunnerFanOut

  // ------------------------------------------------------------- vocabulary

  function Crashes(past: seq<Event>): nat {
    if past == [] then 0 else Crashes(past[..|past| - 1]) + if past[|past| - 1].Crash? then 1 else 0
  }

  /** The event happened in the process of this epoch. */
  predicate HappenedIn(past: seq<Event>, epoch: nat, e: Event) {
    exists k :: 0 <= k < |past| && past[k] == e && Crashes(past[..k]) == epoch
  }

  /** The launch is this run's, with this address and secret. */
  predicate ReachedAt(req: LaunchRequest, sub: Subscriber) {
    req.runId == sub.runId && req.callbackUrl == sub.callbackUrl && req.callbackSecret == sub.callbackSecret
  }

  /** The launch is for this repository, ticket and mode. */
  predicate Names(req: LaunchRequest, work: Work) {
    req.repo == work.repo && req.ticketKey == work.ticketKey && req.mode == work.mode
  }

  /** Some acknowledged launch asked for calls to this address under this key. */
  ghost predicate Asked(s: State, key: string, sub: Subscriber) {
    exists k :: 0 <= k < |s.acks| && s.acks[k].key == key && ReachedAt(s.acks[k].req, sub)
  }

  predicate Opens(acks: seq<Ack>, k: nat, epoch: nat, sid: nat) {
    && k < |acks| && acks[k].epoch == epoch && acks[k].sid == sid
    && forall j :: 0 <= j < k ==> acks[j].epoch != epoch || acks[j].sid != sid
  }

  /** The first acknowledged launch that went to this session named this work. */
  ghost predicate StartedBy(s: State, epoch: nat, sid: nat, work: Work) {
    exists k: nat :: Opens(s.acks, k, epoch, sid) && Names(s.acks[k].req, work)
  }

  /** Some acknowledged launch under this key was for this repository and ticket. */
  ghost predicate AskedFor(s: State, key: string, repo: string, ticketKey: string) {
    exists k :: 0 <= k < |s.acks| && s.acks[k].key == key && s.acks[k].req.repo == repo && s.acks[k].req.ticketKey == ticketKey
  }

  /** A session's callback goes to a subscriber of its key, carries the work of the
      launch that started it and the status its Finish event reported. A replayed one goes to
      a subscriber of the journal's key, carries its repository and ticket, no mode, and
      says crashed. */
  ghost predicate Truthful(s: State, past: seq<Event>, c: Callback) {
    && Asked(s, c.key, c.sub)
    && match c.origin
       case FromSession(epoch, sid) => StartedBy(s, epoch, sid, c.work) && HappenedIn(past, epoch, Finish(sid, c.status))
       case FromJournal => c.status == "crashed" && c.work.mode == "" && AskedFor(s, c.key, c.work.repo, c.work.ticketKey)
  }

  ghost predicate FileTraced(s: State, f: File) {
    f.Journal? ==>
      && (forall j :: 0 <= j < |f.subscribers| ==> Asked(s, f.key, f.subscribers[j]))
      && AskedFor(s, f.key, f.repo, f.ticketKey)
  }

  ghost predicate SessionTraced(s: State, past: seq<Event>, i: nat)
    requires i < |s.table|
  {
    && StartedBy(s, s.epoch, i, WorkOf(s.table[i].req))
    && FileTraced(s, JournalOf(s.table[i]))
    && (s.table[i].phase.Delivering? ==> HappenedIn(past, s.epoch, Finish(i, s.table[i].phase.status)))
    && (s.table[i].cancel.Fired? ==> HappenedIn(past, s.epoch, Cancel(s.table[i].key)))
  }

  ghost predicate TableTraced(s: State, past: seq<Event>) {
    forall i :: 0 <= i < |s.table| ==> SessionTraced(s, past, i)
  }

  ghost predicate FilesTraced(s: State) {
    && (forall p :: p in s.disk ==> FileTraced(s, s.disk[p]))
    && (s.recovery.Replaying? && s.recovery.current.Notifying? ==> FileTraced(s, s.recovery.current.journal))
  }

  ghost predicate LogTraced(s: State, past: seq<Event>) {
    forall k :: 0 <= k < |s.log| ==> Truthful(s, past, s.log[k])
  }

  ghost predicate Traced(s: State, past: seq<Event>) {
    Crashes(past) == s.epoch && TableTraced(s, past) && FilesTraced(s) && LogTraced(s, past)
  }

  // ------------------------------------------------------- each step keeps it

  lemma HappenedStays(past: seq<Event>, last: Event, epoch: nat, e: Event)
    requires HappenedIn(past, epoch, e)
    ensures HappenedIn(past + [last], epoch, e)
  {
    var k :| 0 <= k < |past| && past[k] == e && Crashes(past[..k]) == epoch;
    assert (past + [last])[..k] == past[..k] && (past + [last])[k] == e;
  }

  lemma {:induction false} JustHappened(past: seq<Event>, e: Event)
    ensures HappenedIn(past + [e], Crashes(past), e)
    ensures Crashes(past + [e]) == Crashes(past) + if e.Crash? then 1 else 0
  {
    assert (past + [e])[..|past|] == past && (past + [e])[|past|] == e;
  }

  lemma FileStays(s: State, t: State, f: File)
    requires FileTraced(s, f) && s.acks <= t.acks
    ensures FileTraced(t, f)
  {
    if f.Journal? {
      forall j | 0 <= j < |f.subscribers| ensures Asked(t, f.key, f.subscribers[j]) { assert Asked(s, f.key, f.subscribers[j]); }
    }
  }

  lemma StartedStays(s: State, t: State, epoch: nat, sid: nat, work: Work)
    requires StartedBy(s, epoch, sid, work) && s.acks <= t.acks
    ensures StartedBy(t, epoch, sid, work)
  {
    var k: nat :| Opens(s.acks, k, epoch, sid) && Names(s.acks[k].req, work);
    assert Opens(t.acks, k, epoch, sid);
  }

  lemma TruthfulStays(s: State, t: State, past: seq<Event>, e: Event, c: Callback)
    requires Truthful(s, past, c) && s.acks <= t.acks
    ensures Truthful(t, past + [e], c)
  {
    if c.origin.FromSession? {
      HappenedStays(past, e, c.origin.epoch, Finish(c.origin.sid, c.status));
      StartedStays(s, t, c.origin.epoch, c.origin.sid, c.work);
    }
  }

  lemma LogStays(s: State, t: State, past: seq<Event>, e: Event)
    requires LogTraced(s, past) && s.acks <= t.acks && t.log == s.log
    ensures LogTraced(t, past + [e])
  {
    forall k | 0 <= k < |t.log| ensures Truthful(t, past + [e], t.log[k]) { TruthfulStays(s, t, past, e, s.log[k]); }
  }

  lemma LogGrows(s: State, t: State, past: seq<Event>, e: Event, c: Callback)
    requires LogTraced(s, past) && s.acks == t.acks && t.log == s.log + [c] && Truthful(s, past, c)
    ensures LogTraced(t, past + [e])
  {
    forall k | 0 <= k < |t.log| ensures Truthful(t, past + [e], t.log[k]) { TruthfulStays(s, t, past, e, t.log[k]); }
  }

  /** The session is as it was, but perhaps for its progress. */
  ghost predicate Follows(s: State, t: State, e: Event, i: nat)
    requires i < |s.table| && i < |t.table|
  {
    var a, b := s.table[i], t.table[i];
    && b.req == a.req && JournalOf(b) == JournalOf(a)
    && (b.phase.Delivering? ==> (a.phase.Delivering? && b.phase.status == a.phase.status) || e == Finish(i, b.phase.status))
    && (b.cancel.Fired? ==> a.cancel.Fired? || e == Cancel(b.key))
  }

  lemma {:induction false} SessionStays(s: State, t: State, past: seq<Event>, e: Event, i: nat)
    requires i < |s.table| && i < |t.table| && SessionTraced(s, past, i) && Follows(s, t, e, i)
    requires s.acks <= t.acks && t.epoch == s.epoch && Crashes(past) == s.epoch
    ensures SessionTraced(t, past + [e], i)
  {
    FileStays(s, t, JournalOf(s.table[i]));
    StartedStays(s, t, s.epoch, i, WorkOf(s.table[i].req));
    JustHappened(past, e);
    if t.table[i].phase.Delivering? && s.table[i].phase.Delivering? && t.table[i].phase.status == s.table[i].phase.status {
      HappenedStays(past, e, s.epoch, Finish(i, s.table[i].phase.status));
    }
    if s.table[i].cancel.Fired? { HappenedStays(past, e, s.epoch, Cancel(s.table[i].key)); }
  }

  lemma {:induction false} TableStays(s: State, t: State, past: seq<Event>, e: Event)
    requires TableTraced(s, past) && Crashes(past) == s.epoch
    requires |t.table| == |s.table| && s.acks == t.acks && t.epoch == s.epoch
    requires forall i :: 0 <= i < |s.table| ==> Follows(s, t, e, i)
    ensures TableTraced(t, past + [e])
  {
    forall i | 0 <= i < |t.table| ensures SessionTraced(t, past + [e], i) {
      assert SessionTraced(s, past, i);
      SessionStays(s, t, past, e, i);
    }
  }

  lemma FilesStay(s: State, t: State)
    requires FilesTraced(s) && s.acks <= t.acks && t.recovery == s.recovery
    requires forall p :: p in t.disk ==> (p in s.disk && t.disk[p] == s.disk[p]) || FileTraced(t, t.disk[p])
    ensures FilesTraced(t)
  {
    forall p | p in t.disk ensures FileTraced(t, t.disk[p]) {
      if p in s.disk && t.disk[p] == s.disk[p] { FileStays(s, t, s.disk[p]); }
    }
    if s.recovery.Replaying? && s.recovery.current.Notifying? { FileStays(s, t, s.recovery.current.journal); }
  }

  lemma JoinedFile(s: State, req: LaunchRequest, write: WriteOutcome)
    requires MapOk(s) && Live(s, SessionKey(req)) && FileTraced(s, JournalOf(s.table[s.sessions[SessionKey(req)]]))
    ensures var t := Join(s, req, write); FileTraced(t, JournalOf(t.table[s.sessions[SessionKey(req)]]))
  {
    var t, sid := Join(s, req, write), s.sessions[SessionKey(req)];
    var a := t.acks[|s.acks|];
    assert a.key == SessionKey(req) && SubscriberOf(a.req) == SubscriberOf(req);
    FileStays(s, t, JournalOf(s.table[sid]));
    forall j | 0 <= j < |t.table[sid].subscribers| ensures Asked(t, t.table[sid].key, t.table[sid].subscribers[j]) {
      if j < |s.table[sid].subscribers| { assert Asked(t, s.table[sid].key, s.table[sid].subscribers[j]); }
    }
  }

  lemma JoinedSession(s: State, past: seq<Event>, req: LaunchRequest, write: WriteOutcome)
    requires MapOk(s) && Live(s, SessionKey(req))
    requires var sid := s.sessions[SessionKey(req)]; SessionTraced(s, past, sid) && SessionOk(s.table[sid])
    ensures SessionTraced(Join(s, req, write), past + [Launch(req, write)], s.sessions[SessionKey(req)])
  {
    var t, sid := Join(s, req, write), s.sessions[SessionKey(req)];
    JoinedFile(s, req, write);
    StartedStays(s, t, s.epoch, sid, WorkOf(s.table[sid].req));
    if s.table[sid].cancel.Fired? { HappenedStays(past, Launch(req, write), s.epoch, Cancel(s.table[sid].key)); }
  }

  lemma {:induction false} JoinTable(s: State, past: seq<Event>, req: LaunchRequest, write: WriteOutcome)
    requires MapOk(s) && SessionsOk(s) && Live(s, SessionKey(req)) && TableTraced(s, past) && Crashes(past) == s.epoch
    ensures TableTraced(Join(s, req, write), past + [Launch(req, write)])
  {
    var t, sid := Join(s, req, write), s.sessions[SessionKey(req)];
    assert SessionOk(s.table[sid]) && SessionTraced(s, past, sid);
    JoinedSession(s, past, req, write);
    forall i | 0 <= i < |t.table| ensures SessionTraced(t, past + [Launch(req, write)], i) {
      assert SessionTraced(s, past, i);
      if i != sid { SessionStays(s, t, past, Launch(req, write), i); }
    }
  }

  lemma JoinTraced(s: State, past: seq<Event>, req: LaunchRequest, write: WriteOutcome)
    requires MapOk(s) && SessionsOk(s) && Traced(s, past) && Live(s, SessionKey(req))
    ensures Traced(Join(s, req, write), past + [Launch(req, write)])
  {
    var t, sid := Join(s, req, write), s.sessions[SessionKey(req)];
    JustHappened(past, Launch(req, write));
    JoinTable(s, past, req, write);
    assert SessionTraced(s, past, sid);
    JoinedFile(s, req, write);
    FilesStay(s, t);
    LogStays(s, t, past, Launch(req, write));
  }

  lemma StartedSession(s: State, past: seq<Event>, req: LaunchRequest, write: WriteOutcome)
    requires AcksOk(s)
    ensures SessionTraced(Start(s, req, write), past + [Launch(req, write)], |s.table|)
  {
    var t := Start(s, req, write);
    var a := t.acks[|s.acks|];
    assert a.epoch == s.epoch && a.sid == |s.table| && a.req == req && a.key == SessionKey(req);
    forall j | 0 <= j < |s.acks| ensures t.acks[j].epoch != s.epoch || t.acks[j].sid != |s.table| { assert AckOk(s, s.acks[j]); }
    assert Opens(t.acks, |s.acks|, s.epoch, |s.table|);
  }

  lemma StartTraced(s: State, past: seq<Event>, req: LaunchRequest, write: WriteOutcome)
    requires AcksOk(s) && Traced(s, past)
    ensures Traced(Start(s, req, write), past + [Launch(req, write)])
  {
    var t := Start(s, req, write);
    JustHappened(past, Launch(req, write));
    StartedSession(s, past, req, write);
    forall i | 0 <= i < |t.table| ensures SessionTraced(t, past + [Launch(req, write)], i) {
      if i < |s.table| {
        assert SessionTraced(s, past, i);
        SessionStays(s, t, past, Launch(req, write), i);
      }
    }
    FilesStay(s, t);
    LogStays(s, t, past, Launch(req, write));
  }

  lemma {:induction false} QuietTable(s: State, past: seq<Event>, e: Event)
    requires WellFormed(s) && Enabled(s, e) && TableTraced(s, past) && Crashes(past) == s.epoch
    requires e.SetCancel? || e.Cancel? || e.Finish? || e.RemoveJournal?
    requires MapOk(s)
    ensures TableTraced(Apply(s, e), past + [e])
  {
    var t := Apply(s, e);
    assert forall i :: 0 <= i < |s.table| ==> Follows(s, t, e, i);
    TableStays(s, t, past, e);
  }

  lemma QuietFiles(s: State, e: Event)
    requires WellFormed(s) && Enabled(s, e) && FilesTraced(s)
    requires e.SetCancel? || e.Cancel? || e.Finish? || e.RemoveJournal?
    ensures FilesTraced(Apply(s, e))
  {
    FilesStay(s, Apply(s, e));
  }

  /** Steps of a session's goroutine and cancels, which call nobody. */
  lemma QuietStepTraced(s: State, past: seq<Event>, e: Event)
    requires MapOk(s) && Traced(s, past) && Enabled(s, e)
    requires e.SetCancel? || e.Cancel? || e.Finish? || e.RemoveJournal?
    ensures Traced(Apply(s, e), past + [e])
  {
    var t := Apply(s, e);
    assert t.epoch == s.epoch && t.acks == s.acks && t.log == s.log;
    JustHappened(past, e);
    QuietTable(s, past, e);
    QuietFiles(s, e);
    LogStays(s, t, past, e);
  }

  lemma DeliveredTruth(s: State, past: seq<Event>, sid: nat)
    requires SessionsOk(s) && TableTraced(s, past) && WellFormed(s) && Enabled(s, Deliver(sid))
    ensures |DeliverNext(s, sid).log| == |s.log| + 1 && Truthful(s, past, DeliverNext(s, sid).log[|s.log|])
  {
    var sess := s.table[sid];
    assert SessionOk(sess) && SessionTraced(s, past, sid);
    assert Asked(s, sess.key, sess.subscribers[sess.phase.next]);
  }

  lemma DeliverTraced(s: State, past: seq<Event>, sid: nat)
    requires SessionsOk(s) && Traced(s, past) && WellFormed(s) && Enabled(s, Deliver(sid))
    ensures Traced(DeliverNext(s, sid), past + [Deliver(sid)])
  {
    var t := DeliverNext(s, sid);
    JustHappened(past, Deliver(sid));
    assert forall i :: 0 <= i < |s.table| ==> Follows(s, t, Deliver(sid), i);
    TableStays(s, t, past, Deliver(sid));
    FilesStay(s, t);
    DeliveredTruth(s, past, sid);
    LogGrows(s, t, past, Deliver(sid), t.log[|s.log|]);
  }

  lemma NotifyTraced(s: State, past: seq<Event>)
    requires WellFormed(s) && Traced(s, past) && Enabled(s, NotifyCrashed)
    ensures Traced(NotifyNext(s), past + [NotifyCrashed])
  {
    var t, journal := NotifyNext(s), s.recovery.current.journal;
    JustHappened(past, NotifyCrashed);
    TableStays(s, t, past, NotifyCrashed);
    assert Asked(s, journal.key, journal.subscribers[s.recovery.current.next]);
    LogGrows(s, t, past, NotifyCrashed, t.log[|s.log|]);
    assert FilesTraced(t) by {
      forall p | p in t.disk ensures FileTraced(t, t.disk[p]) { FileStays(s, t, s.disk[p]); }
      FileStays(s, t, journal);
    }
  }

  lemma RecoveryTraced(s: State, past: seq<Event>, e: Event)
    requires WellFormed(s) && Traced(s, past) && Enabled(s, e)
    requires e.ListJournals? || e.ReadJournal? || e.DiscardJournal?
    ensures Traced(Apply(s, e), past + [e])
  {
    var t := Apply(s, e);
    JustHappened(past, e);
    TableStays(s, t, past, e);
    LogStays(s, t, past, e);
    forall p | p in t.disk ensures FileTraced(t, t.disk[p]) { FileStays(s, t, s.disk[p]); }
  }

  lemma CrashTraced(s: State, past: seq<Event>)
    requires Traced(s, past)
    ensures Traced(Restart(s), past + [Crash])
  {
    JustHappened(past, Crash);
    LogStays(s, Restart(s), past, Crash);
    forall p | p in s.disk ensures FileTraced(Restart(s), s.disk[p]) { FileStays(s, Restart(s), s.disk[p]); }
  }

  lemma StepKeepsTraced(s: State, past: seq<Event>, e: Event)
    requires Consistent(s) && Traced(s, past) && Enabled(s, e)
    ensures Traced(Apply(s, e), past + [e])
  {
    match e
    case Launch(req, write) => if Live(s, SessionKey(req)) { JoinTraced(s, past, req, write); } else { StartTraced(s, past, req, write); }
    case Deliver(sid) => DeliverTraced(s, past, sid);
    case Crash => CrashTraced(s, past);
    case SetCancel(_) => QuietStepTraced(s, past, e);
    case Cancel(_) => QuietStepTraced(s, past, e);
    case Finish(_, _) => QuietStepTraced(s, past, e);
    case RemoveJournal(_, _) => QuietStepTraced(s, past, e);
    case ListJournals(_) => RecoveryTraced(s, past, e);
    case ReadJournal(_) => RecoveryTraced(s, past, e);
    case NotifyCrashed => NotifyTraced(s, past);
    case DiscardJournal(_) => RecoveryTraced(s, past, e);
  }

  lemma {:induction false} RunKeepsTraced(s: State, past: seq<Event>, events: seq<Event>, t: State)
    requires Consistent(s) && Traced(s, past) && Run(s, events, t)
    ensures Traced(t, past + events)
    decreases |events|
  {
    if events == [] {
      assert past + events == past;
    } else {
      StepKeepsTraced(s, past, events[0]);
      StepKeepsConsistent(s, events[0]);
      RunKeepsTraced(Apply(s, events[0]), past + [events[0]], events[1..], t);
      assert past + [events[0]] + events[1..] == past + events;
    }
  }

  // ------------------------------------------------------------ main results

  /** In every run, each callback goes to the address of a launch that was acknowledged
      under its key.  A session's names the work of the launch that started it, with the
      status it finished with in that process; one that was replayed from a journal says
      crashed and has lost the mode. */
  lemma {:induction false} CallbacksTellTheTruth(s: State, events: seq<Event>, t: State, k: nat)
    requires Init(s) && Run(s, events, t) && k < |t.log|
    ensures Asked(t, t.log[k].key, t.log[k].sub)
    ensures t.log[k].origin == FromJournal ==>
              && t.log[k].status == "crashed" && t.log[k].work.mode == ""
              && AskedFor(t, t.log[k].key, t.log[k].work.repo, t.log[k].work.ticketKey)
    ensures forall epoch: nat, sid: nat :: t.log[k].origin == FromSession(epoch, sid) ==>
              StartedBy(t, epoch, sid, t.log[k].work) && HappenedIn(events, epoch, Finish(sid, t.log[k].status))
  {
    RunKeepsTraced(s, [], events, t);
    assert [] + events == events;
    assert Truthful(t, events, t.log[k]);
  }

  /** An answered cancel fires the live session's function and touches nothing else. */
  lemma CancelReachesTheLiveSession(s: State, key: string)
    requires Consistent(s)
    ensures var t := Apply(s, Cancel(key));
            && t == s.(table := t.table) && |t.table| == |s.table|
            && (forall i :: 0 <= i < |s.table| ==>
                  var hit := s.table[i].key == key && !s.table[i].done && s.table[i].cancel != Unset;
                  t.table[i] == if hit then s.table[i].(cancel := Fired) else s.table[i])
  {
    forall i | 0 <= i < |s.table| && s.table[i].key == key && !s.table[i].done ensures Live(s, key) && s.sessions[key] == i {
      assert Registered(s, i);
    }
  }

  /** In every run, no session is cancelled that nobody cancelled by its key. */
  lemma {:induction false} OnlyCancelsCancel(s: State, events: seq<Event>, t: State, i: nat)
    requires Init(s) && Run(s, events, t) && i < |t.table| && t.table[i].cancel == Fired
    ensures HappenedIn(events, t.epoch, Cancel(t.table[i].key))
  {
    RunKeepsTraced(s, [], events, t);
    assert [] + events == events;
    assert SessionTraced(t, events, i);
  }
}

/** What the runner keeps in every interleaving, whatever writes fail and
    whenever the process dies: one live session per key, and a fan-out that
    reaches each subscriber of a session exactly once. */
module RunnerFanOut {
  import opened RunnerProtocol

  // ------------------------------------------------------------- vocabulary

  predicate DistinctRuns(subs: seq<Subscriber>) {
    forall i, j :: 0 <= i < j < |subs| ==> subs[i].runId != subs[j].runId
  }

  /** The callbacks session `sid` of process `epoch` completed, in order. */
  function Deliveries(log: seq<Callback>, epoch: nat, sid: nat): seq<Subscriber> {
    if log == [] then []
    else
      var last := log[|log| - 1];
      Deliveries(log[..|log| - 1], epoch, sid) +
      if last.origin == FromSession(epoch, sid) then [last.sub] else []
  }

  /** The part of a session's subscribers its goroutine has called back. */
  function Served(sess: Session): seq<Subscriber> {
    match sess.phase
    case Working => []
    case Delivering(snapshot, next, _) => if next <= |snapshot| then snapshot[..next] else snapshot
    case Exited => sess.subscribers
  }

  predicate SessionOk(sess: Session) {
    && sess.key == SessionKey(sess.req)
    && sess.subscribers != [] && sess.subscribers[0] == SubscriberOf(sess.req)
    && DistinctRuns(sess.subscribers)
    && (sess.done <==> !sess.phase.Working?)
    && (sess.phase.Delivering? ==> sess.phase.snapshot == sess.subscribers && sess.phase.next <= |sess.subscribers|)
  }

  /** A session has called nobody back before the launches that went to it. */
  predicate AckOk(s: State, a: Ack) {
    && a.key == SessionKey(a.req)
    && a.epoch <= s.epoch && a.at <= |s.log|
    && (a.epoch == s.epoch ==>
          && a.sid < |s.table| && s.table[a.sid].key == a.key && HasRun(s.table[a.sid].subscribers, a.req.runId)
          && Silent(s.log, a.at, s.epoch, a.sid))
  }

  /** No callback of the session among the first n. */
  predicate Silent(log: seq<Callback>, n: nat, epoch: nat, sid: nat) {
    forall j :: 0 <= j < n && j < |log| ==> log[j].origin != FromSession(epoch, sid)
  }

  predicate LogOk(s: State, c: Callback) {
    c.origin.FromSession? ==>
      && c.origin.epoch <= s.epoch
      && (c.origin.epoch == s.epoch ==> c.origin.sid < |s.table| && c.key == s.table[c.origin.sid].key)
  }

  /** Some acknowledged launch of this process put `sub` into session `sid`. */
  ghost predicate Requested(s: State, sid: nat, sub: Subscriber) {
    exists k :: 0 <= k < |s.acks| && s.acks[k].epoch == s.epoch && s.acks[k].sid == sid && SubscriberOf(s.acks[k].req) == sub
  }

  /** A session that accepts joiners is the one its key leads to. */
  predicate Registered(s: State, i: nat)
    requires i < |s.table|
  {
    !s.table[i].done ==> s.table[i].key in s.sessions && s.sessions[s.table[i].key] == i
  }

  ghost predicate MapOk(s: State) {
    && WellFormed(s)
    && (forall k :: k in s.sessions ==> s.table[s.sessions[k]].key == k)
    && (forall i :: 0 <= i < |s.table| ==> Registered(s, i))
  }

  ghost predicate SessionsOk(s: State) {
    forall i :: 0 <= i < |s.table| ==> SessionOk(s.table[i])
  }

  ghost predicate AcksOk(s: State) {
    forall k :: 0 <= k < |s.acks| ==> AckOk(s, s.acks[k])
  }

  ghost predicate CallbacksOk(s: State) {
    forall k :: 0 <= k < |s.log| ==> LogOk(s, s.log[k])
  }

  ghost predicate ServedOk(s: State) {
    forall i :: 0 <= i < |s.table| ==> Deliveries(s.log, s.epoch, i) == Served(s.table[i])
  }

  ghost predicate RequestedOk(s: State) {
    forall i, j :: 0 <= i < |s.table| && 0 <= j < |s.table[i].subscribers| ==> Requested(s, i, s.table[i].subscribers[j])
  }

  ghost predicate Consistent(s: State) {
    MapOk(s) && SessionsOk(s) && AcksOk(s) && CallbacksOk(s) && ServedOk(s) && RequestedOk(s)
  }

  // ------------------------------------------------------- each step keeps it

  lemma {:induction false} DeliveriesAppend(log: seq<Callback>, c: Callback, epoch: nat, sid: nat)
    ensures Deliveries(log + [c], epoch, sid)
         == Deliveries(log, epoch, sid) + if c.origin == FromSession(epoch, sid) then [c.sub] else []
  {
  }

  lemma {:induction false} NoDeliveries(log: seq<Callback>, epoch: nat, sid: nat)
    requires forall k :: 0 <= k < |log| ==> log[k].origin != FromSession(epoch, sid)
    ensures Deliveries(log, epoch, sid) == []
  {
    if log != [] { NoDeliveries(log[..|log| - 1], epoch, sid); }
  }

  lemma {:induction false} NoneDelivered(log: seq<Callback>, epoch: nat, sid: nat)
    requires Deliveries(log, epoch, sid) == []
    ensures Silent(log, |log|, epoch, sid)
  {
    if log != [] { NoneDelivered(log[..|log| - 1], epoch, sid); }
  }

  lemma RequestedMonotone(s: State, t: State, sid: nat, sub: Subscriber)
    requires Requested(s, sid, sub) && s.acks <= t.acks && s.epoch == t.epoch
    ensures Requested(t, sid, sub)
  {
  }

  lemma HasRunAppend(subs: seq<Subscriber>, sub: Subscriber)
    ensures forall r :: HasRun(subs + [sub], r) <==> HasRun(subs, r) || r == sub.runId
  {
    var more := subs + [sub];
    forall r ensures HasRun(more, r) <==> HasRun(subs, r) || r == sub.runId {
      if HasRun(subs, r) { var i :| 0 <= i < |subs| && subs[i].runId == r; assert more[i].runId == r; }
      if r == sub.runId { assert more[|subs|].runId == r; }
    }
  }

  /** Between the two states no session appeared, was renamed or lost a
      subscriber, and none went from done back to live. */
  ghost predicate Continues(s: State, t: State) {
    && t.epoch == s.epoch && t.sessions == s.sessions && |t.table| == |s.table|
    && s.acks <= t.acks && s.log <= t.log
    && (forall i :: 0 <= i < |s.table| ==>
          && t.table[i].key == s.table[i].key
          && s.table[i].subscribers <= t.table[i].subscribers
          && (s.table[i].done ==> t.table[i].done))
  }

  lemma ContinuesKeepsMap(s: State, t: State)
    requires MapOk(s) && Continues(s, t)
    ensures MapOk(t)
  {
    forall i | 0 <= i < |t.table| ensures Registered(t, i) { assert Registered(s, i); }
  }

  lemma ContinuesKeepsAck(s: State, t: State, a: Ack)
    requires AckOk(s, a) && Continues(s, t)
    ensures AckOk(t, a)
  {
  }

  lemma ContinuesKeepsAcks(s: State, t: State)
    requires AcksOk(s) && Continues(s, t) && s.acks == t.acks
    ensures AcksOk(t)
  {
  }

  lemma ContinuesKeepsCallbacks(s: State, t: State)
    requires CallbacksOk(s) && Continues(s, t) && s.log == t.log
    ensures CallbacksOk(t)
  {
  }

  lemma ContinuesKeepsRequested(s: State, t: State)
    requires RequestedOk(s) && Continues(s, t)
    requires forall i :: 0 <= i < |s.table| ==> t.table[i].subscribers == s.table[i].subscribers
    ensures RequestedOk(t)
  {
  }

  lemma JoinRequested(s: State, req: LaunchRequest, write: WriteOutcome)
    requires WellFormed(s) && RequestedOk(s) && Live(s, SessionKey(req))
    ensures RequestedOk(Join(s, req, write))
  {
    var t := Join(s, req, write);
    var sid := s.sessions[SessionKey(req)];
    assert t.acks[|s.acks|] == Ack(s.epoch, sid, SessionKey(req), req, |s.log|);
    forall i, j | 0 <= i < |t.table| && 0 <= j < |t.table[i].subscribers|
      ensures Requested(t, i, t.table[i].subscribers[j])
    {
      if j < |s.table[i].subscribers| {
        RequestedMonotone(s, t, i, s.table[i].subscribers[j]);
      }
    }
  }

  lemma JoinSessions(s: State, req: LaunchRequest, write: WriteOutcome)
    requires WellFormed(s) && SessionsOk(s) && ServedOk(s) && Live(s, SessionKey(req))
    ensures SessionsOk(Join(s, req, write)) && ServedOk(Join(s, req, write))
  {
  }

  lemma JoinContinues(s: State, req: LaunchRequest, write: WriteOutcome)
    requires WellFormed(s) && Live(s, SessionKey(req))
    ensures Continues(s, Join(s, req, write))
    ensures HasRun(Join(s, req, write).table[s.sessions[SessionKey(req)]].subscribers, req.runId)
  {
    HasRunAppend(s.table[s.sessions[SessionKey(req)]].subscribers, SubscriberOf(req));
  }

  lemma JoinAcks(s: State, req: LaunchRequest, write: WriteOutcome)
    requires MapOk(s) && AcksOk(s) && SessionsOk(s) && ServedOk(s) && Live(s, SessionKey(req))
    ensures AcksOk(Join(s, req, write))
  {
    var t := Join(s, req, write);
    JoinContinues(s, req, write);
    var sid := s.sessions[SessionKey(req)];
    assert SessionOk(s.table[sid]);
    NoneDelivered(s.log, s.epoch, sid);
    forall k | 0 <= k < |t.acks| ensures AckOk(t, t.acks[k]) {
      if k < |s.acks| { ContinuesKeepsAck(s, t, s.acks[k]); }
    }
  }

  lemma JoinKeeps(s: State, req: LaunchRequest, write: WriteOutcome)
    requires Consistent(s) && Live(s, SessionKey(req))
    ensures Consistent(Join(s, req, write))
  {
    var t := Join(s, req, write);
    JoinContinues(s, req, write);
    JoinSessions(s, req, write);
    JoinAcks(s, req, write);
    JoinRequested(s, req, write);
    ContinuesKeepsMap(s, t);
    ContinuesKeepsCallbacks(s, t);
  }

  lemma StartServed(s: State, req: LaunchRequest, write: WriteOutcome)
    requires ServedOk(s) && CallbacksOk(s)
    ensures ServedOk(Start(s, req, write))
  {
    forall k | 0 <= k < |s.log| ensures s.log[k].origin != FromSession(s.epoch, |s.table|) {
      assert LogOk(s, s.log[k]);
    }
    NoDeliveries(s.log, s.epoch, |s.table|);
  }

  lemma StartRequested(s: State, req: LaunchRequest, write: WriteOutcome)
    requires RequestedOk(s)
    ensures RequestedOk(Start(s, req, write))
  {
    var t := Start(s, req, write);
    assert t.acks[|s.acks|] == Ack(s.epoch, |s.table|, SessionKey(req), req, |s.log|);
    forall i, j | 0 <= i < |t.table| && 0 <= j < |t.table[i].subscribers|
      ensures Requested(t, i, t.table[i].subscribers[j])
    {
      if i < |s.table| { RequestedMonotone(s, t, i, s.table[i].subscribers[j]); }
    }
  }

  lemma StartBook(s: State, req: LaunchRequest, write: WriteOutcome)
    requires MapOk(s) && AcksOk(s) && CallbacksOk(s) && !Live(s, SessionKey(req))
    ensures MapOk(Start(s, req, write)) && AcksOk(Start(s, req, write))
  {
    var t := Start(s, req, write);
    assert t.table[|s.table|].subscribers[0].runId == req.runId;
    assert Silent(s.log, |s.log|, s.epoch, |s.table|) by {
      forall j | 0 <= j < |s.log| ensures s.log[j].origin != FromSession(s.epoch, |s.table|) { assert LogOk(s, s.log[j]); }
    }
    forall i | 0 <= i < |t.table| ensures Registered(t, i) {
      if i < |s.table| { assert Registered(s, i); }
    }
    forall k | 0 <= k < |t.acks| ensures AckOk(t, t.acks[k]) {
      if k < |s.acks| { assert AckOk(s, s.acks[k]); }
    }
  }

  lemma StartSessions(s: State, req: LaunchRequest, write: WriteOutcome)
    requires SessionsOk(s) && CallbacksOk(s)
    ensures SessionsOk(Start(s, req, write)) && CallbacksOk(Start(s, req, write))
  {
  }

  lemma StartKeeps(s: State, req: LaunchRequest, write: WriteOutcome)
    requires Consistent(s) && !Live(s, SessionKey(req))
    ensures Consistent(Start(s, req, write))
  {
    StartBook(s, req, write);
    StartSessions(s, req, write);
    StartServed(s, req, write);
    StartRequested(s, req, write);
  }

  /** One session moves on, with the same subscribers and no new callback. */
  lemma PatchKeeps(s: State, sid: nat, sess: Session)
    requires Consistent(s) && sid < |s.table|
    requires SessionOk(sess) && Served(sess) == Served(s.table[sid])
    requires sess.key == s.table[sid].key && sess.subscribers == s.table[sid].subscribers
    requires s.table[sid].done ==> sess.done
    ensures Consistent(Patch(s, sid, sess))
  {
    var t := Patch(s, sid, sess);
    ContinuesKeepsMap(s, t);
    ContinuesKeepsAcks(s, t);
    ContinuesKeepsCallbacks(s, t);
    ContinuesKeepsRequested(s, t);
  }

  lemma CancelKeeps(s: State, key: string)
    requires Consistent(s)
    ensures Consistent(CancelSession(s, key))
  {
    if Live(s, key) && !s.table[s.sessions[key]].cancel.Unset? {
      var sid := s.sessions[key];
      assert SessionOk(s.table[sid]);
      PatchKeeps(s, sid, s.table[sid].(cancel := Fired));
    }
  }

  lemma SetCancelKeeps(s: State, sid: nat)
    requires Consistent(s) && sid < |s.table|
    ensures Consistent(Patch(s, sid, s.table[sid].(cancel := Armed)))
  {
    assert SessionOk(s.table[sid]);
    PatchKeeps(s, sid, s.table[sid].(cancel := Armed));
  }

  lemma FinishKeeps(s: State, sid: nat, status: string)
    requires Consistent(s) && sid < |s.table| && s.table[sid].phase.Working?
    ensures Consistent(FinishSession(s, sid, status))
  {
    assert SessionOk(s.table[sid]);
    PatchKeeps(s, sid, s.table[sid].(done := true, phase := Delivering(s.table[sid].subscribers, 0, status)));
  }

  /** Only files and the state of the recovery differ. */
  lemma FilesDoNotMatter(s: State, t: State)
    requires Consistent(s) && t == s.(recovery := t.recovery, disk := t.disk)
    ensures Consistent(t)
  {
    ContinuesKeepsMap(s, t);
    ContinuesKeepsAcks(s, t);
    ContinuesKeepsCallbacks(s, t);
    ContinuesKeepsRequested(s, t);
  }

  lemma RemoveKeeps(s: State, sid: nat, removed: bool)
    requires Consistent(s) && sid < |s.table| && s.table[sid].phase.Delivering?
    requires s.table[sid].phase.next == |s.table[sid].phase.snapshot|
    ensures Consistent(Remove(s, sid, removed))
  {
    var sess := s.table[sid];
    assert SessionOk(sess);
    assert sess.phase.snapshot[..sess.phase.next] == sess.subscribers;
    PatchKeeps(s, sid, sess.(phase := Exited));
    FilesDoNotMatter(Patch(s, sid, sess.(phase := Exited)), Remove(s, sid, removed));
  }

  lemma LongerLogKeepsCallbacks(s: State, t: State, c: Callback)
    requires CallbacksOk(s) && Continues(s, t) && t.log == s.log + [c] && LogOk(t, c)
    ensures CallbacksOk(t)
  {
  }

  lemma DeliverAdvances(sess: Session)
    requires SessionOk(sess) && sess.phase.Delivering? && sess.phase.next < |sess.phase.snapshot|
    ensures var more := sess.(phase := sess.phase.(next := sess.phase.next + 1));
            SessionOk(more) && Served(more) == Served(sess) + [sess.phase.snapshot[sess.phase.next]]
  {
  }

  lemma DeliverServed(s: State, sid: nat)
    requires SessionsOk(s) && ServedOk(s)
    requires sid < |s.table| && s.table[sid].phase.Delivering? && s.table[sid].phase.next < |s.table[sid].phase.snapshot|
    ensures SessionsOk(DeliverNext(s, sid)) && ServedOk(DeliverNext(s, sid))
  {
    var t := DeliverNext(s, sid);
    var sess := s.table[sid];
    var c := Callback(FromSession(s.epoch, sid), sess.key, sess.phase.snapshot[sess.phase.next], sess.phase.status, WorkOf(sess.req));
    DeliverAdvances(sess);
    forall i | 0 <= i < |t.table| ensures Deliveries(t.log, t.epoch, i) == Served(t.table[i]) {
      DeliveriesAppend(s.log, c, s.epoch, i);
      if i != sid { assert t.table[i] == s.table[i]; }
    }
  }

  lemma DeliverKeeps(s: State, sid: nat)
    requires Consistent(s)
    requires sid < |s.table| && s.table[sid].phase.Delivering? && s.table[sid].phase.next < |s.table[sid].phase.snapshot|
    ensures Consistent(DeliverNext(s, sid))
  {
    var t := DeliverNext(s, sid);
    DeliverServed(s, sid);
    ContinuesKeepsMap(s, t);
    ContinuesKeepsAcks(s, t);
    ContinuesKeepsRequested(s, t);
    LongerLogKeepsCallbacks(s, t, t.log[|s.log|]);
  }

  lemma NotifyKeeps(s: State)
    requires Consistent(s)
    requires s.recovery.Replaying? && s.recovery.current.Notifying? && s.recovery.current.journal.Journal?
    requires s.recovery.current.next < |s.recovery.current.journal.subscribers|
    ensures Consistent(NotifyNext(s))
  {
    var t := NotifyNext(s);
    var c := t.log[|s.log|];
    forall i | 0 <= i < |t.table| ensures Deliveries(t.log, t.epoch, i) == Served(t.table[i]) {
      DeliveriesAppend(s.log, c, s.epoch, i);
    }
    ContinuesKeepsMap(s, t);
    ContinuesKeepsAcks(s, t);
    ContinuesKeepsRequested(s, t);
    LongerLogKeepsCallbacks(s, t, c);
  }

  lemma RestartKeeps(s: State)
    requires Consistent(s)
    ensures Consistent(Restart(s))
  {
  }

  lemma StepKeepsConsistent(s: State, e: Event)
    requires Consistent(s) && Enabled(s, e)
    ensures Consistent(Apply(s, e))
  {
    match e
    case Launch(req, write) => if Live(s, SessionKey(req)) { JoinKeeps(s, req, write); } else { StartKeeps(s, req, write); }
    case SetCancel(sid) => SetCancelKeeps(s, sid);
    case Cancel(key) => CancelKeeps(s, key);
    case Finish(sid, status) => FinishKeeps(s, sid, status);
    case Deliver(sid) => DeliverKeeps(s, sid);
    case RemoveJournal(sid, removed) => RemoveKeeps(s, sid, removed);
    case ListJournals(_) => FilesDoNotMatter(s, Apply(s, e));
    case ReadJournal(_) => FilesDoNotMatter(s, Apply(s, e));
    case NotifyCrashed => NotifyKeeps(s);
    case DiscardJournal(_) => FilesDoNotMatter(s, Apply(s, e));
    case Crash => RestartKeeps(s);
  }

  lemma {:induction false} RunKeepsConsistent(s: State, events: seq<Event>, t: State)
    requires Consistent(s) && Run(s, events, t)
    ensures Consistent(t)
    decreases |events|
  {
    if events != [] {
      StepKeepsConsistent(s, events[0]);
      RunKeepsConsistent(Apply(s, events[0]), events[1..], t);
    }
  }

  // ------------------------------------------------------------ main results

  /** No two sessions of one key accept joiners at the same time. */
  lemma {:induction false} OneLiveSession(s: State, events: seq<Event>, t: State, i: nat, j: nat)
    requires Init(s) && Run(s, events, t)
    requires i < |t.table| && j < |t.table| && t.table[i].key == t.table[j].key
    requires !t.table[i].done && !t.table[j].done
    ensures i == j
  {
    RunKeepsConsistent(s, events, t);
    assert Registered(t, i) && Registered(t, j);
  }

  function CountRun(subs: seq<Subscriber>, runId: string): nat {
    if subs == [] then 0
    else CountRun(subs[..|subs| - 1], runId) + if subs[|subs| - 1].runId == runId then 1 else 0
  }

  lemma {:induction false} CountOfDistinct(subs: seq<Subscriber>, runId: string)
    requires DistinctRuns(subs)
    ensures CountRun(subs, runId) == if HasRun(subs, runId) then 1 else 0
  {
    if subs != [] {
      var front, last := subs[..|subs| - 1], subs[|subs| - 1];
      assert subs == front + [last];
      CountOfDistinct(front, runId);
      HasRunAppend(front, last);
      if HasRun(front, runId) {
        var i :| 0 <= i < |front| && front[i].runId == runId;
        assert subs[i].runId == runId;
      }
    }
  }

  /** Every launch acknowledged in this process belongs to one session; once that
      session's goroutine is through, its run was called back exactly once by it,
      and the callbacks of the session are its subscribers in joining order. */
  lemma {:induction false} ExactlyOnceFanOut(s: State, events: seq<Event>, t: State, a: Ack)
    requires Init(s) && Run(s, events, t)
    requires a in t.acks && a.epoch == t.epoch
    ensures a.sid < |t.table| && t.table[a.sid].key == SessionKey(a.req)
    ensures HasRun(t.table[a.sid].subscribers, a.req.runId)
    ensures CountRun(Deliveries(t.log, t.epoch, a.sid), a.req.runId) <= 1
    ensures t.table[a.sid].phase.Exited? ==>
              && Deliveries(t.log, t.epoch, a.sid) == t.table[a.sid].subscribers
              && CountRun(Deliveries(t.log, t.epoch, a.sid), a.req.runId) == 1
  {
    RunKeepsConsistent(s, events, t);
    AckedSession(t, a);
    CountOfServed(t.table[a.sid], a.req.runId);
  }

  lemma AckedSession(s: State, a: Ack)
    requires AcksOk(s) && ServedOk(s) && SessionsOk(s) && a in s.acks && a.epoch == s.epoch
    ensures AckOk(s, a) && SessionOk(s.table[a.sid]) && a.key == SessionKey(a.req)
    ensures Deliveries(s.log, s.epoch, a.sid) == Served(s.table[a.sid])
  {
    var k :| 0 <= k < |s.acks| && s.acks[k] == a;
    assert AckOk(s, s.acks[k]);
  }

  lemma {:induction false} CountOfServed(sess: Session, runId: string)
    requires SessionOk(sess)
    ensures CountRun(Served(sess), runId) <= 1
    ensures sess.phase.Exited? && HasRun(sess.subscribers, runId) ==> CountRun(Served(sess), runId) == 1
  {
    CountOfDistinct(Served(sess), runId);
  }

  /** The run was called back under the key, after the first `at` callbacks. */
  ghost predicate CalledSince(log: seq<Callback>, at: nat, key: string, runId: string) {
    exists k :: at <= k < |log| && log[k].key == key && log[k].sub.runId == runId
  }

  lemma {:induction false} DeliveredAt(log: seq<Callback>, epoch: nat, sid: nat, runId: string) returns (k: nat)
    requires HasRun(Deliveries(log, epoch, sid), runId)
    ensures k < |log| && log[k].origin == FromSession(epoch, sid) && log[k].sub.runId == runId
  {
    var front, last := log[..|log| - 1], log[|log| - 1];
    if last.origin == FromSession(epoch, sid) && last.sub.runId == runId {
      return |log| - 1;
    }
    var all, some := Deliveries(log, epoch, sid), Deliveries(front, epoch, sid);
    var i :| 0 <= i < |all| && all[i].runId == runId;
    assert some[i].runId == runId;
    k := DeliveredAt(front, epoch, sid, runId);
  }

  /** In every run: a launch acknowledged by this process has been called back since,
      or a goroutine that is not through holds it. */
  lemma {:induction false} HeldOrCalled(s: State, events: seq<Event>, t: State, a: Ack)
    requires Init(s) && Run(s, events, t) && a in t.acks && a.epoch == t.epoch
    ensures a.sid < |t.table| && HasRun(t.table[a.sid].subscribers, a.req.runId)
    ensures t.table[a.sid].phase.Exited? ==> CalledSince(t.log, a.at, a.key, a.req.runId)
  {
    RunKeepsConsistent(s, events, t);
    AckedSession(t, a);
    if t.table[a.sid].phase.Exited? {
      var k := DeliveredAt(t.log, t.epoch, a.sid, a.req.runId);
      assert LogOk(t, t.log[k]);
      assert k >= a.at;
    }
  }

  /** Nobody is called back by a session who did not ask for it. */
  lemma {:induction false} OnlySubscribersAreCalled(s: State, events: seq<Event>, t: State, sid: nat, j: nat)
    requires Init(s) && Run(s, events, t)
    requires sid < |t.table| && j < |Deliveries(t.log, t.epoch, sid)|
    ensures Requested(t, sid, Deliveries(t.log, t.epoch, sid)[j])
  {
    RunKeepsConsistent(s, events, t);
    assert SessionOk(t.table[sid]);
    assert Deliveries(t.log, t.epoch, sid)[j] == t.table[sid].subscribers[j];
  }

  // ------------------------------------------------ which address is called

  /** An earlier launch of the same run went to the same session. */
  ghost predicate Repeated(s: State, k: nat)
    requires k < |s.acks|
  {
    exists i :: 0 <= i < k && s.acks[i].epoch == s.acks[k].epoch && s.acks[i].sid == s.acks[k].sid
                && s.acks[i].req.runId == s.acks[k].req.runId
  }

  predicate Enlisted(s: State, sid: nat, sub: Subscriber) {
    sid < |s.table| && exists j :: 0 <= j < |s.table[sid].subscribers| && s.table[sid].subscribers[j] == sub
  }

  ghost predicate FirstEnlisted(s: State) {
    forall k :: 0 <= k < |s.acks| && s.acks[k].epoch == s.epoch && !Repeated(s, k) ==> Enlisted(s, s.acks[k].sid, SubscriberOf(s.acks[k].req))
  }

  lemma EnlistedStays(s: State, t: State, sid: nat, sub: Subscriber)
    requires Enlisted(s, sid, sub) && |s.table| <= |t.table| && s.table[sid].subscribers <= t.table[sid].subscribers
    ensures Enlisted(t, sid, sub)
  {
    var j :| 0 <= j < |s.table[sid].subscribers| && s.table[sid].subscribers[j] == sub;
    assert t.table[sid].subscribers[j] == sub;
  }

  lemma FirstStays(s: State, t: State, k: nat)
    requires FirstEnlisted(s) && t.epoch == s.epoch && k < |s.acks| && s.acks <= t.acks
    requires |s.table| <= |t.table| && forall i :: 0 <= i < |s.table| ==> s.table[i].subscribers <= t.table[i].subscribers
    ensures t.acks[k].epoch == t.epoch && !Repeated(t, k) ==> Enlisted(t, t.acks[k].sid, SubscriberOf(t.acks[k].req))
  {
    assert forall i :: 0 <= i <= k ==> t.acks[i] == s.acks[i];
    if t.acks[k].epoch == t.epoch && !Repeated(t, k) {
      assert !Repeated(s, k);
      EnlistedStays(s, t, s.acks[k].sid, SubscriberOf(s.acks[k].req));
    }
  }

  lemma JoinKeepsFirst(s: State, req: LaunchRequest, write: WriteOutcome)
    requires MapOk(s) && RequestedOk(s) && FirstEnlisted(s) && Live(s, SessionKey(req))
    ensures FirstEnlisted(Join(s, req, write))
  {
    var t, sid, n := Join(s, req, write), s.sessions[SessionKey(req)], |s.acks|;
    forall k | 0 <= k < |t.acks| && t.acks[k].epoch == t.epoch && !Repeated(t, k)
      ensures Enlisted(t, t.acks[k].sid, SubscriberOf(t.acks[k].req))
    {
      if k < n { FirstStays(s, t, k); } else { NewcomerEnlisted(s, req, write); }
    }
  }

  lemma NewcomerEnlisted(s: State, req: LaunchRequest, write: WriteOutcome)
    requires MapOk(s) && RequestedOk(s) && Live(s, SessionKey(req))
    ensures var t := Join(s, req, write);
            Repeated(t, |s.acks|) || Enlisted(t, s.sessions[SessionKey(req)], SubscriberOf(req))
  {
    var t, sid := Join(s, req, write), s.sessions[SessionKey(req)];
    var subs := s.table[sid].subscribers;
    if HasRun(subs, req.runId) {
      var j :| 0 <= j < |subs| && subs[j].runId == req.runId;
      assert Requested(s, sid, subs[j]);
      var i :| 0 <= i < |s.acks| && s.acks[i].epoch == s.epoch && s.acks[i].sid == sid && SubscriberOf(s.acks[i].req) == subs[j];
      assert t.acks[i] == s.acks[i];
    } else {
      assert t.table[sid].subscribers[|subs|] == SubscriberOf(req);
    }
  }

  lemma StartKeepsFirst(s: State, req: LaunchRequest, write: WriteOutcome)
    requires FirstEnlisted(s)
    ensures FirstEnlisted(Start(s, req, write))
  {
    var t := Start(s, req, write);
    forall k | 0 <= k < |t.acks| && t.acks[k].epoch == t.epoch && !Repeated(t, k)
      ensures Enlisted(t, t.acks[k].sid, SubscriberOf(t.acks[k].req))
    {
      if k < |s.acks| { FirstStays(s, t, k); } else { assert t.table[|s.table|].subscribers[0] == SubscriberOf(req); }
    }
  }

  lemma StepKeepsFirst(s: State, e: Event)
    requires Consistent(s) && FirstEnlisted(s) && Enabled(s, e)
    ensures FirstEnlisted(Apply(s, e))
  {
    if e.Launch? {
      if Live(s, SessionKey(e.req)) { JoinKeepsFirst(s, e.req, e.write); } else { StartKeepsFirst(s, e.req, e.write); }
    } else if e.Crash? {
      RestartKeepsFirst(s);
    } else {
      NobodyJoins(s, e);
      SameSubscribersKeepFirst(s, Apply(s, e));
    }
  }

  lemma RestartKeepsFirst(s: State)
    requires AcksOk(s)
    ensures FirstEnlisted(Restart(s))
  {
    forall k | 0 <= k < |s.acks| ensures s.acks[k].epoch <= s.epoch { assert AckOk(s, s.acks[k]); }
  }

  lemma NobodyJoins(s: State, e: Event)
    requires WellFormed(s) && Enabled(s, e) && !e.Launch? && !e.Crash?
    ensures var t := Apply(s, e);
            && t.epoch == s.epoch && t.acks == s.acks && |t.table| == |s.table|
            && forall i :: 0 <= i < |s.table| ==> t.table[i].subscribers == s.table[i].subscribers
  {
  }

  lemma SameSubscribersKeepFirst(s: State, t: State)
    requires FirstEnlisted(s) && t.epoch == s.epoch && t.acks == s.acks && |t.table| == |s.table|
    requires forall i :: 0 <= i < |s.table| ==> t.table[i].subscribers == s.table[i].subscribers
    ensures FirstEnlisted(t)
  {
    forall k | 0 <= k < |t.acks| && t.acks[k].epoch == t.epoch && !Repeated(t, k)
      ensures Enlisted(t, t.acks[k].sid, SubscriberOf(t.acks[k].req))
    {
      FirstStays(s, t, k);
    }
  }

  lemma {:induction false} RunKeepsFirst(s: State, events: seq<Event>, t: State)
    requires Consistent(s) && FirstEnlisted(s) && Run(s, events, t)
    ensures Consistent(t) && FirstEnlisted(t)
    decreases |events|
  {
    if events != [] {
      StepKeepsConsistent(s, events[0]);
      StepKeepsFirst(s, events[0]);
      RunKeepsFirst(Apply(s, events[0]), events[1..], t);
    }
  }

  /** In every run a session calls a run back at the address of the first launch of it
      that joined the session, whatever addresses later launches of it gave. */
  lemma {:induction false} FirstAddressIsCalled(s: State, events: seq<Event>, t: State, k: nat, j: nat)
    requires Init(s) && Run(s, events, t)
    requires k < |t.acks| && t.acks[k].epoch == t.epoch && !Repeated(t, k)
    requires j < |Deliveries(t.log, t.epoch, t.acks[k].sid)|
    requires Deliveries(t.log, t.epoch, t.acks[k].sid)[j].runId == t.acks[k].req.runId
    ensures Deliveries(t.log, t.epoch, t.acks[k].sid)[j] == SubscriberOf(t.acks[k].req)
  {
    RunKeepsFirst(s, events, t);
    var a := t.acks[k];
    AckedSession(t, a);
    OneOfARun(t.table[a.sid], SubscriberOf(a.req), j);
  }

  lemma OneOfARun(sess: Session, sub: Subscriber, j: nat)
    requires SessionOk(sess) && j < |Served(sess)| && Served(sess)[j].runId == sub.runId
    requires exists i :: 0 <= i < |sess.subscribers| && sess.subscribers[i] == sub
    ensures Served(sess)[j] == sub
  {
    var i :| 0 <= i < |sess.subscribers| && sess.subscribers[i] == sub;
    assert Served(sess)[j] == sess.subscribers[j];
  }
}

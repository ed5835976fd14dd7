/** What the runner's journals promise across crashes: no acknowledged run is
    ever stranded.  The program does not enforce everything this needs: Careful
    names what is enough at each launch; RunnerStranding says exactly which steps
    strand a run, and RunnerQuiescence that all runs are called back in the end. */
module RunnerRecovery {
  import opened RunnerProtocol
  import opened RunnerFanOut

  // ------------------------------------------------------------- vocabulary

  /** The launch would create a session, not join one. */
  predicate Creates(s: State, req: LaunchRequest)
    requires WellFormed(s)
  {
    !Live(s, SessionKey(req))
  }

  /** Journal writes succeed; a session starts only after the startup listing
      was taken and only where no journal file is waiting under its name. */
  predicate Careful(s: State, e: Event)
    requires WellFormed(s)
  {
    e.Launch? ==>
      && e.write.Saved?
      && (Creates(s, e.req) ==> !s.recovery.NotListed? && JournalName(SessionKey(e.req)) !in s.disk)
  }

  ghost predicate CarefulRun(s: State, events: seq<Event>, t: State)
    decreases |events|
  {
    if events == [] then s == t
    else WellFormed(s) && Enabled(s, events[0]) && Careful(s, events[0]) && CarefulRun(Apply(s, events[0]), events[1..], t)
  }

  /** The run was called back after the server acknowledged this launch of it. */
  ghost predicate Since(s: State, a: Ack) { CalledSince(s.log, a.at, a.key, a.req.runId) }

  /** Every launch of the run under this key was followed by a callback. */
  ghost predicate Settled(s: State, key: string, runId: string) {
    forall k :: 0 <= k < |s.acks| && s.acks[k].key == key && s.acks[k].req.runId == runId ==> Since(s, s.acks[k])
  }

  predicate OnDisk(s: State, key: string, runId: string) {
    var p := JournalName(key);
    p in s.disk && s.disk[p].Journal? && s.disk[p].key == key && HasRun(s.disk[p].subscribers, runId)
  }

  /** The run was called back, or a restart would find it. */
  ghost predicate Accounted(s: State, a: Ack) {
    Since(s, a) || OnDisk(s, a.key, a.req.runId)
  }

  predicate Holds(s: State, i: int) {
    0 <= i < |s.table| && !s.table[i].phase.Exited?
  }

  predicate Journaled(s: State, i: nat)
    requires i < |s.table|
  {
    var p := JournalName(s.table[i].key);
    p in s.disk && s.disk[p] == JournalOf(s.table[i])
  }

  predicate FileOk(path: string, f: File) {
    f.Journal? && path == JournalName(f.key) && f.subscribers != []
  }

  predicate InReplay(s: State, path: string) {
    s.recovery.Replaying? && (path in s.recovery.todo || (s.recovery.current.Notifying? && s.recovery.current.path == path))
  }

  ghost predicate JournalsOk(s: State) {
    && (forall i :: Holds(s, i) ==> Journaled(s, i))
    && (forall i, j :: Holds(s, i) && Holds(s, j) && i != j ==> JournalName(s.table[i].key) != JournalName(s.table[j].key))
    && (forall i :: Holds(s, i) ==> !InReplay(s, JournalName(s.table[i].key)))
  }

  ghost predicate FilesOk(s: State) {
    forall p :: p in s.disk ==> FileOk(p, s.disk[p])
  }

  ghost predicate ReplayOk(s: State) {
    && (s.recovery.NotListed? ==> s.table == [])
    && (s.recovery.Replaying? ==>
          var todo, current := s.recovery.todo, s.recovery.current;
          && (forall i, j :: 0 <= i < j < |todo| ==> todo[i] != todo[j])
          && (forall p :: p in todo ==> p in s.disk)
          && (current.Notifying? ==>
                && current.path in s.disk && s.disk[current.path] == current.journal
                && current.path !in todo && current.journal.Journal?
                && current.next <= |current.journal.subscribers|
                && (forall k :: 0 <= k < current.next ==> Settled(s, current.journal.key, current.journal.subscribers[k].runId))))
  }

  ghost predicate ServedSettled(s: State, i: nat)
    requires i < |s.table|
  {
    forall j :: 0 <= j < |Served(s.table[i])| ==> Settled(s, s.table[i].key, Served(s.table[i])[j].runId)
  }

  ghost predicate CallsOk(s: State) {
    forall i :: Holds(s, i) ==> ServedSettled(s, i)
  }

  ghost predicate AccountsOk(s: State) {
    forall k :: 0 <= k < |s.acks| ==> Accounted(s, s.acks[k])
  }

  ghost predicate Durable(s: State) {
    && Consistent(s)
    && FilesOk(s) && ReplayOk(s) && JournalsOk(s) && CallsOk(s) && AccountsOk(s)
  }

  // ------------------------------------------------------------ small lemmas

  /** The log and the acknowledgements grow, but not by a launch under this key. */
  ghost predicate Grows(s: State, t: State, key: string) {
    && s.log <= t.log && s.acks <= t.acks
    && forall k :: |s.acks| <= k < |t.acks| ==> t.acks[k].key != key
  }

  lemma SinceMonotone(s: State, t: State, a: Ack)
    requires Since(s, a) && s.log <= t.log
    ensures Since(t, a)
  {
  }

  lemma SettledStays(s: State, t: State, key: string, runId: string)
    requires Settled(s, key, runId) && Grows(s, t, key)
    ensures Settled(t, key, runId)
  {
    forall k | 0 <= k < |t.acks| && t.acks[k].key == key && t.acks[k].req.runId == runId ensures Since(t, t.acks[k]) {
      assert t.acks[k] == s.acks[k];
      SinceMonotone(s, t, s.acks[k]);
    }
  }

  /** A callback settles its run. */
  lemma CallbackSettles(s: State, t: State, c: Callback)
    requires AcksOk(s) && t.acks == s.acks && t.log == s.log + [c]
    ensures Settled(t, c.key, c.sub.runId)
  {
    assert t.log[|s.log|] == c;
    forall k | 0 <= k < |t.acks| && t.acks[k].key == c.key && t.acks[k].req.runId == c.sub.runId ensures Since(t, t.acks[k]) {
      assert AckOk(s, s.acks[k]);
    }
  }

  /** Every path may lose files only if the runs in them were called back. */
  ghost predicate KeepsOrCalled(s: State, t: State) {
    && s.log <= t.log
    && forall p :: p in s.disk && s.disk[p].Journal? ==>
         || (p in t.disk && t.disk[p].Journal? && t.disk[p].key == s.disk[p].key && s.disk[p].subscribers <= t.disk[p].subscribers)
         || (forall j :: 0 <= j < |s.disk[p].subscribers| ==> Settled(s, s.disk[p].key, s.disk[p].subscribers[j].runId))
  }

  lemma KeepsAccounted(s: State, t: State, k: nat)
    requires k < |s.acks| && Accounted(s, s.acks[k]) && KeepsOrCalled(s, t)
    ensures Accounted(t, s.acks[k])
  {
    var a := s.acks[k];
    if !Since(s, a) {
      var p := JournalName(a.key);
      var i :| 0 <= i < |s.disk[p].subscribers| && s.disk[p].subscribers[i].runId == a.req.runId;
      assert !Settled(s, a.key, a.req.runId);
    } else {
      SinceMonotone(s, t, a);
    }
  }

  lemma KeepsAccounts(s: State, t: State)
    requires AccountsOk(s) && KeepsOrCalled(s, t) && s.acks == t.acks
    ensures AccountsOk(t)
  {
    forall k | 0 <= k < |t.acks| ensures Accounted(t, t.acks[k]) { KeepsAccounted(s, t, k); }
  }

  lemma LongerLogKeepsCalls(s: State, t: State, i: nat)
    requires i < |s.table| && i < |t.table| && ServedSettled(s, i) && Grows(s, t, s.table[i].key)
    requires t.table[i].key == s.table[i].key && Served(t.table[i]) == Served(s.table[i])
    ensures ServedSettled(t, i)
  {
    forall j | 0 <= j < |Served(t.table[i])| ensures Settled(t, t.table[i].key, Served(t.table[i])[j].runId) {
      SettledStays(s, t, s.table[i].key, Served(s.table[i])[j].runId);
    }
  }

  lemma LongerLogKeepsReplay(s: State, t: State)
    requires ReplayOk(s) && t.recovery == s.recovery && !s.recovery.NotListed?
    requires s.recovery.Replaying? && s.recovery.current.Notifying? ==> Grows(s, t, s.recovery.current.journal.key)
    requires forall p :: InReplay(s, p) ==> (p in s.disk ==> p in t.disk && t.disk[p] == s.disk[p])
    ensures ReplayOk(t)
  {
    if s.recovery.Replaying? && s.recovery.current.Notifying? {
      var current := s.recovery.current;
      forall k | 0 <= k < current.next ensures Settled(t, current.journal.key, current.journal.subscribers[k].runId) {
        SettledStays(s, t, current.journal.key, current.journal.subscribers[k].runId);
      }
    }
  }

  /** A key whose journal is not being replayed. */
  lemma NotReplayed(s: State, key: string)
    requires FilesOk(s) && ReplayOk(s) && !InReplay(s, JournalName(key))
    ensures s.recovery.Replaying? && s.recovery.current.Notifying? ==> s.recovery.current.journal.key != key
  {
    if s.recovery.Replaying? && s.recovery.current.Notifying? {
      assert FileOk(s.recovery.current.path, s.disk[s.recovery.current.path]);
    }
  }

  // ------------------------------------------------------- each step keeps it

  lemma JoinKeepsJournals(s: State, req: LaunchRequest)
    requires MapOk(s) && SessionsOk(s) && JournalsOk(s) && Live(s, SessionKey(req))
    ensures Holds(s, s.sessions[SessionKey(req)]) && JournalsOk(Join(s, req, Saved))
  {
    var t, sid := Join(s, req, Saved), s.sessions[SessionKey(req)];
    assert SessionOk(s.table[sid]) && Holds(s, sid);
    forall i | Holds(t, i)
      ensures Holds(s, i) && t.table[i].key == s.table[i].key && Journaled(t, i)
    {
      assert Holds(s, i) && Journaled(s, i);
    }
  }

  lemma JoinKeepsFiles(s: State, req: LaunchRequest)
    requires MapOk(s) && SessionsOk(s) && FilesOk(s) && ReplayOk(s) && JournalsOk(s) && Live(s, SessionKey(req))
    ensures var t := Join(s, req, Saved); FilesOk(t) && JournalsOk(t) && ReplayOk(t)
  {
    var t, sid := Join(s, req, Saved), s.sessions[SessionKey(req)];
    JoinKeepsJournals(s, req);
    assert t.table[sid].subscribers != [] by { assert SessionOk(s.table[sid]); }
    NotReplayed(s, SessionKey(req));
    LongerLogKeepsReplay(s, t);
  }

  lemma JoinKeepsOrCalled(s: State, req: LaunchRequest)
    requires MapOk(s) && SessionsOk(s) && JournalsOk(s) && Live(s, SessionKey(req))
    ensures KeepsOrCalled(s, Join(s, req, Saved)) && OnDisk(Join(s, req, Saved), SessionKey(req), req.runId)
  {
    var sid := s.sessions[SessionKey(req)];
    assert SessionOk(s.table[sid]) && Holds(s, sid) && Journaled(s, sid);
    HasRunAppend(s.table[sid].subscribers, SubscriberOf(req));
  }

  lemma JoinKeepsAccounts(s: State, req: LaunchRequest)
    requires MapOk(s) && SessionsOk(s) && JournalsOk(s) && AccountsOk(s) && Live(s, SessionKey(req))
    ensures AccountsOk(Join(s, req, Saved))
  {
    var t := Join(s, req, Saved);
    JoinKeepsOrCalled(s, req);
    forall k | 0 <= k < |t.acks| ensures Accounted(t, t.acks[k]) {
      if k < |s.acks| { KeepsAccounted(s, t, k); }
    }
  }

  lemma JoinKeepsDurable(s: State, req: LaunchRequest)
    requires Durable(s) && Live(s, SessionKey(req))
    ensures Durable(Join(s, req, Saved))
  {
    var t := Join(s, req, Saved);
    JoinKeeps(s, req, Saved);
    JoinKeepsFiles(s, req);
    JoinKeepsAccounts(s, req);
    JoinKeepsCalls(s, req);
  }

  lemma JoinKeepsCalls(s: State, req: LaunchRequest)
    requires MapOk(s) && SessionsOk(s) && JournalsOk(s) && CallsOk(s) && Live(s, SessionKey(req))
    ensures CallsOk(Join(s, req, Saved))
  {
    var t, sid := Join(s, req, Saved), s.sessions[SessionKey(req)];
    assert SessionOk(s.table[sid]) && Holds(s, sid);
    forall i | Holds(t, i) ensures ServedSettled(t, i) {
      assert Holds(s, i);
      if i != sid { LongerLogKeepsCalls(s, t, i); }
    }
  }

  lemma StartKeepsFiles(s: State, req: LaunchRequest)
    requires FilesOk(s) && ReplayOk(s) && JournalsOk(s) && !s.recovery.NotListed? && JournalName(SessionKey(req)) !in s.disk
    ensures var t := Start(s, req, Saved); FilesOk(t) && JournalsOk(t) && ReplayOk(t)
  {
    var t := Start(s, req, Saved);
    assert !InReplay(s, JournalName(SessionKey(req)));
    assert t.table[|s.table|].subscribers != [];
    forall i | Holds(t, i)
      ensures Journaled(t, i) && !InReplay(t, JournalName(t.table[i].key))
      ensures i < |s.table| ==> Holds(s, i) && JournalName(t.table[i].key) in s.disk
    {
      if i < |s.table| { assert Holds(s, i) && Journaled(s, i); }
    }
    NotReplayed(s, SessionKey(req));
    LongerLogKeepsReplay(s, t);
  }

  lemma StartKeepsAccounts(s: State, req: LaunchRequest)
    requires Durable(s) && JournalName(SessionKey(req)) !in s.disk
    ensures AccountsOk(Start(s, req, Saved))
  {
    var t := Start(s, req, Saved);
    assert t.table[|s.table|].subscribers[0].runId == req.runId;
    assert OnDisk(t, SessionKey(req), req.runId);
    assert KeepsOrCalled(s, t);
    forall k | 0 <= k < |t.acks| ensures Accounted(t, t.acks[k]) {
      if k < |s.acks| { KeepsAccounted(s, t, k); }
    }
  }

  lemma StartKeepsDurable(s: State, req: LaunchRequest)
    requires Durable(s) && ValidRequest(req) && !Live(s, SessionKey(req))
    requires !s.recovery.NotListed? && JournalName(SessionKey(req)) !in s.disk
    ensures Durable(Start(s, req, Saved))
  {
    var t := Start(s, req, Saved);
    StartKeeps(s, req, Saved);
    StartKeepsFiles(s, req);
    StartKeepsAccounts(s, req);
    StartKeepsCalls(s, req);
  }

  lemma StartKeepsCalls(s: State, req: LaunchRequest)
    requires JournalsOk(s) && CallsOk(s) && JournalName(SessionKey(req)) !in s.disk
    ensures CallsOk(Start(s, req, Saved))
  {
    var t := Start(s, req, Saved);
    forall i | Holds(t, i) ensures ServedSettled(t, i) {
      if i < |s.table| {
        assert Holds(s, i) && Journaled(s, i);
        LongerLogKeepsCalls(s, t, i);
      }
    }
  }

  /** One session moves on, keeps its journal and is not through. */
  lemma PatchKeepsDurable(s: State, sid: nat, sess: Session)
    requires Durable(s) && sid < |s.table| && Consistent(Patch(s, sid, sess))
    requires Served(sess) == Served(s.table[sid]) && JournalOf(sess) == JournalOf(s.table[sid])
    requires !s.table[sid].phase.Exited? && !sess.phase.Exited?
    ensures Durable(Patch(s, sid, sess))
  {
    var t := Patch(s, sid, sess);
    PatchKeepsFiles(s, sid, sess);
    forall i | Holds(t, i) ensures ServedSettled(t, i) {
      assert Holds(s, i);
      LongerLogKeepsCalls(s, t, i);
    }
    KeepsAccounts(s, t);
  }

  lemma PatchKeepsFiles(s: State, sid: nat, sess: Session)
    requires FilesOk(s) && ReplayOk(s) && JournalsOk(s) && sid < |s.table|
    requires JournalOf(sess) == JournalOf(s.table[sid]) && !s.table[sid].phase.Exited?
    ensures var t := Patch(s, sid, sess); FilesOk(t) && JournalsOk(t) && ReplayOk(t)
  {
    var t := Patch(s, sid, sess);
    forall i | Holds(t, i)
      ensures Holds(s, i) && t.table[i].key == s.table[i].key && Journaled(t, i)
    {
      assert Holds(s, i) && Journaled(s, i);
    }
    LongerLogKeepsReplay(s, t);
  }

  lemma CancelKeepsDurable(s: State, key: string)
    requires Durable(s)
    ensures Durable(CancelSession(s, key))
  {
    CancelKeeps(s, key);
    if Live(s, key) && !s.table[s.sessions[key]].cancel.Unset? {
      var sid := s.sessions[key];
      assert SessionOk(s.table[sid]);
      PatchKeepsDurable(s, sid, s.table[sid].(cancel := Fired));
    }
  }

  lemma FinishKeepsDurable(s: State, sid: nat, status: string)
    requires Durable(s) && sid < |s.table| && s.table[sid].phase.Working?
    ensures Durable(FinishSession(s, sid, status))
  {
    FinishKeeps(s, sid, status);
    PatchKeepsDurable(s, sid, s.table[sid].(done := true, phase := Delivering(s.table[sid].subscribers, 0, status)));
  }

  lemma DeliverKeepsCalls(s: State, sid: nat)
    requires AcksOk(s) && SessionsOk(s) && CallsOk(s)
    requires sid < |s.table| && s.table[sid].phase.Delivering? && s.table[sid].phase.next < |s.table[sid].phase.snapshot|
    ensures CallsOk(DeliverNext(s, sid))
  {
    var t := DeliverNext(s, sid);
    var sess := s.table[sid];
    assert SessionOk(sess) && Holds(s, sid);
    CallbackSettles(s, t, t.log[|s.log|]);
    forall i | Holds(t, i) ensures ServedSettled(t, i) {
      assert Holds(s, i);
      if i != sid { LongerLogKeepsCalls(s, t, i); }
      else {
        forall j | 0 <= j < |Served(t.table[i])| ensures Settled(t, t.table[i].key, Served(t.table[i])[j].runId) {
          if j < |Served(sess)| { SettledStays(s, t, sess.key, Served(sess)[j].runId); }
        }
      }
    }
  }

  lemma DeliverKeepsFiles(s: State, sid: nat)
    requires FilesOk(s) && ReplayOk(s) && JournalsOk(s)
    requires sid < |s.table| && s.table[sid].phase.Delivering? && s.table[sid].phase.next < |s.table[sid].phase.snapshot|
    ensures var t := DeliverNext(s, sid); FilesOk(t) && ReplayOk(t) && JournalsOk(t)
  {
    var t := DeliverNext(s, sid);
    var phase := s.table[sid].phase;
    var p := Patch(s, sid, s.table[sid].(phase := phase.(next := phase.next + 1)));
    PatchKeepsFiles(s, sid, p.table[sid]);
    assert t == p.(log := t.log);
    LongerLogKeepsReplay(p, t);
    forall i | Holds(t, i) ensures Journaled(t, i) { assert Holds(p, i) && Journaled(p, i); }
  }

  lemma DeliverKeepsDurable(s: State, sid: nat)
    requires Durable(s)
    requires sid < |s.table| && s.table[sid].phase.Delivering? && s.table[sid].phase.next < |s.table[sid].phase.snapshot|
    ensures Durable(DeliverNext(s, sid))
  {
    DeliverKeeps(s, sid);
    DeliverKeepsCalls(s, sid);
    DeliverKeepsFiles(s, sid);
    KeepsAccounts(s, DeliverNext(s, sid));
  }

  lemma RemoveKeepsFiles(s: State, sid: nat, removed: bool)
    requires FilesOk(s) && ReplayOk(s) && JournalsOk(s) && sid < |s.table| && s.table[sid].phase.Delivering?
    ensures var t := Remove(s, sid, removed); FilesOk(t) && JournalsOk(t) && ReplayOk(t)
  {
    var t := Remove(s, sid, removed);
    assert Holds(s, sid) && !InReplay(s, JournalName(s.table[sid].key));
    forall i | Holds(t, i)
      ensures Holds(s, i) && t.table[i].key == s.table[i].key && Journaled(t, i)
    {
      assert Holds(s, i) && i != sid && Journaled(s, i);
    }
    LongerLogKeepsReplay(s, t);
  }

  lemma RemoveKeepsCalls(s: State, sid: nat, removed: bool)
    requires SessionsOk(s) && JournalsOk(s) && CallsOk(s) && sid < |s.table| && s.table[sid].phase.Delivering?
    requires s.table[sid].phase.next == |s.table[sid].phase.snapshot|
    ensures CallsOk(Remove(s, sid, removed)) && KeepsOrCalled(s, Remove(s, sid, removed))
  {
    var t, sess := Remove(s, sid, removed), s.table[sid];
    assert SessionOk(sess) && Holds(s, sid) && Journaled(s, sid) && ServedSettled(s, sid);
    assert Served(sess) == sess.subscribers == s.disk[JournalName(sess.key)].subscribers;
    forall i | Holds(t, i) ensures ServedSettled(t, i) {
      assert Holds(s, i);
      LongerLogKeepsCalls(s, t, i);
    }
  }

  lemma RemoveKeepsDurable(s: State, sid: nat, removed: bool)
    requires Durable(s) && sid < |s.table| && s.table[sid].phase.Delivering?
    requires s.table[sid].phase.next == |s.table[sid].phase.snapshot|
    ensures Durable(Remove(s, sid, removed))
  {
    RemoveKeeps(s, sid, removed);
    RemoveKeepsFiles(s, sid, removed);
    RemoveKeepsCalls(s, sid, removed);
    KeepsAccounts(s, Remove(s, sid, removed));
  }

  lemma ReadKeepsReplay(s: State, readable: bool)
    requires FilesOk(s) && ReplayOk(s) && JournalsOk(s) && s.recovery.Replaying? && s.recovery.current.Idle?
    ensures ReplayOk(Open(s, readable)) && JournalsOk(Open(s, readable))
  {
    var t := Open(s, readable);
    var todo := s.recovery.todo;
    if todo != [] {
      assert FileOk(todo[0], s.disk[todo[0]]);
      assert forall p :: p in todo[1..] ==> p in todo && p != todo[0];
    }
    assert forall p :: InReplay(t, p) ==> InReplay(s, p);
    forall i | Holds(t, i) ensures Holds(s, i) && Journaled(t, i) { assert Holds(s, i) && Journaled(s, i); }
  }

  lemma NotifyKeepsReplay(s: State)
    requires AcksOk(s) && ReplayOk(s) && JournalsOk(s)
    requires s.recovery.Replaying? && s.recovery.current.Notifying? && s.recovery.current.journal.Journal?
    requires s.recovery.current.next < |s.recovery.current.journal.subscribers|
    ensures ReplayOk(NotifyNext(s)) && JournalsOk(NotifyNext(s))
  {
    var t := NotifyNext(s);
    var current := s.recovery.current;
    CallbackSettles(s, t, t.log[|s.log|]);
    forall k | 0 <= k < current.next + 1
      ensures Settled(t, current.journal.key, current.journal.subscribers[k].runId)
    {
      if k < current.next { SettledStays(s, t, current.journal.key, current.journal.subscribers[k].runId); }
    }
    assert forall p :: InReplay(t, p) ==> InReplay(s, p);
    forall i | Holds(t, i) ensures Holds(s, i) && Journaled(t, i) { assert Holds(s, i) && Journaled(s, i); }
  }

  lemma DiscardKeepsReplay(s: State, removed: bool)
    requires FilesOk(s) && ReplayOk(s) && JournalsOk(s) && s.recovery.Replaying? && s.recovery.current.Notifying?
    ensures var t := Discard(s, removed); FilesOk(t) && ReplayOk(t) && JournalsOk(t)
  {
    var t := Discard(s, removed);
    assert InReplay(s, s.recovery.current.path);
    assert forall p :: InReplay(t, p) ==> InReplay(s, p);
    forall i | Holds(t, i) ensures Holds(s, i) && Journaled(t, i) { assert Holds(s, i) && Journaled(s, i); }
  }

  /** The recovery goroutine moves on: same sessions, a longer log. */
  lemma RecoveryKeepsDurable(s: State, t: State)
    requires Durable(s) && Consistent(t) && FilesOk(t) && ReplayOk(t) && JournalsOk(t)
    requires t.table == s.table && t.acks == s.acks && KeepsOrCalled(s, t)
    ensures Durable(t)
  {
    forall i | Holds(t, i) ensures ServedSettled(t, i) {
      assert Holds(s, i);
      LongerLogKeepsCalls(s, t, i);
    }
    KeepsAccounts(s, t);
  }

  lemma DiscardKeepsDurable(s: State, removed: bool)
    requires Durable(s) && s.recovery.Replaying? && s.recovery.current.Notifying?
    requires s.recovery.current.journal.Journal? ==> s.recovery.current.next == |s.recovery.current.journal.subscribers|
    ensures Durable(Discard(s, removed))
  {
    FilesDoNotMatter(s, Discard(s, removed));
    DiscardKeepsReplay(s, removed);
    assert FileOk(s.recovery.current.path, s.recovery.current.journal);
    RecoveryKeepsDurable(s, Discard(s, removed));
  }

  lemma ReadKeepsDurable(s: State, readable: bool)
    requires Durable(s) && s.recovery.Replaying? && s.recovery.current.Idle?
    ensures Durable(Open(s, readable))
  {
    FilesDoNotMatter(s, Open(s, readable));
    ReadKeepsReplay(s, readable);
    RecoveryKeepsDurable(s, Open(s, readable));
  }

  lemma NotifyKeepsDurable(s: State)
    requires Durable(s)
    requires s.recovery.Replaying? && s.recovery.current.Notifying? && s.recovery.current.journal.Journal?
    requires s.recovery.current.next < |s.recovery.current.journal.subscribers|
    ensures Durable(NotifyNext(s))
  {
    NotifyKeeps(s);
    NotifyKeepsReplay(s);
    RecoveryKeepsDurable(s, NotifyNext(s));
  }

  lemma ListKeepsDurable(s: State, listing: seq<string>)
    requires Durable(s) && s.recovery.NotListed?
    requires forall i, j :: 0 <= i < j < |listing| ==> listing[i] != listing[j]
    requires forall p :: p in listing ==> p in s.disk
    ensures Durable(s.(recovery := Replaying(listing, Idle)))
  {
  }

  lemma StepKeepsDurable(s: State, e: Event)
    requires Durable(s) && Enabled(s, e) && Careful(s, e)
    ensures Durable(Apply(s, e))
  {
    match e
    case Launch(req, write) => if Creates(s, req) { StartKeepsDurable(s, req); } else { JoinKeepsDurable(s, req); }
    case SetCancel(sid) => SetCancelKeeps(s, sid); PatchKeepsDurable(s, sid, s.table[sid].(cancel := Armed));
    case Cancel(key) => CancelKeepsDurable(s, key);
    case Finish(sid, status) => FinishKeepsDurable(s, sid, status);
    case Deliver(sid) => DeliverKeepsDurable(s, sid);
    case RemoveJournal(sid, removed) => RemoveKeepsDurable(s, sid, removed);
    case ListJournals(listing) => ListKeepsDurable(s, listing);
    case ReadJournal(readable) => ReadKeepsDurable(s, readable);
    case NotifyCrashed => NotifyKeepsDurable(s);
    case DiscardJournal(removed) => DiscardKeepsDurable(s, removed);
    case Crash => RestartKeeps(s); KeepsAccounts(s, Restart(s));
  }

  lemma {:induction false} RunKeepsDurable(s: State, events: seq<Event>, t: State)
    requires Durable(s) && CarefulRun(s, events, t)
    ensures Durable(t)
    decreases |events|
  {
    if events != [] {
      StepKeepsDurable(s, events[0]);
      RunKeepsDurable(Apply(s, events[0]), events[1..], t);
    }
  }

  // ------------------------------------------------------------ main results

  /** In every careful interleaving, with any number of crashes: an acknowledged
      launch was called back since, or its run is on disk under its key. */
  lemma {:induction false} NoStrandedRun(s: State, events: seq<Event>, t: State, a: Ack)
    requires Init(s) && CarefulRun(s, events, t) && a in t.acks
    ensures CalledSince(t.log, a.at, a.key, a.req.runId) || OnDisk(t, a.key, a.req.runId)
  {
    RunKeepsDurable(s, events, t);
    var k :| 0 <= k < |t.acks| && t.acks[k] == a;
    assert Accounted(t, t.acks[k]);
  }

  lemma SameJournalName(k1: string, k2: string)
    requires JournalName(k1) == JournalName(k2)
    ensures Sanitize(k1) == Sanitize(k2)
  {
    var n1, n2 := JournalName(k1), JournalName(k2);
    assert |k1| == |k2|;
    assert Sanitize(k1) == n1[8..8 + |k1|] && Sanitize(k2) == n2[8..8 + |k2|];
  }

  /** Anything but the ASCII letters and digits, the low line and the dot. */
  predicate ReplacedByDash(c: char) {
    var n := c as int;
    !(48 <= n <= 57 || 65 <= n <= 90 || 97 <= n <= 122 || n == 95 || n == 46)
  }

  /** Whatever the key, its journal is one element of a path, and its name has the
      beginning and the end by which recovery knows journals. */
  lemma JournalIsListed(key: string)
    ensures var name := JournalName(key);
            && |name| == |key| + 13 && name[..8] == "journal-" && name[|name| - 5..] == ".json"
            && '/' !in name
            && forall i :: 0 <= i < |key| ==> name[8 + i] == if ReplacedByDash(key[i]) then '-' else key[i]
  {
    var name := JournalName(key);
    assert name == "journal-" + Sanitize(key) + ".json";
    forall i | 0 <= i < |key| ensures name[8 + i] == if ReplacedByDash(key[i]) then '-' else key[i] {
      assert name[8 + i] == Sanitize(key)[i];
    }
    assert '/' !in Sanitize(key);
  }

  /** Two keys share a journal exactly when they differ only in characters that the
      file name writes as a dash. */
  lemma JournalNamesCollideExactly(k1: string, k2: string)
    ensures JournalName(k1) == JournalName(k2) <==>
            && |k1| == |k2|
            && forall i :: 0 <= i < |k1| ==> k1[i] == k2[i] || (ReplacedByDash(k1[i]) && ReplacedByDash(k2[i]))
  {
    if JournalName(k1) == JournalName(k2) {
      SameJournalName(k1, k2);
      forall i | 0 <= i < |k1| ensures k1[i] == k2[i] || (ReplacedByDash(k1[i]) && ReplacedByDash(k2[i])) {
        assert Sanitize(k1)[i] == Sanitize(k2)[i];
      }
    } else {
      assert Sanitize(k1) != Sanitize(k2);
    }
  }
}

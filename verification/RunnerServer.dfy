/** The runner's server object (services/runner/main.go): the mutex-guarded
    session map, the session records the goroutines share, and the work
    directory.  Each method is one atomic section and is proved to be the step of
    RunnerProtocol it stands for. */
module RunnerServer {
  import opened RunnerProtocol

  datatype Response =
    | BadRequest
    | NotFound
    | AlreadyRunning(key: string)
    | Started(key: string)
    | Cancelled(cancelled: bool)

  class LiveSession {
    ghost const id: nat
    const key: string
    const req: LaunchRequest
    var subscribers: seq<Subscriber>
    var done: bool
    var cancel: CancelFunc
    var phase: Phase

    constructor (ghost id: nat, key: string, req: LaunchRequest, sub: Subscriber)
      ensures this.id == id && this.key == key && this.req == req
      ensures subscribers == [sub] && !done && cancel == Unset && phase == Working
    {
      this.id := id;
      this.key, this.req := key, req;
      subscribers, done, cancel, phase := [sub], false, Unset, Working;
    }

    ghost function View(): Session
      reads this
    {
      Session(key, req, subscribers, done, cancel, phase)
    }
  }

  class Server {
    var sessions: map<string, LiveSession>
    var disk: map<string, File>
    var recovery: Recovery

    ghost var epoch: nat
    ghost var created: seq<LiveSession>
    ghost var log: seq<Callback>
    ghost var acks: seq<Ack>

    ghost predicate Valid()
      reads this
    {
      && (forall i :: 0 <= i < |created| ==> created[i].id == i)
      && (forall k :: k in sessions ==> sessions[k].id < |created| && created[sessions[k].id] == sessions[k] && sessions[k].key == k)
    }

    ghost function Table(): seq<Session>
      reads this, created
    {
      seq(|created|, i requires 0 <= i < |created| reads this, created => created[i].View())
    }

    ghost function View(): (s: State)
      reads this, created
      ensures Valid() ==> WellFormed(s)
    {
      State(epoch, map k | k in sessions :: sessions[k].id, Table(), disk, recovery, log, acks)
    }

    /** The first process on an empty work directory. */
    constructor Boot()
      ensures Valid() && Init(View())
    {
      sessions, disk, recovery := map[], map[], NotListed;
      epoch, created, log, acks := 0, [], [], [];
    }

    /** The next process, on the work directory the last one left. */
    constructor Reboot(disk: map<string, File>, ghost last: State)
      requires disk == last.disk
      ensures Valid() && View() == Restart(last)
    {
      this.sessions, this.disk, this.recovery := map[], disk, NotListed;
      epoch, created, log, acks := last.epoch + 1, [], last.log, last.acks;
    }

    method SaveJournal(sess: LiveSession, write: WriteOutcome)
      modifies this`disk
      ensures disk == Save(old(disk), sess.View(), write)
    {
      match write {
        case Saved => disk := disk[JournalName(sess.key) := Journal(sess.key, sess.req.repo, sess.req.ticketKey, sess.subscribers)];
        case NotSaved =>
        case Torn => disk := disk[JournalName(sess.key) := Garbled];
      }
    }

    method Subscribed(sess: LiveSession, runId: string) returns (already: bool)
      ensures already == HasRun(sess.subscribers, runId)
    {
      already := false;
      var i := 0;
      while i < |sess.subscribers|
        invariant i <= |sess.subscribers|
        invariant !already
        invariant forall j :: 0 <= j < i ==> sess.subscribers[j].runId != runId
      {
        if sess.subscribers[i].runId == runId {
          return true;
        }
        i := i + 1;
      }
    }

    method AddSubscriber(existing: LiveSession, sub: Subscriber, write: WriteOutcome)
      requires Valid() && existing in created
      modifies this`disk, existing`subscribers
      ensures Valid()
      ensures var s := old(View()); var sess := s.table[existing.id].(subscribers := s.table[existing.id].subscribers + [sub]);
              View() == s.(table := s.table[existing.id := sess], disk := Save(s.disk, sess, write))
    {
      ghost var s := View();
      assert s.table[existing.id] == existing.View();
      existing.subscribers := existing.subscribers + [sub];
      SaveJournal(existing, write);
      assert Table() == s.table[existing.id := existing.View()];
    }

    method JoinSession(existing: LiveSession, req: LaunchRequest, write: WriteOutcome)
      requires Valid() && SessionKey(req) in sessions && sessions[SessionKey(req)] == existing && !existing.done
      modifies this`disk, this`acks, existing`subscribers
      ensures Valid() && View() == Join(old(View()), req, write)
    {
      ghost var s := View();
      assert s.table[existing.id] == existing.View();
      acks := acks + [Ack(epoch, existing.id, existing.key, req, |log|)];
      assert Table() == s.table;
      var already := Subscribed(existing, req.runId);
      if !already {
        AddSubscriber(existing, SubscriberOf(req), write);
      }
    }

    method Enroll(sess: LiveSession)
      requires Valid() && sess.id == |created| && sess !in created
      modifies this`created, this`sessions
      ensures Valid() && created == old(created) + [sess]
      ensures View() == old(View()).(
        sessions := old(View()).sessions[sess.key := |old(View()).table|],
        table := old(View()).table + [sess.View()])
    {
      ghost var s := View();
      created := created + [sess];
      sessions := sessions[sess.key := sess];
      assert Table() == s.table + [sess.View()];
      assert View().sessions == s.sessions[sess.key := |s.table|];
    }

    method StartSession(req: LaunchRequest, write: WriteOutcome)
      requires Valid()
      modifies this`created, this`sessions, this`disk, this`acks
      ensures Valid() && View() == Start(old(View()), req, write)
    {
      var sess := new LiveSession(|created|, SessionKey(req), req, SubscriberOf(req));
      Enroll(sess);
      ghost var table := Table();
      SaveJournal(sess, write);
      acks := acks + [Ack(epoch, sess.id, sess.key, req, |log|)];
      assert Table() == table;
    }

    method HandleLaunch(req: LaunchRequest, write: WriteOutcome) returns (resp: Response)
      requires Valid()
      modifies this, created
      ensures Valid()
      ensures !ValidRequest(req) ==> resp == BadRequest && View() == old(View())
      ensures ValidRequest(req) ==>
                && View() == Apply(old(View()), Launch(req, write))
                && resp == (if Live(old(View()), SessionKey(req)) then AlreadyRunning(SessionKey(req)) else Started(SessionKey(req)))
    {
      if !ValidRequest(req) {
        return BadRequest;
      }
      var key := SessionKey(req);
      if key in sessions {
        assert View().table[sessions[key].id].done == sessions[key].done;
        if !sessions[key].done {
          JoinSession(sessions[key], req, write);
          return AlreadyRunning(key);
        }
      }
      StartSession(req, write);
      return Started(key);
    }

    method HandleCancel(secretMatches: bool, key: string) returns (resp: Response)
      requires Valid()
      modifies created
      ensures Valid()
      ensures !secretMatches ==> resp == NotFound && View() == old(View())
      ensures secretMatches && key == "" ==> resp == BadRequest && View() == old(View())
      ensures secretMatches && key != "" ==>
                && View() == CancelSession(old(View()), key)
                && resp == Cancelled(Live(old(View()), key) && !old(View()).table[old(View()).sessions[key]].cancel.Unset?)
    {
      if !secretMatches {
        return NotFound;
      }
      if key == "" {
        return BadRequest;
      }
      ghost var s := View();
      if key in sessions {
        var sess := sessions[key];
        assert s.table[sess.id] == sess.View();
        if !sess.done && sess.cancel != Unset {
          sess.cancel := Fired;
          assert Table() == CancelSession(s, key).table;
          return Cancelled(true);
        }
      }
      return Cancelled(false);
    }

    // ---------------------------------------------- the goroutine of a session

    method RegisterCancel(sess: LiveSession)
      requires Valid() && sess in created && Enabled(View(), SetCancel(sess.id))
      modifies sess`cancel
      ensures Valid() && View() == Apply(old(View()), SetCancel(sess.id))
    {
      ghost var s := View();
      sess.cancel := Armed;
      assert Table() == Apply(s, SetCancel(sess.id)).table;
    }

    method MarkDone(sess: LiveSession, status: string)
      requires Valid() && sess in created && Enabled(View(), Finish(sess.id, status))
      modifies sess`done, sess`phase
      ensures Valid() && View() == Apply(old(View()), Finish(sess.id, status))
    {
      ghost var s := View();
      assert s.table[sess.id] == sess.View();
      sess.done := true;
      sess.phase := Delivering(sess.subscribers, 0, status);
      assert Table() == FinishSession(s, sess.id, status).table;
    }

    method DeliverOne(sess: LiveSession)
      requires Valid() && sess in created && Enabled(View(), Deliver(sess.id))
      modifies this`log, sess`phase
      ensures Valid() && View() == Apply(old(View()), Deliver(sess.id))
    {
      ghost var s := View();
      assert s.table[sess.id] == sess.View();
      var phase := sess.phase;
      log := log + [Callback(FromSession(epoch, sess.id), sess.key, phase.snapshot[phase.next], phase.status, WorkOf(sess.req))];
      sess.phase := phase.(next := phase.next + 1);
      assert Table() == RunnerProtocol.DeliverNext(s, sess.id).table;
    }

    method RemoveOwnJournal(sess: LiveSession, removed: bool)
      requires Valid() && sess in created && Enabled(View(), RemoveJournal(sess.id, removed))
      modifies this`disk, sess`phase
      ensures Valid() && View() == Apply(old(View()), RemoveJournal(sess.id, removed))
    {
      ghost var s := View();
      assert s.table[sess.id] == sess.View();
      if removed {
        disk := disk - {JournalName(sess.key)};
      }
      sess.phase := Exited;
      assert Table() == RunnerProtocol.Remove(s, sess.id, removed).table;
    }

    // ---------------------------------------------------- the recovery routine

    method TakeListing(listing: seq<string>)
      requires Valid() && Enabled(View(), ListJournals(listing))
      modifies this`recovery
      ensures Valid() && View() == Apply(old(View()), ListJournals(listing))
    {
      recovery := Replaying(listing, Idle);
      assert Table() == old(Table());
    }

    method OpenNext(readable: bool)
      requires Valid() && Enabled(View(), RunnerProtocol.ReadJournal(readable))
      modifies this`recovery
      ensures Valid() && View() == Apply(old(View()), RunnerProtocol.ReadJournal(readable))
    {
      var todo := recovery.todo;
      if todo == [] {
        recovery := Recovered;
      } else if readable && todo[0] in disk {
        recovery := Replaying(todo[1..], Notifying(todo[0], disk[todo[0]], 0));
      } else {
        recovery := Replaying(todo[1..], Idle);
      }
      assert Table() == old(Table());
    }

    method NotifyOne()
      requires Valid() && Enabled(View(), NotifyCrashed)
      modifies this`recovery, this`log
      ensures Valid() && View() == Apply(old(View()), NotifyCrashed)
    {
      var current := recovery.current;
      log := log + [Callback(FromJournal, current.journal.key, current.journal.subscribers[current.next], "crashed",
                             Work(current.journal.repo, current.journal.ticketKey, ""))];
      recovery := Replaying(recovery.todo, current.(next := current.next + 1));
      assert Table() == old(Table());
    }

    method DiscardCurrent(removed: bool)
      requires Valid() && Enabled(View(), RunnerProtocol.DiscardJournal(removed))
      modifies this`recovery, this`disk
      ensures Valid() && View() == Apply(old(View()), RunnerProtocol.DiscardJournal(removed))
    {
      if removed {
        disk := disk - {recovery.current.path};
      }
      recovery := Replaying(recovery.todo, Idle);
      assert Table() == old(Table());
    }
  }

  // ----------------------------------------------------------- one callback

  /** What one POST of a callback came to; NoAnswer is a transport error. */
  datatype Post = NoAnswer | Answer(status: int)

  predicate Accepted(p: Post) { p.Answer? && 200 <= p.status < 300 }

  /** A refusal that a retry will not change. */
  predicate Rejected(p: Post) {
    p.Answer? && 400 <= p.status < 500 && p.status != 408 && p.status != 429
  }

  predicate Retryable(p: Post) { !Accepted(p) && !Rejected(p) }

  const MAX_ATTEMPTS: nat := 6

  function SleepBefore(attempts: nat): nat {
    if attempts == 0 then 0 else SleepBefore(attempts - 1) + DoubledBackoff(attempts - 1)
  }

  function DoubledBackoff(n: nat): nat { if n == 0 then 2 else 2 * DoubledBackoff(n - 1) }

  /** deliverCallback: `posts` is what the network will answer, one per attempt, and
      `buildable` whether a request can be made for the address at all. */
  method DeliverCallback(buildable: bool, posts: seq<Post>) returns (attempts: nat, delivered: bool, slept: nat)
    requires |posts| >= 6
    ensures !buildable ==> attempts == 0 && !delivered && slept == 0
    ensures buildable ==>
              && 1 <= attempts <= 6
              && (forall i :: 0 <= i < attempts - 1 ==> Retryable(posts[i]))
              && (delivered <==> Accepted(posts[attempts - 1]))
              && (Retryable(posts[attempts - 1]) ==> attempts == 6)
              && slept == SleepBefore(if Retryable(posts[attempts - 1]) then attempts else attempts - 1)
  {
    var backoff := 2;
    slept, attempts := 0, 0;
    while attempts < MAX_ATTEMPTS
      invariant attempts <= MAX_ATTEMPTS && (!buildable ==> attempts == 0)
      invariant forall i :: 0 <= i < attempts ==> Retryable(posts[i])
      invariant backoff == DoubledBackoff(attempts) && slept == SleepBefore(attempts)
    {
      if !buildable {
        return attempts, false, slept;
      }
      var post := posts[attempts];
      attempts := attempts + 1;
      if Accepted(post) {
        return attempts, true, slept;
      }
      if Rejected(post) {
        return attempts, false, slept;
      }
      slept := slept + backoff;
      backoff := backoff * 2;
    }
    return attempts, false, slept;
  }

  /** The seconds slept before each attempt after the first, and after the sixth. */
  lemma SleepTotals()
    ensures [SleepBefore(1), SleepBefore(2), SleepBefore(3), SleepBefore(4), SleepBefore(5), SleepBefore(6)] == [2, 6, 14, 30, 62, 126]
  {
    assert DoubledBackoff(3) == 16;
    assert DoubledBackoff(5) == 64;
    assert SleepBefore(2) == 6;
    assert SleepBefore(4) == 30;
  }

  /** The first digit of the status. */
  predicate Kind(p: Post, digit: int) { p.Answer? && p.status / 100 == digit }

  /** The run reaches its caller iff some answer among the first six has a status of the
      two hundreds, and every answer before it is worth a retry: none of the four
      hundreds but a timeout or too many requests. */
  lemma DeliveredIff(posts: seq<Post>, attempts: nat)
    requires |posts| >= 6 && 1 <= attempts <= 6
    requires forall i :: 0 <= i < attempts - 1 ==> Retryable(posts[i])
    requires Retryable(posts[attempts - 1]) ==> attempts == 6
    ensures Accepted(posts[attempts - 1]) <==>
            exists k :: 0 <= k < 6 && Kind(posts[k], 2) && forall i :: 0 <= i < k ==> Kind(posts[i], 4) ==> posts[i].status in {408, 429}
    ensures Rejected(posts[attempts - 1]) <==>
            exists k :: 0 <= k < 6 && Kind(posts[k], 4) && posts[k].status !in {408, 429}
                        && forall i :: 0 <= i < k ==> !Kind(posts[i], 2)
  {
    forall i | 0 <= i < 6
      ensures Accepted(posts[i]) <==> Kind(posts[i], 2)
      ensures Rejected(posts[i]) <==> Kind(posts[i], 4) && posts[i].status !in {408, 429}
    {
    }
    if Accepted(posts[attempts - 1]) {
      assert forall i :: 0 <= i < attempts - 1 ==> Retryable(posts[i]) && !Rejected(posts[i]);
    }
    if Rejected(posts[attempts - 1]) {
      assert forall i :: 0 <= i < attempts - 1 ==> Retryable(posts[i]) && !Accepted(posts[i]);
    }
  }
}

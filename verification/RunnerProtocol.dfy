/** The runner's session protocol (services/runner/main.go) as a state machine.
    Every event is one atomic section of the program: a critical section under
    the server mutex, one file operation of the journal, one completed callback,
    or the death of the process.  Time, logging and the work a session does are
    left out; the status a session reports is a parameter of its Finish event. */
module RunnerProtocol {

  // ---------------------------------------------------------------- entities

  datatype LaunchRequest = LaunchRequest(
    runId: string, repo: string, ticketKey: string, taskDescription: string,
    callbackUrl: string, callbackSecret: string, mode: string, head: string)

  datatype Subscriber = Subscriber(runId: string, callbackUrl: string, callbackSecret: string)

  /** Whether runSession has stored its cancel function yet, and whether it was called. */
  datatype CancelFunc = Unset | Armed | Fired

  /** The program counter of the goroutine that runs a session. */
  datatype Phase =
    | Working
    | Delivering(snapshot: seq<Subscriber>, next: nat, status: string)
    | Exited

  datatype Session = Session(
    key: string, req: LaunchRequest, subscribers: seq<Subscriber>,
    done: bool, cancel: CancelFunc, phase: Phase)

  /** A file of the work directory: a journal, or one that does not parse. */
  datatype File =
    | Journal(key: string, repo: string, ticketKey: string, subscribers: seq<Subscriber>)
    | Garbled

  /** What writing a journal did: os.WriteFile truncates before it writes. */
  datatype WriteOutcome = Saved | NotSaved | Torn

  datatype Origin = FromSession(epoch: nat, sid: nat) | FromJournal

  /** What a callback says about the work item. */
  datatype Work = Work(repo: string, ticketKey: string, mode: string)
  datatype Callback = Callback(origin: Origin, key: string, sub: Subscriber, status: string, work: Work)

  /** One launch the server answered with 200 or 202, the session it went to, and
      how many callbacks had been made by then. */
  datatype Ack = Ack(epoch: nat, sid: nat, key: string, req: LaunchRequest, at: nat)

  datatype Replay = Idle | Notifying(path: string, journal: File, next: nat)
  datatype Recovery = NotListed | Replaying(todo: seq<string>, current: Replay) | Recovered

  /** `table` holds every session this process created; the index stands for the
      pointer, so a finished session that was replaced in `sessions` is still there. */
  datatype State = State(
    epoch: nat,
    sessions: map<string, nat>,
    table: seq<Session>,
    disk: map<string, File>,
    recovery: Recovery,
    log: seq<Callback>,
    acks: seq<Ack>)

  datatype Event =
    | Launch(req: LaunchRequest, write: WriteOutcome)
    | SetCancel(sid: nat)
    | Cancel(key: string)
    | Finish(sid: nat, status: string)
    | Deliver(sid: nat)
    | RemoveJournal(sid: nat, removed: bool)
    | ListJournals(listing: seq<string>)
    | ReadJournal(readable: bool)
    | NotifyCrashed
    | DiscardJournal(removed: bool)
    | Crash

  // ------------------------------------------------------- keys and requests

  function SessionKey(req: LaunchRequest): string {
    var key := req.ticketKey + "|" + req.repo;
    if req.mode == "review" then "review:" + key else key
  }

  function CountOf(c: char, s: string): nat {
    if s == [] then 0 else (if s[0] == c then 1 else 0) + CountOf(c, s[1..])
  }

  /** strings.Contains(s, ".."). */
  predicate HasDots(s: string) { exists i :: 0 <= i < |s| - 1 && s[i] == '.' && s[i + 1] == '.' }

  /** What handleLaunch demands before it takes the lock. */
  predicate ValidRequest(req: LaunchRequest) {
    && req.runId != "" && req.repo != "" && req.ticketKey != ""
    && req.taskDescription != "" && req.callbackUrl != ""
    && CountOf('/', req.repo) == 1
    && !HasDots(req.repo)
    && (req.mode == "review" ==> req.head != "")
  }

  predicate SafeChar(c: char) {
    'a' <= c <= 'z' || 'A' <= c <= 'Z' || '0' <= c <= '9' || c == '-' || c == '_' || c == '.'
  }

  function Sanitize(s: string): (r: string)
    ensures |r| == |s|
  {
    seq(|s|, i requires 0 <= i < |s| => if SafeChar(s[i]) then s[i] else '-')
  }

  function JournalName(key: string): string {
    "journal-" + Sanitize(key) + ".json"
  }

  function SubscriberOf(req: LaunchRequest): Subscriber {
    Subscriber(req.runId, req.callbackUrl, req.callbackSecret)
  }

  function WorkOf(req: LaunchRequest): Work { Work(req.repo, req.ticketKey, req.mode) }

  predicate HasRun(subs: seq<Subscriber>, runId: string) {
    exists i :: 0 <= i < |subs| && subs[i].runId == runId
  }

  function JournalOf(s: Session): File {
    Journal(s.key, s.req.repo, s.req.ticketKey, s.subscribers)
  }

  function Save(disk: map<string, File>, s: Session, write: WriteOutcome): map<string, File> {
    match write
    case Saved => disk[JournalName(s.key) := JournalOf(s)]
    case NotSaved => disk
    case Torn => disk[JournalName(s.key) := Garbled]
  }

  // ------------------------------------------------------------- transitions

  predicate WellFormed(s: State) {
    forall k :: k in s.sessions ==> s.sessions[k] < |s.table|
  }

  /** The key names a session that still accepts joiners. */
  predicate Live(s: State, key: string)
    requires WellFormed(s)
  {
    key in s.sessions && !s.table[s.sessions[key]].done
  }

  predicate Enabled(s: State, e: Event)
    requires WellFormed(s)
  {
    match e
    case Launch(req, _) => ValidRequest(req)
    case SetCancel(sid) => sid < |s.table| && s.table[sid].phase.Working? && s.table[sid].cancel.Unset?
    case Cancel(_) => true
    case Finish(sid, _) => sid < |s.table| && s.table[sid].phase.Working? && !s.table[sid].cancel.Unset?
    case Deliver(sid) => sid < |s.table| && s.table[sid].phase.Delivering? && s.table[sid].phase.next < |s.table[sid].phase.snapshot|
    case RemoveJournal(sid, _) => sid < |s.table| && s.table[sid].phase.Delivering? && s.table[sid].phase.next == |s.table[sid].phase.snapshot|
    case ListJournals(listing) =>
      && s.recovery.NotListed?
      && (forall i, j :: 0 <= i < j < |listing| ==> listing[i] != listing[j])
      && (forall p :: p in listing ==> p in s.disk)
    case ReadJournal(_) => s.recovery.Replaying? && s.recovery.current.Idle?
    case NotifyCrashed =>
      && s.recovery.Replaying? && s.recovery.current.Notifying? && s.recovery.current.journal.Journal?
      && s.recovery.current.next < |s.recovery.current.journal.subscribers|
    case DiscardJournal(_) =>
      && s.recovery.Replaying? && s.recovery.current.Notifying?
      && (s.recovery.current.journal.Journal? ==> s.recovery.current.next == |s.recovery.current.journal.subscribers|)
    case Crash => true
  }

  function Join(s: State, req: LaunchRequest, write: WriteOutcome): State
    requires WellFormed(s) && Live(s, SessionKey(req))
  {
    var key := SessionKey(req);
    var sid := s.sessions[key];
    var acked := s.(acks := s.acks + [Ack(s.epoch, sid, key, req, |s.log|)]);
    if HasRun(s.table[sid].subscribers, req.runId) then acked
    else
      var sess := s.table[sid].(subscribers := s.table[sid].subscribers + [SubscriberOf(req)]);
      acked.(table := s.table[sid := sess], disk := Save(s.disk, sess, write))
  }

  function Start(s: State, req: LaunchRequest, write: WriteOutcome): State {
    var key := SessionKey(req);
    var sess := Session(key, req, [SubscriberOf(req)], false, Unset, Working);
    s.(sessions := s.sessions[key := |s.table|],
       table := s.table + [sess],
       disk := Save(s.disk, sess, write),
       acks := s.acks + [Ack(s.epoch, |s.table|, key, req, |s.log|)])
  }

  /** One session of the table is rewritten. */
  function Patch(s: State, sid: nat, sess: Session): State
    requires sid < |s.table|
  {
    s.(table := s.table[sid := sess])
  }

  /** handleCancel: only a session that is live and has registered its cancel function. */
  function CancelSession(s: State, key: string): State
    requires WellFormed(s)
  {
    if Live(s, key) && !s.table[s.sessions[key]].cancel.Unset? then
      Patch(s, s.sessions[key], s.table[s.sessions[key]].(cancel := Fired))
    else s
  }

  /** One critical section marks the session done and copies its subscribers. */
  function FinishSession(s: State, sid: nat, status: string): State
    requires sid < |s.table|
  {
    Patch(s, sid, s.table[sid].(done := true, phase := Delivering(s.table[sid].subscribers, 0, status)))
  }

  function DeliverNext(s: State, sid: nat): State
    requires sid < |s.table| && s.table[sid].phase.Delivering? && s.table[sid].phase.next < |s.table[sid].phase.snapshot|
  {
    var sess := s.table[sid];
    var phase := sess.phase;
    Patch(s, sid, sess.(phase := phase.(next := phase.next + 1)))
      .(log := s.log + [Callback(FromSession(s.epoch, sid), sess.key, phase.snapshot[phase.next], phase.status, WorkOf(sess.req))])
  }

  function Remove(s: State, sid: nat, removed: bool): State
    requires sid < |s.table|
  {
    Patch(s, sid, s.table[sid].(phase := Exited))
      .(disk := if removed then s.disk - {JournalName(s.table[sid].key)} else s.disk)
  }

  /** The head of the listing: skipped when unreadable, else opened for replay. */
  function Open(s: State, readable: bool): State
    requires s.recovery.Replaying? && s.recovery.current.Idle?
  {
    var todo := s.recovery.todo;
    if todo == [] then s.(recovery := Recovered)
    else if readable && todo[0] in s.disk then
      s.(recovery := Replaying(todo[1..], Notifying(todo[0], s.disk[todo[0]], 0)))
    else s.(recovery := Replaying(todo[1..], Idle))
  }

  function NotifyNext(s: State): State
    requires s.recovery.Replaying? && s.recovery.current.Notifying? && s.recovery.current.journal.Journal?
    requires s.recovery.current.next < |s.recovery.current.journal.subscribers|
  {
    var cur := s.recovery.current;
    s.(recovery := Replaying(s.recovery.todo, cur.(next := cur.next + 1)),
       log := s.log + [Callback(FromJournal, cur.journal.key, cur.journal.subscribers[cur.next], "crashed",
                                Work(cur.journal.repo, cur.journal.ticketKey, ""))])
  }

  function Discard(s: State, removed: bool): State
    requires s.recovery.Replaying? && s.recovery.current.Notifying?
  {
    s.(recovery := Replaying(s.recovery.todo, Idle),
       disk := if removed then s.disk - {s.recovery.current.path} else s.disk)
  }

  /** The process dies: memory is gone, the work directory and history stay. */
  function Restart(s: State): State {
    State(s.epoch + 1, map[], [], s.disk, NotListed, s.log, s.acks)
  }

  function Apply(s: State, e: Event): State
    requires WellFormed(s) && Enabled(s, e)
  {
    match e
    case Launch(req, write) => if Live(s, SessionKey(req)) then Join(s, req, write) else Start(s, req, write)
    case SetCancel(sid) => Patch(s, sid, s.table[sid].(cancel := Armed))
    case Cancel(key) => CancelSession(s, key)
    case Finish(sid, status) => FinishSession(s, sid, status)
    case Deliver(sid) => DeliverNext(s, sid)
    case RemoveJournal(sid, removed) => Remove(s, sid, removed)
    case ListJournals(listing) => s.(recovery := Replaying(listing, Idle))
    case ReadJournal(readable) => Open(s, readable)
    case NotifyCrashed => NotifyNext(s)
    case DiscardJournal(removed) => Discard(s, removed)
    case Crash => Restart(s)
  }

  predicate Init(s: State) {
    s == State(0, map[], [], map[], NotListed, [], [])
  }

  /** States `t` that a run of `events` can leave `s` in. */
  ghost predicate Run(s: State, events: seq<Event>, t: State)
    decreases |events|
  {
    if events == [] then s == t
    else WellFormed(s) && Enabled(s, events[0]) && Run(Apply(s, events[0]), events[1..], t)
  }
}

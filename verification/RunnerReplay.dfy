/** What a restarted runner does with the journals it finds, when it is left alone:
    exactly which callbacks are made, in which order, and which files stay. */
module RunnerReplay {
  import opened RunnerProtocol

  predicate OfRecovery(e: Event) { e.ReadJournal? || e.NotifyCrashed? || e.DiscardJournal? }

  /** For each file of the listing whether it could be read. */
  function Reads(events: seq<Event>): seq<bool> {
    if events == [] then []
    else (if events[0].ReadJournal? then [events[0].readable] else []) + Reads(events[1..])
  }

  /** The callbacks a journal calls for, from the k-th subscriber on: crashed, with what
      the journal knows of the work. */
  function CallsOf(f: File, k: nat): seq<Callback>
    decreases if f.Journal? && k < |f.subscribers| then |f.subscribers| - k else 0
  {
    if f.Garbled? || k >= |f.subscribers| then []
    else [Callback(FromJournal, f.key, f.subscribers[k], "crashed", Work(f.repo, f.ticketKey, ""))] + CallsOf(f, k + 1)
  }

  /** The callbacks for the files that are there and could be read, in listing order. */
  function CallsFor(disk: map<string, File>, listing: seq<string>, legible: seq<bool>): seq<Callback>
    decreases |listing|
  {
    if listing == [] || legible == [] then []
    else (if legible[0] && listing[0] in disk then CallsOf(disk[listing[0]], 0) else []) + CallsFor(disk, listing[1..], legible[1..])
  }

  function Begun(cur: Replay): seq<Callback> {
    if cur.Idle? then [] else CallsOf(cur.journal, cur.next)
  }

  ghost predicate OnceEach(r: Recovery) {
    r.Replaying? ==>
      && (forall i, j :: 0 <= i < j < |r.todo| ==> r.todo[i] != r.todo[j])
      && (r.current.Notifying? ==> r.current.path !in r.todo)
  }

  lemma {:induction false} OtherFileGone(disk: map<string, File>, path: string, listing: seq<string>, legible: seq<bool>)
    requires path !in listing
    ensures CallsFor(disk - {path}, listing, legible) == CallsFor(disk, listing, legible)
    decreases |listing|
  {
    if listing != [] && legible != [] { OtherFileGone(disk, path, listing[1..], legible[1..]); }
  }

  lemma Associate(a: seq<Callback>, b: seq<Callback>, c: seq<Callback>)
    ensures a + b + c == a + (b + c)
  {
  }

  /** What is still to be called, for the file at hand and those to come. */
  function Due(s: State, legible: seq<bool>): seq<Callback> {
    if s.recovery.Replaying? then Begun(s.recovery.current) + CallsFor(s.disk, s.recovery.todo, legible) else []
  }

  lemma ReadCalls(s: State, readable: bool, legible: seq<bool>)
    requires WellFormed(s) && Enabled(s, ReadJournal(readable)) && OnceEach(s.recovery)
    ensures OnceEach(Open(s, readable).recovery) && Open(s, readable).log == s.log
    ensures Due(s, [readable] + legible) == Due(Open(s, readable), legible)
  {
    assert ([readable] + legible)[1..] == legible;
  }

  lemma NotifyCalls(s: State, legible: seq<bool>)
    requires WellFormed(s) && Enabled(s, NotifyCrashed) && OnceEach(s.recovery)
    ensures OnceEach(NotifyNext(s).recovery)
    ensures s.log + Due(s, legible) == NotifyNext(s).log + Due(NotifyNext(s), legible)
  {
    var cur := s.recovery.current;
    var all, others := CallsOf(cur.journal, cur.next), CallsFor(s.disk, s.recovery.todo, legible);
    var first, rest := [all[0]], CallsOf(cur.journal, cur.next + 1);
    assert all == first + rest && NotifyNext(s).log == s.log + first;
    Associate(first, rest, others);
    Associate(s.log, first, rest + others);
  }

  lemma DiscardCalls(s: State, removed: bool, legible: seq<bool>)
    requires WellFormed(s) && Enabled(s, DiscardJournal(removed)) && OnceEach(s.recovery)
    ensures OnceEach(Discard(s, removed).recovery) && Discard(s, removed).log == s.log
    ensures Due(s, legible) == Due(Discard(s, removed), legible)
  {
    OtherFileGone(s.disk, s.recovery.current.path, s.recovery.todo, legible);
  }

  lemma StepCalls(s: State, e: Event, legible: seq<bool>)
    requires WellFormed(s) && OfRecovery(e) && Enabled(s, e) && OnceEach(s.recovery)
    ensures OnceEach(Apply(s, e).recovery)
    ensures s.log + Due(s, (if e.ReadJournal? then [e.readable] else []) + legible) == Apply(s, e).log + Due(Apply(s, e), legible)
  {
    match e
    case ReadJournal(readable) => ReadCalls(s, readable, legible);
    case NotifyCrashed => assert [] + legible == legible; NotifyCalls(s, legible);
    case DiscardJournal(removed) => assert [] + legible == legible; DiscardCalls(s, removed, legible);
  }

  /** Left alone, recovery calls exactly the subscribers of the listed journals that it
      could read, in order, each once and each as crashed. */
  lemma {:induction false} ReplayExactly(s: State, events: seq<Event>, t: State)
    requires WellFormed(s) && Run(s, events, t) && OnceEach(s.recovery) && t.recovery == Recovered
    requires forall i :: 0 <= i < |events| ==> OfRecovery(events[i])
    ensures t.log == s.log + Due(s, Reads(events))
    decreases |events|
  {
    if events != [] {
      var e, more := events[0], events[1..];
      StepCalls(s, e, Reads(more));
      ReplayExactly(Apply(s, e), more, t);
    }
  }

  // --------------------------------------------------------- the files it leaves

  /** No step of recovery writes a file, and only one that was opened may go. */
  lemma {:induction false} ReplayFiles(s: State, events: seq<Event>, t: State, p: string)
    requires WellFormed(s) && Run(s, events, t)
    requires forall i :: 0 <= i < |events| ==> OfRecovery(events[i])
    ensures p in t.disk ==> p in s.disk && t.disk[p] == s.disk[p]
    ensures p in s.disk && p !in t.disk && s.recovery.Replaying? ==>
              p in s.recovery.todo || (s.recovery.current.Notifying? && p == s.recovery.current.path)
    ensures t.table == s.table && t.sessions == s.sessions && t.acks == s.acks
    decreases |events|
  {
    if events != [] { ReplayFiles(Apply(s, events[0]), events[1..], t, p); }
  }
}

/** The adapter's message store serves retries: a message that came in or was sent can
    be looked up until five hundred others have been stored. */
module WhatsAppStore {
  import opened Wrappers
  import opened WhatsApp

  /** What an event puts into the store. */
  function Puts(e: Event): seq<Stored> {
    match e
    case Notify(msg, _) => if msg.id == "" then [] else [Stored(msg.id, msg.text)]
    case SendAck(id, body) => if id == "" || body.None? then [] else [Stored(id, body.value)]
    case _ => []
  }

  function AllPuts(events: seq<Event>): seq<Stored> {
    if events == [] then [] else Puts(events[0]) + AllPuts(events[1..])
  }

  /** The message is stored, and will be after any n drops from the front. */
  ghost predicate Holds(store: seq<Stored>, m: Stored, n: nat) {
    exists k :: 0 <= k < |store| && store[k] == m && |store| - k + n <= 500
  }

  lemma PutKeepsOther(store: seq<Stored>, m: Stored, put: Stored, n: nat)
    requires StoreOk(store) && Holds(store, m, n + 1) && put.id != m.id
    ensures Holds(Put(store, put.id, put.body), m, n)
  {
    var k :| 0 <= k < |store| && store[k] == m && |store| - k + (n + 1) <= 500;
    var j := Position(store, put.id);
    var grown := if j < |store| then store[j := put] else store + [put];
    assert grown[k] == m;
    if |grown| > 500 { assert grown[1..][k - 1] == m; }
  }

  lemma PutHolds(store: seq<Stored>, m: Stored)
    requires StoreOk(store) && forall k :: 0 <= k < |store| ==> store[k].id != m.id
    ensures Holds(Put(store, m.id, m.body), m, 499)
  {
    var grown := store + [m];
    assert grown[|store|] == m;
    if |grown| > 500 { assert grown[1..][|store| - 1] == m; }
  }

  lemma StepPuts(s: State, e: Event)
    requires Enabled(s, e)
    ensures Apply(s, e).store == if Puts(e) == [] then s.store else Put(s.store, Puts(e)[0].id, Puts(e)[0].body)
  {
  }

  lemma {:induction false} StaysStored(s: State, events: seq<Event>, m: Stored)
    requires Good(s) && Possible(s, events) && Holds(s.store, m, |AllPuts(events)|)
    requires forall p :: p in AllPuts(events) ==> p.id != m.id
    ensures m in Run(s, events).store
    decreases |events|
  {
    if events != [] {
      var e, more := events[0], events[1..];
      StepPuts(s, e);
      StepKeepsGood(s, e);
      if Puts(e) != [] {
        assert Puts(e)[0] in AllPuts(events);
        PutKeepsOther(s.store, m, Puts(e)[0], |AllPuts(more)|);
      }
      StaysStored(Apply(s, e), more, m);
    }
  }

  /** A message that came in or was sent under a new id is there, as it was, after any
      run that stores at most 499 other messages. */
  lemma {:induction false} RetriesAreServed(s: State, e: Event, between: seq<Event>)
    requires Good(s) && Enabled(s, e) && Possible(Apply(s, e), between)
    requires Puts(e) != [] && forall k :: 0 <= k < |s.store| ==> s.store[k].id != Puts(e)[0].id
    requires |AllPuts(between)| <= 499 && forall p :: p in AllPuts(between) ==> p.id != Puts(e)[0].id
    ensures Puts(e)[0] in Run(Apply(s, e), between).store
  {
    StepPuts(s, e);
    StepKeepsGood(s, e);
    var m := Puts(e)[0];
    PutHolds(s.store, m);
    var store := Apply(s, e).store;
    var k :| 0 <= k < |store| && store[k] == m && |store| - k + 499 <= 500;
    StaysStored(Apply(s, e), between, m);
  }
}

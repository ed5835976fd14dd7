/** One account of the WhatsApp adapter (services/api/whatsapp-adapter/server.js):
    which inbound messages are forwarded while replies are being sent. A handler
    runs to its next await undisturbed; everything else interleaves freely. */
module WhatsApp {
  import opened Wrappers

  datatype Entry = Entry(text: string, at: int)
  datatype Stored = Stored(id: string, body: string)
  datatype Msg = Msg(id: string, fromMe: bool, remote: string, text: string)

  /** What the account knows of its own addresses. */
  datatype Self = Self(id: string, lid: string, lidToPhone: map<string, string>)

  /** A forwarded message, with what was found when it was checked. */
  datatype Forward = Forward(msg: Msg, enabled: bool, self: bool)

  /** `waiting` holds handlers paused in resolveSelfLid; `forwarded` and `sends`
      record the whole past: what went to the agent, what the adapter sent. */
  datatype State = State(clock: int, selfChat: bool, self: Self, sentIds: seq<string>, recent: seq<Entry>,
                         store: seq<Stored>, waiting: seq<Forward>, forwarded: seq<Forward>, sends: seq<Entry>)

  datatype Event =
    | SendStart(text: string, now: int)
    | SendAck(id: string, body: Option<string>)
    | Notify(msg: Msg, now: int)
    | Resume(k: nat)
    | Configure(on: bool)
    | Learn(self: Self)

  const ECHO_WINDOW: int := 120000
  const RECENT_LIMIT: nat := 100
  const STORE_LIMIT: nat := 500
  const SENT_ID_LIMIT: nat := 1000

  // ---------------------------------------------------------------- addresses

  /** The part of a JID before its server and device. */
  function Bare(jid: string): string {
    if jid == "" || jid[0] == '@' || jid[0] == ':' then "" else [jid[0]] + Bare(jid[1..])
  }

  predicate IsLid(jid: string) { |jid| >= 4 && jid[|jid| - 4..] == "@lid" }

  predicate IsSelfPeer(self: Self, remote: string) {
    var bare, own := Bare(remote), Bare(self.id);
    && bare != ""
    && (|| (own != "" && bare == own)
        || (Bare(self.lid) != "" && bare == Bare(self.lid))
        || (IsLid(remote) && own != "" && bare in self.lidToPhone && self.lidToPhone[bare] == own))
  }

  function LearnLid(self: Self, remote: string): Self {
    if self.lid == "" && IsLid(remote) then self.(lid := remote) else self
  }

  // ------------------------------------------------------------------- stores

  function Position(store: seq<Stored>, id: string): (k: nat)
    ensures k <= |store| && (k < |store| ==> store[k].id == id)
  {
    if store == [] || store[0].id == id then 0 else 1 + Position(store[1..], id)
  }

  /** Map.set, then drop the oldest key beyond the limit. */
  function Put(store: seq<Stored>, id: string, body: string): seq<Stored> {
    var k := Position(store, id);
    var grown := if k < |store| then store[k := Stored(id, body)] else store + [Stored(id, body)];
    if |grown| > STORE_LIMIT then grown[1..] else grown
  }

  function PutIf(store: seq<Stored>, id: string, body: string): seq<Stored> {
    if id == "" then store else Put(store, id, body)
  }

  function Filter(s: seq<Entry>, cutoff: int): seq<Entry> {
    if s == [] then [] else (if s[0].at > cutoff then [s[0]] else []) + Filter(s[1..], cutoff)
  }

  predicate HasText(s: seq<Entry>, text: string) { exists e :: e in s && e.text == text }

  function Push(recent: seq<Entry>, e: Entry): seq<Entry> {
    if |recent| + 1 > RECENT_LIMIT then (recent + [e])[1..] else recent + [e]
  }

  function Without(s: seq<string>, id: string): seq<string> {
    if s == [] then [] else if s[0] == id then s[1..] else [s[0]] + Without(s[1..], id)
  }

  function Forget(sentIds: seq<string>, id: string): seq<string> {
    var rest := Without(sentIds, id);
    if |rest| > SENT_ID_LIMIT then rest[1..] else rest
  }

  // -------------------------------------------------------------------- steps

  /** A from_me message that is not one of the recorded ids. */
  function NotifyOwn(s: State, msg: Msg, now: int): State {
    if !s.selfChat then s
    else
      var recent := Filter(s.recent, now - ECHO_WINDOW);
      var t := s.(recent := recent);
      if msg.text != "" && HasText(recent, msg.text) then t
      else if IsSelfPeer(s.self, msg.remote) then
        t.(self := LearnLid(s.self, msg.remote), forwarded := s.forwarded + [Forward(msg, s.selfChat, IsSelfPeer(s.self, msg.remote))])
      else if s.self.lid == "" then t.(waiting := s.waiting + [Forward(msg, s.selfChat, false)])
      else t
  }

  function NotifyStep(s: State, msg: Msg, now: int): State {
    var t := s.(clock := now, store := PutIf(s.store, msg.id, msg.text));
    if !msg.fromMe then t.(forwarded := s.forwarded + [Forward(msg, s.selfChat, IsSelfPeer(s.self, msg.remote))])
    else if msg.id != "" && msg.id in s.sentIds then t.(sentIds := Forget(s.sentIds, msg.id))
    else NotifyOwn(t, msg, now)
  }

  /** After the address lookup the peer is checked once more. */
  function ResumeStep(s: State, k: nat): State
    requires k < |s.waiting|
  {
    var w := s.waiting[k];
    var t := s.(waiting := s.waiting[..k] + s.waiting[k + 1..]);
    if !IsSelfPeer(s.self, w.msg.remote) then t
    else t.(self := LearnLid(s.self, w.msg.remote), forwarded := s.forwarded + [w.(self := IsSelfPeer(s.self, w.msg.remote))])
  }

  function SendStep(s: State, text: string, now: int): State {
    if text == "" then s.(clock := now)
    else s.(clock := now, recent := Push(s.recent, Entry(text, now)), sends := s.sends + [Entry(text, now)])
  }

  function AckStep(s: State, id: string, body: Option<string>): State {
    if id == "" then s
    else s.(sentIds := if id in s.sentIds then s.sentIds else s.sentIds + [id],
            store := if body.Some? then Put(s.store, id, body.value) else s.store)
  }

  /** The clock never runs backwards, and only a paused handler resumes. */
  predicate Enabled(s: State, e: Event) {
    match e
    case SendStart(_, now) => now >= s.clock
    case Notify(_, now) => now >= s.clock
    case Resume(k) => k < |s.waiting|
    case _ => true
  }

  function Apply(s: State, e: Event): State
    requires Enabled(s, e)
  {
    match e
    case SendStart(text, now) => SendStep(s, text, now)
    case SendAck(id, body) => AckStep(s, id, body)
    case Notify(msg, now) => NotifyStep(s, msg, now)
    case Resume(k) => ResumeStep(s, k)
    case Configure(on) => s.(selfChat := on)
    case Learn(self) => s.(self := self)
  }

  predicate Possible(s: State, events: seq<Event>)
    decreases |events|
  {
    events == [] || (Enabled(s, events[0]) && Possible(Apply(s, events[0]), events[1..]))
  }

  function Run(s: State, events: seq<Event>): State
    requires Possible(s, events)
    decreases |events|
  {
    if events == [] then s else Run(Apply(s, events[0]), events[1..])
  }

  function Init(clock: int): State {
    State(clock, false, Self("", "", map[]), [], [], [], [], [], [])
  }

  // ------------------------------------------------------------ the invariant

  predicate Ordered(s: seq<Entry>) { forall i, j :: 0 <= i < j < |s| ==> s[i].at <= s[j].at }

  /** The recent texts are the end of all texts sent; what is missing from the last
      hundred has expired. */
  predicate RecentIsTail(recent: seq<Entry>, sends: seq<Entry>, clock: int) {
    && Ordered(sends) && (forall i :: 0 <= i < |sends| ==> sends[i].at <= clock)
    && |recent| <= 100 && |recent| <= |sends|
    && recent == sends[|sends| - |recent|..]
    && forall i :: 0 <= i < |sends| - |recent| && i >= |sends| - 100 ==> sends[i].at <= clock - 120000
  }

  predicate StoreOk(store: seq<Stored>) {
    |store| <= 500 && forall i, j :: 0 <= i < j < |store| ==> store[i].id != store[j].id
  }

  predicate Distinct(ids: seq<string>) { forall i, j :: 0 <= i < j < |ids| ==> ids[i] != ids[j] }

  predicate Checked(f: Forward) { f.msg.fromMe ==> f.enabled && f.self }

  predicate Good(s: State) {
    && RecentIsTail(s.recent, s.sends, s.clock)
    && StoreOk(s.store) && Distinct(s.sentIds)
    && (forall f :: f in s.forwarded ==> Checked(f))
    && (forall w :: w in s.waiting ==> w.msg.fromMe && w.enabled)
  }

  lemma {:induction false} FilterKeepsAll(s: seq<Entry>, cutoff: int)
    requires forall i :: 0 <= i < |s| ==> s[i].at > cutoff
    ensures Filter(s, cutoff) == s
  {
    if s != [] {
      FilterKeepsAll(s[1..], cutoff);
      assert [s[0]] + s[1..] == s;
    }
  }

  lemma {:induction false} FilterIsTail(s: seq<Entry>, cutoff: int) returns (k: nat)
    requires Ordered(s)
    ensures k <= |s| && Filter(s, cutoff) == s[k..]
    ensures (forall i :: 0 <= i < k ==> s[i].at <= cutoff) && (forall i :: k <= i < |s| ==> s[i].at > cutoff)
  {
    k := 0;
    if s != [] {
      if s[0].at > cutoff {
        FilterKeepsAll(s, cutoff);
      } else {
        var rest := s[1..];
        var n := FilterIsTail(rest, cutoff);
        k := n + 1;
        assert forall i :: 1 <= i < |s| ==> s[i] == rest[i - 1];
        assert rest[n..] == s[k..];
      }
    }
  }

  lemma PruneKeepsTail(recent: seq<Entry>, sends: seq<Entry>, clock: int, now: int)
    requires RecentIsTail(recent, sends, clock) && now >= clock
    ensures RecentIsTail(Filter(recent, now - ECHO_WINDOW), sends, now)
  {
    var k := FilterIsTail(recent, now - ECHO_WINDOW);
    var pruned, n := recent[k..], |sends| - |recent|;
    assert forall i :: 0 <= i < |recent| ==> recent[i] == sends[n + i];
    assert pruned == sends[n + k..];
    forall i | 0 <= i < |sends| - |pruned| && i >= |sends| - RECENT_LIMIT ensures sends[i].at <= now - ECHO_WINDOW {
      if i >= n { assert sends[i] == recent[i - n]; }
    }
  }

  lemma PutKeepsStore(store: seq<Stored>, id: string, body: string)
    requires StoreOk(store)
    ensures StoreOk(Put(store, id, body))
  {
    PositionMissing(store, id);
  }

  lemma {:induction false} PositionMissing(store: seq<Stored>, id: string)
    ensures Position(store, id) == |store| ==> forall i :: 0 <= i < |store| ==> store[i].id != id
  {
    if store != [] {
      PositionMissing(store[1..], id);
      assert forall i :: 1 <= i < |store| ==> store[i] == store[1..][i - 1];
    }
  }

  lemma {:induction false} WithoutExactly(s: seq<string>, id: string)
    requires Distinct(s)
    ensures Distinct(Without(s, id)) && forall x :: x in Without(s, id) <==> x in s && x != id
    ensures |Without(s, id)| == |s| - (if id in s then 1 else 0)
  {
    if s != [] {
      var rest := s[1..];
      assert s == [s[0]] + rest;
      assert s[0] !in rest by {
        forall k | 0 <= k < |rest| ensures rest[k] != s[0] { assert s[k + 1] == rest[k]; }
      }
      assert Distinct(rest) by {
        forall i, j | 0 <= i < j < |rest| ensures rest[i] != rest[j] { assert s[i + 1] == rest[i] && s[j + 1] == rest[j]; }
      }
      if s[0] != id { WithoutExactly(rest, id); }
    }
  }

  /** An id that is used up is forgotten, and with it, beyond a thousand others, the oldest. */
  lemma ForgetExactly(s: seq<string>, id: string)
    requires Distinct(s) && id in s
    ensures Distinct(Forget(s, id))
    ensures |s| <= 1001 ==> forall x :: x in Forget(s, id) <==> x in s && x != id
    ensures |s| > 1001 ==>
              var oldest := if s[0] == id then s[1] else s[0];
              forall x :: x in Forget(s, id) <==> x in s && x != id && x != oldest
  {
    WithoutExactly(s, id);
    var rest := Without(s, id);
    if |s| > 1001 {
      assert rest[0] == if s[0] == id then s[1] else s[0];
      assert rest == [rest[0]] + rest[1..];
    }
  }

  // ------------------------------------------------------------- step by step

  lemma AddForward(s: State, f: Forward)
    requires Good(s) && Checked(f)
    ensures forall g :: g in s.forwarded + [f] ==> Checked(g)
  {
  }

  lemma NotifyOwnGood(s: State, msg: Msg, now: int)
    requires Good(s) && now >= s.clock && s.clock == now && msg.fromMe
    ensures Good(NotifyOwn(s, msg, now))
  {
    if s.selfChat {
      var t := s.(recent := Filter(s.recent, now - ECHO_WINDOW));
      PruneGood(s, now);
      var f := Forward(msg, s.selfChat, IsSelfPeer(s.self, msg.remote));
      if f.self { ForwardGood(t, f); } else { WaitGood(t, f); }
    }
  }

  lemma PruneGood(s: State, now: int)
    requires Good(s) && now == s.clock
    ensures Good(s.(recent := Filter(s.recent, now - ECHO_WINDOW)))
  {
    PruneKeepsTail(s.recent, s.sends, s.clock, now);
  }

  lemma ForwardGood(s: State, f: Forward)
    requires Good(s) && Checked(f)
    ensures Good(s.(self := LearnLid(s.self, f.msg.remote), forwarded := s.forwarded + [f]))
  {
  }

  lemma WaitGood(s: State, f: Forward)
    requires Good(s) && f.msg.fromMe && f.enabled
    ensures Good(s.(waiting := s.waiting + [f]))
  {
  }

  lemma NotifyGood(s: State, msg: Msg, now: int)
    requires Good(s) && now >= s.clock
    ensures Good(NotifyStep(s, msg, now))
  {
    if msg.id != "" { PutKeepsStore(s.store, msg.id, msg.text); }
    var t := s.(clock := now, store := PutIf(s.store, msg.id, msg.text));
    if !msg.fromMe {
      AddForward(s, Forward(msg, s.selfChat, IsSelfPeer(s.self, msg.remote)));
    } else if msg.id != "" && msg.id in s.sentIds {
      ForgetExactly(s.sentIds, msg.id);
    } else {
      NotifyOwnGood(t, msg, now);
    }
  }

  lemma ResumeGood(s: State, k: nat)
    requires Good(s) && k < |s.waiting|
    ensures Good(ResumeStep(s, k))
  {
  }

  lemma PushKeepsTail(recent: seq<Entry>, sends: seq<Entry>, clock: int, e: Entry)
    requires RecentIsTail(recent, sends, clock) && e.at >= clock
    ensures RecentIsTail(Push(recent, e), sends + [e], e.at)
  {
    assert (sends + [e])[|sends| - |recent|..] == recent + [e];
  }

  lemma SendGood(s: State, text: string, now: int)
    requires Good(s) && now >= s.clock
    ensures Good(SendStep(s, text, now))
  {
    if text != "" { PushKeepsTail(s.recent, s.sends, s.clock, Entry(text, now)); }
  }

  lemma AckGood(s: State, id: string, body: Option<string>)
    requires Good(s)
    ensures Good(AckStep(s, id, body))
  {
    if body.Some? { PutKeepsStore(s.store, id, body.value); }
  }

  lemma StepKeepsGood(s: State, e: Event)
    requires Good(s) && Enabled(s, e)
    ensures Good(Apply(s, e))
  {
    match e
    case SendStart(text, now) => SendGood(s, text, now);
    case SendAck(id, body) => AckGood(s, id, body);
    case Notify(msg, now) => NotifyGood(s, msg, now);
    case Resume(k) => ResumeGood(s, k);
    case Configure(_) =>
    case Learn(_) =>
  }

  lemma {:induction false} RunKeepsGood(s: State, events: seq<Event>)
    requires Good(s) && Possible(s, events)
    ensures Good(Run(s, events)) && Run(s, events).clock >= s.clock
    decreases |events|
  {
    if events != [] {
      StepKeepsGood(s, events[0]);
      RunKeepsGood(Apply(s, events[0]), events[1..]);
    }
  }

  /** In every run from the start: at most 500 stored messages, at most 100 recent
      texts, and every message from the owner that reached the agent had self-chat
      enabled when it came in and his own address as its peer when that was last checked. */
  lemma {:induction false} EveryRunIsBounded(clock: int, events: seq<Event>, f: Forward)
    requires Possible(Init(clock), events)
    ensures var s := Run(Init(clock), events);
            && |s.store| <= 500 && |s.recent| <= 100
            && (f in s.forwarded && f.msg.fromMe ==> f.enabled && f.self)
  {
    RunKeepsGood(Init(clock), events);
  }

  // ----------------------------------------------------------------- programs

  /** The account object and its handlers, up to each await. */
  class Account {
    var clock: int
    var selfChat: bool
    var self: Self
    var sentIds: seq<string>
    var recent: seq<Entry>
    var store: seq<Stored>
    var waiting: seq<Forward>
    var forwarded: seq<Forward>
    ghost var sends: seq<Entry>

    ghost function View(): State
      reads this
    {
      State(clock, selfChat, self, sentIds, recent, store, waiting, forwarded, sends)
    }

    constructor (clock: int)
      ensures View() == Init(clock) && Good(View())
    {
      this.clock, selfChat, self := clock, false, Self("", "", map[]);
      sentIds, recent, store, waiting, forwarded := [], [], [], [], [];
      sends := [];
    }

    /** /send, up to the message being handed to the socket. */
    method RecordText(text: string, now: int)
      requires now >= clock
      modifies this
      ensures View() == Apply(old(View()), SendStart(text, now))
    {
      clock := now;
      if text != "" {
        recent := recent + [Entry(text, now)];
        if |recent| > RECENT_LIMIT { recent := recent[1..]; }
        sends := sends + [Entry(text, now)];
      }
    }

    method Remember(id: string, body: string)
      modifies this`store
      ensures store == Put(old(store), id, body)
    {
      var k := Position(store, id);
      store := if k < |store| then store[k := Stored(id, body)] else store + [Stored(id, body)];
      if |store| > STORE_LIMIT { store := store[1..]; }
    }

    /** /send, once the socket has accepted the message. */
    method RecordAck(id: string, body: Option<string>)
      modifies this
      ensures View() == Apply(old(View()), SendAck(id, body))
    {
      if id != "" {
        if id !in sentIds { sentIds := sentIds + [id]; }
        if body.Some? { Remember(id, body.value); }
      }
    }

    method OnMessage(msg: Msg, now: int)
      requires now >= clock
      modifies this
      ensures View() == Apply(old(View()), Notify(msg, now))
    {
      clock := now;
      if msg.id != "" { Remember(msg.id, msg.text); }
      if !msg.fromMe {
        forwarded := forwarded + [Forward(msg, selfChat, IsSelfPeer(self, msg.remote))];
        return;
      }
      if msg.id != "" && msg.id in sentIds {
        sentIds := Without(sentIds, msg.id);
        if |sentIds| > SENT_ID_LIMIT { sentIds := sentIds[1..]; }
        return;
      }
      OnOwnMessage(msg, now);
    }

    /** A message of the owner's that is not a recorded id. */
    method OnOwnMessage(msg: Msg, now: int)
      modifies this
      ensures View() == NotifyOwn(old(View()), msg, now)
    {
      if !selfChat { return; }
      recent := Filter(recent, now - ECHO_WINDOW);
      if msg.text != "" && HasText(recent, msg.text) { return; }
      if IsSelfPeer(self, msg.remote) {
        Deliver(Forward(msg, selfChat, IsSelfPeer(self, msg.remote)));
      } else if self.lid == "" {
        waiting := waiting + [Forward(msg, selfChat, false)];
      }
    }

    method Deliver(f: Forward)
      modifies this`self, this`forwarded
      ensures self == LearnLid(old(self), f.msg.remote) && forwarded == old(forwarded) + [f]
    {
      if self.lid == "" && IsLid(f.msg.remote) { self := self.(lid := f.msg.remote); }
      forwarded := forwarded + [f];
    }

    /** The rest of the handler, after resolveSelfLid. */
    method Recheck(k: nat)
      requires k < |waiting|
      modifies this
      ensures View() == Apply(old(View()), Resume(k))
    {
      var w := waiting[k];
      waiting := waiting[..k] + waiting[k + 1..];
      if IsSelfPeer(self, w.msg.remote) { Deliver(w.(self := IsSelfPeer(self, w.msg.remote))); }
    }
  }
}

/** What becomes of each message that comes in while replies are being sent: messages
    from other people reach the agent, the echoes of the adapter's own do not. */
module WhatsAppFate {
  import opened Wrappers
  import opened WhatsApp

  // --------------------------------------------------------- echo suppression

  /** The text was sent less than two minutes ago and is one of the last hundred. */
  ghost predicate RecentlySent(sends: seq<Entry>, text: string, now: int) {
    exists i :: 0 <= i < |sends| && i >= |sends| - 100 && sends[i].text == text && sends[i].at > now - 120000
  }

  lemma FoundWasSent(kept: seq<Entry>, sends: seq<Entry>, now: int, text: string)
    requires RecentIsTail(kept, sends, now) && (forall i :: 0 <= i < |kept| ==> kept[i].at > now - ECHO_WINDOW)
    requires HasText(kept, text)
    ensures RecentlySent(sends, text, now)
  {
  }

  lemma SentIsFound(kept: seq<Entry>, sends: seq<Entry>, now: int, text: string)
    requires RecentIsTail(kept, sends, now) && RecentlySent(sends, text, now)
    ensures HasText(kept, text)
  {
  }

  /** The pruned list finds a text exactly when it was recently sent. */
  lemma {:induction false} GuardIsExact(recent: seq<Entry>, sends: seq<Entry>, clock: int, now: int, text: string)
    requires RecentIsTail(recent, sends, clock) && now >= clock
    ensures HasText(Filter(recent, now - ECHO_WINDOW), text) <==> RecentlySent(sends, text, now)
  {
    var k := FilterIsTail(recent, now - ECHO_WINDOW);
    var kept := Filter(recent, now - ECHO_WINDOW);
    PruneKeepsTail(recent, sends, clock, now);
    forall i | 0 <= i < |kept| ensures kept[i].at > now - ECHO_WINDOW { assert kept[i] == recent[k + i]; }
    if HasText(kept, text) { FoundWasSent(kept, sends, now, text); }
    if RecentlySent(sends, text, now) { SentIsFound(kept, sends, now, text); }
  }

  // ------------------------------------------------- what becomes of a message

  predicate UserPart(user: string) { forall i :: 0 <= i < |user| ==> user[i] != '@' && user[i] != ':' }
  predicate ServerPart(server: string) { server == "" || server[0] == '@' || server[0] == ':' }

  lemma {:induction false} BareIsUser(user: string, server: string)
    requires UserPart(user) && ServerPart(server)
    ensures Bare(user + server) == user
  {
    if user == "" {
      assert user + server == server;
    } else {
      assert (user + server)[0] == user[0] && (user + server)[1..] == user[1..] + server;
      BareIsUser(user[1..], server);
    }
  }

  predicate EndsIn(s: string, tail: string) { |tail| <= |s| && s[|s| - |tail|..] == tail }

  lemma LidByServer(user: string, server: string)
    requires UserPart(user) && ServerPart(server)
    ensures IsLid(user + server) <==> EndsIn(server, "@lid")
  {
    var jid := user + server;
    if |server| >= 4 {
      assert jid[|jid| - 4..] == server[|server| - 4..];
    } else if |jid| >= 4 {
      assert jid[|jid| - 4..][0] == user[|jid| - 4];
    }
  }

  /** Peers are compared by the part before server and device: with the own number, with
      the own LID, and, for an address that is a LID, with the number the map has for it. */
  lemma SelfPeerExactly(own: string, lid: string, phones: map<string, string>, peer: string, servers: (string, string, string))
    requires UserPart(own) && UserPart(lid) && UserPart(peer)
    requires ServerPart(servers.0) && ServerPart(servers.1) && ServerPart(servers.2)
    ensures IsSelfPeer(Self(own + servers.0, lid + servers.1, phones), peer + servers.2) <==>
            peer != "" && (peer == own || peer == lid || (EndsIn(servers.2, "@lid") && own != "" && peer in phones && phones[peer] == own))
  {
    BareIsUser(own, servers.0);
    BareIsUser(lid, servers.1);
    BareIsUser(peer, servers.2);
    LidByServer(peer, servers.2);
  }

  /** A message from somebody else goes to the agent, whatever else holds. */
  lemma OthersAreForwarded(s: State, msg: Msg, now: int)
    requires !msg.fromMe
    ensures |NotifyStep(s, msg, now).forwarded| == |s.forwarded| + 1
    ensures NotifyStep(s, msg, now).forwarded[..|s.forwarded|] == s.forwarded
    ensures NotifyStep(s, msg, now).forwarded[|s.forwarded|].msg == msg
    ensures NotifyStep(s, msg, now).waiting == s.waiting && NotifyStep(s, msg, now).sentIds == s.sentIds
  {
  }

  /** The owner's message passes the filters for ids, self-chat and recent texts. */
  ghost predicate Admitted(s: State, msg: Msg, now: int) {
    (msg.id == "" || msg.id !in s.sentIds) && s.selfChat && (msg.text == "" || !RecentlySent(s.sends, msg.text, now))
  }

  /** What becomes of a message of the owner's: when it is admitted, it goes to the agent
      from his own chat and waits for the address lookup from any other while his LID is
      not known; in every other case it is dropped. */
  lemma OwnMessageFate(s: State, msg: Msg, now: int)
    requires Good(s) && now >= s.clock && msg.fromMe
    ensures var t := NotifyStep(s, msg, now);
            && t.forwarded == s.forwarded + (if Admitted(s, msg, now) && IsSelfPeer(s.self, msg.remote) then [Forward(msg, true, true)] else [])
            && t.waiting == s.waiting + (if Admitted(s, msg, now) && !IsSelfPeer(s.self, msg.remote) && s.self.lid == "" then [Forward(msg, true, false)] else [])
  {
    GuardIsExact(s.recent, s.sends, s.clock, now, msg.text);
  }

  lemma PrunedAreYoung(recent: seq<Entry>, now: int, i: nat)
    requires Ordered(recent) && i < |Filter(recent, now - ECHO_WINDOW)|
    ensures Filter(recent, now - ECHO_WINDOW)[i].at > now - 120000
  {
    var k := FilterIsTail(recent, now - ECHO_WINDOW);
    assert recent[k..][i] == recent[k + i];
  }

  /** What else a message of the owner's leaves behind: his LID, learned when it goes to
      the agent from a LID and none was known; only texts under two minutes old; and the
      recorded ids without its own. */
  lemma OwnMessageTraces(s: State, msg: Msg, now: int)
    requires Good(s) && now >= s.clock && msg.fromMe
    ensures var t := NotifyStep(s, msg, now);
            && t.sends == s.sends && t.selfChat == s.selfChat && t.clock == now
            && t.self == (if Admitted(s, msg, now) && IsSelfPeer(s.self, msg.remote) && s.self.lid == "" && EndsIn(msg.remote, "@lid")
                          then s.self.(lid := msg.remote) else s.self)
            && (msg.id == "" || msg.id !in s.sentIds ==> t.sentIds == s.sentIds)
            && (msg.id != "" && msg.id in s.sentIds ==> t.recent == s.recent && msg.id !in t.sentIds)
  {
    GuardIsExact(s.recent, s.sends, s.clock, now, msg.text);
    if msg.id in s.sentIds { ForgetExactly(s.sentIds, msg.id); }
  }

  /** With self-chat on, a message whose id was not recorded clears out the old texts. */
  lemma OldTextsGo(s: State, msg: Msg, now: int)
    requires Good(s) && now >= s.clock && msg.fromMe && s.selfChat && (msg.id == "" || msg.id !in s.sentIds)
    ensures forall i :: 0 <= i < |NotifyStep(s, msg, now).recent| ==> NotifyStep(s, msg, now).recent[i].at > now - 120000
  {
    var kept := Filter(s.recent, now - ECHO_WINDOW);
    forall i | 0 <= i < |kept| ensures kept[i].at > now - 120000 { PrunedAreYoung(s.recent, now, i); }
  }

  /** A paused message goes to the agent exactly when its peer has turned out to be the
      owner; either way it waits no longer, and no other message moves. */
  lemma ResumedFate(s: State, k: nat)
    requires Good(s) && k < |s.waiting|
    ensures var t, msg := ResumeStep(s, k), s.waiting[k].msg;
            && t.forwarded == s.forwarded + (if IsSelfPeer(s.self, msg.remote) then [Forward(msg, true, true)] else [])
            && s.waiting == t.waiting[..k] + [s.waiting[k]] + t.waiting[k..]
            && t == s.(forwarded := t.forwarded, waiting := t.waiting, self := t.self)
            && t.self == if IsSelfPeer(s.self, msg.remote) && s.self.lid == "" && EndsIn(msg.remote, "@lid") then s.self.(lid := msg.remote) else s.self
  {
    assert s.waiting[k] in s.waiting;
  }

  /** The messages from other people among those forwarded, in order. */
  function FromOthers(forwarded: seq<Forward>): seq<Msg> {
    if forwarded == [] then [] else (if forwarded[0].msg.fromMe then [] else [forwarded[0].msg]) + FromOthers(forwarded[1..])
  }

  /** The messages from other people that came in. */
  function Received(events: seq<Event>): seq<Msg> {
    if events == [] then []
    else ReceivedBy(events[0]) + Received(events[1..])
  }

  lemma {:induction false} FromOthersSnoc(forwarded: seq<Forward>, f: Forward)
    ensures FromOthers(forwarded + [f]) == FromOthers(forwarded) + if f.msg.fromMe then [] else [f.msg]
  {
    if forwarded != [] {
      assert (forwarded + [f])[1..] == forwarded[1..] + [f];
      FromOthersSnoc(forwarded[1..], f);
    }
  }

  predicate OwnWait(s: State) { forall k :: 0 <= k < |s.waiting| ==> s.waiting[k].msg.fromMe }

  lemma StepKeepsOwnWait(s: State, e: Event)
    requires OwnWait(s) && Enabled(s, e)
    ensures OwnWait(Apply(s, e))
  {
  }

  lemma StepForwardsOthers(s: State, e: Event)
    requires OwnWait(s) && Enabled(s, e)
    ensures FromOthers(Apply(s, e).forwarded) == FromOthers(s.forwarded) + ReceivedBy(e)
  {
    var t := Apply(s, e);
    if |t.forwarded| > |s.forwarded| {
      assert t.forwarded == s.forwarded + [t.forwarded[|s.forwarded|]];
      FromOthersSnoc(s.forwarded, t.forwarded[|s.forwarded|]);
    }
  }

  /** What the event brings in from other people. */
  function ReceivedBy(e: Event): seq<Msg> { if e.Notify? && !e.msg.fromMe then [e.msg] else [] }

  lemma {:induction false} ForwardsOthers(s: State, events: seq<Event>, was: seq<Msg>)
    requires OwnWait(s) && Possible(s, events) && FromOthers(s.forwarded) == was
    ensures FromOthers(Run(s, events).forwarded) == was + Received(events)
    decreases |events|
  {
    if events == [] {
      assert was + [] == was;
    } else {
      StepForwardsOthers(s, events[0]);
      StepKeepsOwnWait(s, events[0]);
      ForwardsOthers(Apply(s, events[0]), events[1..], was + ReceivedBy(events[0]));
      Associate(was, ReceivedBy(events[0]), Received(events[1..]));
    }
  }

  lemma Associate(a: seq<Msg>, b: seq<Msg>, c: seq<Msg>)
    ensures a + b + c == a + (b + c)
  {
  }

  /** In every run, what reaches the agent from other people is what they sent: all of
      it, in order, each message once. */
  lemma {:induction false} OthersReachTheAgent(clock: int, events: seq<Event>)
    requires Possible(Init(clock), events)
    ensures FromOthers(Run(Init(clock), events).forwarded) == Received(events)
  {
    ForwardsOthers(Init(clock), events, []);
  }

  /** The echo of a recently sent text goes no further, whether or not its id has
      been recorded yet. */
  lemma EchoStops(s: State, msg: Msg, now: int)
    requires Good(s) && now >= s.clock && msg.fromMe && msg.text != "" && RecentlySent(s.sends, msg.text, now)
    ensures NotifyStep(s, msg, now).forwarded == s.forwarded && NotifyStep(s, msg, now).waiting == s.waiting
  {
    GuardIsExact(s.recent, s.sends, s.clock, now, msg.text);
  }

  /** The texts recorded along a run. */
  function Texts(events: seq<Event>): seq<Entry>
    decreases |events|
  {
    if events == [] then []
    else (if events[0].SendStart? && events[0].text != "" then [Entry(events[0].text, events[0].now)] else []) + Texts(events[1..])
  }

  lemma {:induction false} SendsRecorded(s: State, events: seq<Event>)
    requires Possible(s, events)
    ensures Run(s, events).sends == s.sends + Texts(events)
    decreases |events|
  {
    if events != [] { SendsRecorded(Apply(s, events[0]), events[1..]); }
  }

  /** However sends, acknowledgements and echoes interleave: an echo that arrives less
      than two minutes after its text was recorded, with fewer than a hundred other
      texts in between, is never forwarded and never waits to be. */
  lemma {:induction false} EchoNeverForwarded(s: State, text: string, at: int, between: seq<Event>, msg: Msg, now: int)
    requires Good(s) && at >= s.clock && text != "" && msg.fromMe && msg.text == text
    requires Possible(SendStep(s, text, at), between) && now >= Run(SendStep(s, text, at), between).clock
    requires now - at < 120000 && |Texts(between)| < 100
    ensures var before := Run(SendStep(s, text, at), between);
            NotifyStep(before, msg, now).forwarded == before.forwarded && NotifyStep(before, msg, now).waiting == before.waiting
  {
    var sent := SendStep(s, text, at);
    StepKeepsGood(s, SendStart(text, at));
    RunKeepsGood(sent, between);
    SendsRecorded(sent, between);
    var before := Run(sent, between);
    assert before.sends[|s.sends|] == Entry(text, at);
    assert RecentlySent(before.sends, text, now);
    EchoStops(before, msg, now);
  }

  /** An address learned from a self-chat message admits no peer but that address. */
  lemma {:induction false} LearningAdmitsOnlyItself(self: Self, remote: string, peer: string)
    requires IsSelfPeer(self, remote) && self.lid == "" && IsLid(remote)
    ensures IsSelfPeer(LearnLid(self, remote), peer) <==> IsSelfPeer(self, peer) || Bare(peer) == Bare(remote)
  {
    assert Bare("") == "";
  }

  // ----------------------------------------------------------------- settings

  lemma {:induction false} SettingsHold(s: State, events: seq<Event>)
    requires Possible(s, events)
    ensures (forall i :: 0 <= i < |events| ==> !events[i].Configure?) ==> Run(s, events).selfChat == s.selfChat
    ensures (forall i :: 0 <= i < |events| ==> !events[i].Learn?) ==>
              var self := Run(s, events).self;
              self.id == s.self.id && self.lidToPhone == s.self.lidToPhone && (s.self.lid != "" ==> self.lid == s.self.lid)
    decreases |events|
  {
    if events != [] { SettingsHold(Apply(s, events[0]), events[1..]); }
  }

  /** What was configured or looked up last holds until the next time; in between only an
      unknown LID can be learned. */
  lemma {:induction false} SettingsAreLatest(s: State, e: Event, after: seq<Event>)
    requires Enabled(s, e) && Possible(Apply(s, e), after)
    ensures e.Configure? && (forall i :: 0 <= i < |after| ==> !after[i].Configure?) ==> Run(Apply(s, e), after).selfChat == e.on
    ensures e.Learn? && (forall i :: 0 <= i < |after| ==> !after[i].Learn?) ==>
              var self := Run(Apply(s, e), after).self;
              self.id == e.self.id && self.lidToPhone == e.self.lidToPhone && (e.self.lid != "" ==> self.lid == e.self.lid)
  {
    SettingsHold(Apply(s, e), after);
  }

  predicate Quiet(s: State) {
    !s.selfChat && s.waiting == [] && forall i :: 0 <= i < |s.forwarded| ==> !s.forwarded[i].msg.fromMe
  }

  lemma {:induction false} StaysQuiet(s: State, events: seq<Event>)
    requires Quiet(s) && Possible(s, events) && forall i :: 0 <= i < |events| ==> events[i] != Configure(true)
    ensures Quiet(Run(s, events))
    decreases |events|
  {
    if events != [] { StaysQuiet(Apply(s, events[0]), events[1..]); }
  }

  /** Until somebody turns self-chat on, no message of the owner's reaches the agent. */
  lemma {:induction false} SelfChatIsOptIn(clock: int, events: seq<Event>, k: nat)
    requires Possible(Init(clock), events) && forall i :: 0 <= i < |events| ==> events[i] != Configure(true)
    requires k < |Run(Init(clock), events).forwarded|
    ensures !Run(Init(clock), events).forwarded[k].msg.fromMe
  {
    StaysQuiet(Init(clock), events);
  }

  // ------------------------------------------------------------ echoes by their id

  function Acks(events: seq<Event>): nat {
    if events == [] then 0 else (if events[0].SendAck? && events[0].id != "" then 1 else 0) + Acks(events[1..])
  }

  predicate EchoOf(e: Event, id: string) { e.Notify? && e.msg.fromMe && e.msg.id == id }

  lemma IdStep(s: State, e: Event, id: string)
    requires Good(s) && Enabled(s, e) && id in s.sentIds && |s.sentIds| <= 1001 && !EchoOf(e, id)
    ensures id in Apply(s, e).sentIds && |Apply(s, e).sentIds| <= |s.sentIds| + Acks([e])
  {
    if e.Notify? && e.msg.id in s.sentIds {
      ForgetExactly(s.sentIds, e.msg.id);
      WithoutExactly(s.sentIds, e.msg.id);
    }
  }

  lemma {:induction false} IdStays(s: State, events: seq<Event>, id: string)
    requires Good(s) && Possible(s, events) && id in s.sentIds && |s.sentIds| + Acks(events) <= 1001
    requires forall i :: 0 <= i < |events| ==> !EchoOf(events[i], id)
    ensures id in Run(s, events).sentIds
    decreases |events|
  {
    if events != [] {
      IdStep(s, events[0], id);
      StepKeepsGood(s, events[0]);
      IdStays(Apply(s, events[0]), events[1..], id);
    }
  }

  /** The echo of a message whose id was recorded goes no further, however old it is and
      whatever it says, as long as no thousand other ids were left over; with it the id
      is used up. */
  lemma {:induction false} RecordedEchoStops(s: State, id: string, body: Option<string>, between: seq<Event>, msg: Msg, now: int)
    requires Good(s) && id != "" && |s.sentIds| + Acks(between) <= 1000
    requires Possible(AckStep(s, id, body), between) && forall i :: 0 <= i < |between| ==> !EchoOf(between[i], id)
    requires now >= Run(AckStep(s, id, body), between).clock && msg.fromMe && msg.id == id
    ensures var before := Run(AckStep(s, id, body), between);
            var t := NotifyStep(before, msg, now);
            t.forwarded == before.forwarded && t.waiting == before.waiting && id !in t.sentIds
  {
    var acked := AckStep(s, id, body);
    StepKeepsGood(s, SendAck(id, body));
    IdStays(acked, between, id);
    RunKeepsGood(acked, between);
    ForgetExactly(Run(acked, between).sentIds, id);
  }
}

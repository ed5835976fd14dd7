/** What a session key distinguishes (services/runner/main.go, sessionKey): which work
    items can share a session. */
module RunnerKeys {
  import opened RunnerProtocol
  import opened RunnerFanOut

  predicate IsReview(req: LaunchRequest) { req.mode == "review" }

  /** Tickets for which the key separates every two work items. */
  predicate PlainTicket(ticket: string) {
    '|' !in ticket && !("review:" <= ticket)
  }

  predicate SameWork(a: LaunchRequest, b: LaunchRequest) {
    IsReview(a) == IsReview(b) && a.ticketKey == b.ticketKey && a.repo == b.repo
  }

  /** What stands in front of the bar of a key. */
  function TicketPart(req: LaunchRequest): string {
    if IsReview(req) then "review:" + req.ticketKey else req.ticketKey
  }

  /** A bar of the first ticket was taken for the one between ticket and repository. */
  predicate BarMoved(t1: string, r1: string, t2: string, r2: string) {
    |t1| > |t2| && t1[..|t2|] == t2 && t1[|t2|] == '|' && r2 == t1[|t2| + 1..] + "|" + r1
  }

  lemma SplitAtBar(t1: string, r1: string, t2: string, r2: string)
    ensures t1 + "|" + r1 == t2 + "|" + r2 <==> (t1 == t2 && r1 == r2) || BarMoved(t1, r1, t2, r2) || BarMoved(t2, r2, t1, r1)
  {
    if t1 + "|" + r1 == t2 + "|" + r2 {
      OneSplit(t1, r1, t2, r2, t1 + "|" + r1);
    }
    if BarMoved(t1, r1, t2, r2) { MovedJoins(t1, r1, t2, r2); }
    if BarMoved(t2, r2, t1, r1) { MovedJoins(t2, r2, t1, r1); }
  }

  lemma OneSplit(t1: string, r1: string, t2: string, r2: string, u: string)
    requires u == t1 + "|" + r1 && u == t2 + "|" + r2
    ensures (t1 == t2 && r1 == r2) || BarMoved(t1, r1, t2, r2) || BarMoved(t2, r2, t1, r1)
  {
    assert u[|t1|] == '|' && u[|t2|] == '|';
    assert t1 == u[..|t1|] && t2 == u[..|t2|];
    assert r1 == u[|t1| + 1..] && r2 == u[|t2| + 1..];
  }

  lemma MovedJoins(t1: string, r1: string, t2: string, r2: string)
    requires BarMoved(t1, r1, t2, r2)
    ensures t1 + "|" + r1 == t2 + "|" + r2
  {
    var y := t1[|t2| + 1..];
    assert t1 == t2 + "|" + y;
    assert (t2 + "|" + y) + "|" + r1 == t2 + "|" + (y + "|" + r1);
  }

  /** Two work items share a key exactly when a coding ticket spells out the prefix of
      the other's review, or a bar of one ticket was moved into the other's repository. */
  predicate Confused(a: LaunchRequest, b: LaunchRequest) {
    || (IsReview(a) != IsReview(b) && TicketPart(a) == TicketPart(b) && a.repo == b.repo)
    || BarMoved(TicketPart(a), a.repo, TicketPart(b), b.repo)
    || BarMoved(TicketPart(b), b.repo, TicketPart(a), a.repo)
  }

  lemma KeyParts(req: LaunchRequest)
    ensures SessionKey(req) == TicketPart(req) + "|" + req.repo
  {
    assert "review:" + (req.ticketKey + "|" + req.repo) == ("review:" + req.ticketKey) + "|" + req.repo;
  }

  lemma SameTicketPart(a: LaunchRequest, b: LaunchRequest)
    requires IsReview(a) == IsReview(b)
    ensures TicketPart(a) == TicketPart(b) <==> a.ticketKey == b.ticketKey
  {
    if IsReview(a) {
      assert TicketPart(a)[7..] == a.ticketKey && TicketPart(b)[7..] == b.ticketKey;
    }
  }

  lemma KeysCollideExactly(a: LaunchRequest, b: LaunchRequest)
    ensures SessionKey(a) == SessionKey(b) && !SameWork(a, b) <==> Confused(a, b)
  {
    KeyParts(a);
    KeyParts(b);
    SplitAtBar(TicketPart(a), a.repo, TicketPart(b), b.repo);
    if IsReview(a) == IsReview(b) { SameTicketPart(a, b); }
  }

  lemma PlainTicketPart(req: LaunchRequest)
    requires PlainTicket(req.ticketKey)
    ensures '|' !in TicketPart(req)
  {
  }

  lemma KeySeparatesWorkItems(a: LaunchRequest, b: LaunchRequest)
    requires PlainTicket(a.ticketKey) && PlainTicket(b.ticketKey)
    requires SessionKey(a) == SessionKey(b)
    ensures IsReview(a) == IsReview(b) && a.ticketKey == b.ticketKey && a.repo == b.repo
  {
    KeysCollideExactly(a, b);
    PlainTicketPart(a);
    PlainTicketPart(b);
  }

  /** All subscribers of one session asked for the same work item. */
  lemma {:induction false} SessionServesOneWorkItem(s: State, events: seq<Event>, t: State, a: Ack, b: Ack)
    requires Init(s) && Run(s, events, t)
    requires a in t.acks && b in t.acks && a.epoch == b.epoch == t.epoch && a.sid == b.sid
    requires PlainTicket(a.req.ticketKey) && PlainTicket(b.req.ticketKey)
    ensures IsReview(a.req) == IsReview(b.req) && a.req.ticketKey == b.req.ticketKey && a.req.repo == b.req.repo
  {
    ExactlyOnceFanOut(s, events, t, a);
    ExactlyOnceFanOut(s, events, t, b);
    KeySeparatesWorkItems(a.req, b.req);
  }

  /** Requests the handler accepts are confused: every review collides with coding for
      the ticket that spells out its prefix. */
  lemma ReviewPrefixCollides(review: LaunchRequest)
    requires ValidRequest(review) && IsReview(review)
    ensures var code := review.(mode := "", ticketKey := "review:" + review.ticketKey);
            ValidRequest(code) && SessionKey(code) == SessionKey(review) && !SameWork(code, review)
  {
    var code := review.(mode := "", ticketKey := "review:" + review.ticketKey);
    KeysCollideExactly(code, review);
  }

  lemma {:induction false} CountOfConcat(c: char, x: string, y: string)
    ensures CountOf(c, x + y) == CountOf(c, x) + CountOf(c, y)
  {
    if x == "" {
      assert x + y == y;
    } else {
      assert (x + y)[1..] == x[1..] + y;
      CountOfConcat(c, x[1..], y);
    }
  }

  /** And so are requests with a bar: any text without a slash or two dots in a row can
      stand at the end of the ticket or at the start of the repository. */
  lemma {:induction false} BarInTicketCollides(req: LaunchRequest, y: string)
    requires ValidRequest(req) && CountOf('/', y) == 0 && !HasDots(y)
    ensures var a, b := req.(ticketKey := req.ticketKey + "|" + y), req.(repo := y + "|" + req.repo);
            ValidRequest(a) && ValidRequest(b) && SessionKey(a) == SessionKey(b) && !SameWork(a, b)
  {
    var a, b := req.(ticketKey := req.ticketKey + "|" + y), req.(repo := y + "|" + req.repo);
    MovedRepo(y, req.repo);
    BarMovedBack(TicketPart(req), y);
    assert TicketPart(a) == TicketPart(req) + "|" + y;
    KeysCollideExactly(a, b);
  }

  lemma {:induction false} MovedRepo(y: string, repo: string)
    requires CountOf('/', y) == 0 && CountOf('/', repo) == 1 && !HasDots(y) && !HasDots(repo)
    ensures CountOf('/', y + "|" + repo) == 1 && !HasDots(y + "|" + repo)
  {
    CountOfConcat('/', y + "|", repo);
    CountOfConcat('/', y, "|");
    assert CountOf('/', "|") == 0;
    NoDotsAtBar(y, repo);
  }

  lemma NoDotsAtBar(x: string, y: string)
    requires !HasDots(x) && !HasDots(y)
    ensures !HasDots(x + "|" + y)
  {
    var s := x + "|" + y;
    forall i | 0 <= i < |s| - 1 ensures !(s[i] == '.' && s[i + 1] == '.') {
      if i > |x| { assert s[i] == y[i - |x| - 1] && s[i + 1] == y[i - |x|]; }
      if i < |x| { assert s[i] == x[i]; }
    }
  }

  lemma BarMovedBack(t: string, y: string)
    ensures var u := t + "|" + y; |u| > |t| && u[..|t|] == t && u[|t|] == '|' && u[|t| + 1..] == y
  {
  }

  // --------------------------------------------------------- accepted requests

  lemma {:induction false} NoneCounted(c: char, s: string)
    ensures CountOf(c, s) == 0 <==> c !in s
  {
    if s != "" { NoneCounted(c, s[1..]); }
  }

  /** One occurrence: a part before it and a part behind it, both without. */
  lemma {:induction false} CountedOnce(c: char, s: string)
    ensures CountOf(c, s) == 1 <==> exists k :: 0 <= k < |s| && s[k] == c && c !in s[..k] && c !in s[k + 1..]
  {
    if s != "" {
      NoneCounted(c, s[1..]);
      CountedOnce(c, s[1..]);
      if s[0] == c {
        assert s[..0] == "";
        forall k | 0 < k < |s| ensures c in s[..k] { assert s[..k][0] == c; }
      } else {
        if k :| 0 <= k < |s[1..]| && s[1..][k] == c && c !in s[1..][..k] && c !in s[1..][k + 1..] {
          assert s[..k + 1] == [s[0]] + s[1..][..k] && s[k + 2..] == s[1..][k + 1..] && s[k + 1] == c;
        }
        if k :| 0 <= k < |s| && s[k] == c && c !in s[..k] && c !in s[k + 1..] {
          assert s[1..][..k - 1] == s[..k][1..] && s[1..][k..] == s[k + 1..] && s[1..][k - 1] == c;
        }
      }
    }
  }

  /** The handler accepts a launch exactly when nothing required is missing, the repository
      is an owner and a name with one slash between and no two dots in a row, and a
      review names its head. */
  lemma AcceptedExactly(req: LaunchRequest)
    ensures ValidRequest(req) <==>
            && "" !in [req.runId, req.repo, req.ticketKey, req.taskDescription, req.callbackUrl]
            && (exists k :: 0 <= k < |req.repo| && req.repo[k] == '/' && '/' !in req.repo[..k] && '/' !in req.repo[k + 1..])
            && (forall i :: 0 <= i < |req.repo| - 1 ==> !(req.repo[i] == '.' && req.repo[i + 1] == '.'))
            && (req.mode != "review" || req.head != "")
  {
    CountedOnce('/', req.repo);
  }
}

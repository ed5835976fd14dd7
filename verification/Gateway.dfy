/** Sending one WhatsApp text across two services: the gateway's retry loop
    (services/api/internal/gateway/service.go) around the adapter's /send
    (services/api/whatsapp-adapter/server.js). */
module Gateway {
  datatype Status = Disconnected | Connecting | Qr | Connected

  /** What one POST meets: the account as /send finds it, whether the socket takes the
      message in time, and whether the answer comes back before the client gives up.
      `mention` says whether an error's text contains the word connecting in quotes. */
  datatype Start = Account(socket: bool, status: Status) | StartError(mention: bool)
  datatype Turn = Turn(start: Start, taken: bool, answered: bool, mention: bool)

  /** The adapter's answers: 200, 504, 409 with the status, 500. */
  datatype Answer = Sent | TimedOut | NotConnected(status: Status) | Crashed(mention: bool)

  datatype Outcome = Delivered | Failed

  const MAX_ATTEMPTS: nat := 5

  predicate Ready(turn: Turn) { turn.start.Account? && turn.start.socket && turn.start.status == Connected }

  /** How often this POST calls sendMessage. */
  function Sends(turn: Turn): nat { if Ready(turn) then 1 else 0 }

  function AnswerTo(turn: Turn): Answer {
    if turn.start.StartError? then Crashed(turn.start.mention)
    else if !Ready(turn) then NotConnected(turn.start.status)
    else if turn.taken then Sent else TimedOut
  }

  predicate Succeeds(turn: Turn) { turn.answered && AnswerTo(turn) == Sent }

  /** The error's text contains "connecting", quotes included. */
  predicate Retryable(turn: Turn) {
    if !turn.answered then turn.mention
    else match AnswerTo(turn)
      case NotConnected(status) => status == Connecting
      case Crashed(mention) => mention
      case _ => false
  }

  datatype Delivery = Delivery(posts: nat, sends: nat, outcome: Outcome)

  /** The loop from attempt k on; `waits(k)` is whether the pause before it ends
      without the caller's context being cancelled. */
  function Attempts(turns: nat -> Turn, waits: nat -> bool, k: nat): (d: Delivery)
    requires k <= MAX_ATTEMPTS
    decreases MAX_ATTEMPTS - k
  {
    if k == MAX_ATTEMPTS || (k > 0 && !waits(k)) then Delivery(0, 0, Failed)
    else if Succeeds(turns(k)) then Delivery(1, Sends(turns(k)), Delivered)
    else if !Retryable(turns(k)) then Delivery(1, Sends(turns(k)), Failed)
    else
      var rest := Attempts(turns, waits, k + 1);
      Delivery(1 + rest.posts, Sends(turns(k)) + rest.sends, rest.outcome)
  }

  datatype RowStatus = Pending | SentRow | FailedRow
  datatype Row = Row(body: string, status: RowStatus, attempts: nat)

  class Service {
    var outbox: map<nat, Row>
    ghost var posts: nat
    ghost var sends: nat

    constructor ()
      ensures outbox == map[] && posts == 0 && sends == 0
    {
      outbox, posts, sends := map[], 0, 0;
    }

    /** One POST to the adapter. */
    method Post(turn: Turn) returns (ok: bool, retry: bool)
      modifies this`posts, this`sends
      ensures ok == Succeeds(turn) && retry == (!ok && Retryable(turn))
      ensures posts == old(posts) + 1 && sends == old(sends) + Sends(turn)
    {
      posts := posts + 1;
      var answer: Answer;
      match turn.start {
        case StartError(mention) => answer := Crashed(mention);
        case Account(socket, status) =>
          if !socket || status != Connected {
            answer := NotConnected(status);
          } else {
            sends := sends + 1;
            answer := if turn.taken then Sent else TimedOut;
          }
      }
      if !turn.answered {
        return false, turn.mention;
      }
      ok := answer == Sent;
      retry := answer == NotConnected(Connecting) || (answer.Crashed? && answer.mention);
    }

    /** `created` and `marked` say whether the two writes of the outbox row go through. */
    method SendWhatsApp(id: nat, body: string, created: bool, marked: bool, turns: nat -> Turn, waits: nat -> bool)
      returns (recorded: bool, outcome: Outcome)
      requires id !in outbox
      modifies this
      ensures recorded == created
      ensures !created ==> outbox == old(outbox) && posts == old(posts) && sends == old(sends)
      ensures created ==>
                var d := Attempts(turns, waits, 0);
                && outcome == d.outcome && posts == old(posts) + d.posts && sends == old(sends) + d.sends
                && (!marked ==> outbox == old(outbox)[id := Row(body, Pending, 0)])
                && (marked ==> outbox == old(outbox)[id := Row(body, if d.outcome == Delivered then SentRow else FailedRow, 1)])
    {
      recorded, outcome := created, Failed;
      if !created {
        return;
      }
      outbox := outbox[id := Row(body, Pending, 0)];
      outcome := PostUntilSettled(turns, waits);
      if marked {
        var row := outbox[id];
        outbox := outbox[id := Row(row.body, if outcome == Delivered then SentRow else FailedRow, row.attempts + 1)];
      }
    }

    method PostUntilSettled(turns: nat -> Turn, waits: nat -> bool) returns (outcome: Outcome)
      modifies this`posts, this`sends
      ensures posts >= old(posts) && sends >= old(sends)
      ensures Delivery(posts - old(posts), sends - old(sends), outcome) == Attempts(turns, waits, 0)
    {
      outcome := Failed;
      var attempt := 0;
      ghost var all := Attempts(turns, waits, 0);
      while attempt < MAX_ATTEMPTS
        invariant attempt <= MAX_ATTEMPTS && outcome == Failed && posts >= old(posts) && sends >= old(sends)
        invariant var rest := Attempts(turns, waits, attempt);
                  all == Delivery(posts - old(posts) + rest.posts, sends - old(sends) + rest.sends, rest.outcome)
      {
        if attempt > 0 && !waits(attempt) {
          break;
        }
        var ok, retry := Post(turns(attempt));
        if ok {
          outcome := Delivered;
          break;
        }
        if !retry {
          break;
        }
        attempt := attempt + 1;
      }
    }
  }

  // --------------------------------------------------------------- properties

  /** The answer to this POST says connecting: 409 while the account connects, or an
      error whose text mentions it. */
  predicate Held(turn: Turn) {
    turn.answered && match turn.start
                     case Account(_, status) => status == Connecting
                     case StartError(mention) => mention
  }

  lemma {:induction false} HeldIsRepeated(turns: nat -> Turn, waits: nat -> bool, j: nat, k: nat)
    requires j <= k <= MAX_ATTEMPTS && (j == 0 || waits(j))
    requires (forall i: nat :: j <= i < k ==> Held(turns(i))) && forall i: nat :: j < i <= k ==> waits(i)
    ensures var d, rest := Attempts(turns, waits, j), Attempts(turns, waits, k);
            d == Delivery(k - j + rest.posts, rest.sends, rest.outcome)
    decreases k - j
  {
    if j < k {
      assert Held(turns(j));
      HeldIsRepeated(turns, waits, j + 1, k);
    }
  }

  /** After k answers that say connecting, the POST number k + 1 settles the send: 200
      delivers it; a timeout, another status, any other error, a lost answer that does
      not read like a refusal, the last attempt or a cancelled pause fails it. */
  lemma SettledBy(turns: nat -> Turn, waits: nat -> bool, k: nat)
    requires k < MAX_ATTEMPTS
    requires (forall i: nat :: i < k ==> Held(turns(i))) && forall i: nat :: 0 < i <= k ==> waits(i)
    ensures var d, turn := Attempts(turns, waits, 0), turns(k);
            && (turn == Turn(Account(true, Connected), true, true, turn.mention) ==> d == Delivery(k + 1, 1, Delivered))
            && (turn == Turn(Account(true, Connected), false, true, turn.mention) ==> d == Delivery(k + 1, 1, Failed))
            && (turn.answered && turn.start.Account? && turn.start.status in {Disconnected, Qr} ==> d == Delivery(k + 1, 0, Failed))
            && (turn.answered && turn.start == Account(false, Connected) ==> d == Delivery(k + 1, 0, Failed))
            && (turn.answered && turn.start == StartError(false) ==> d == Delivery(k + 1, 0, Failed))
            && (!turn.answered && !turn.mention ==>
                  d == Delivery(k + 1, if turn.start == Account(true, Connected) then 1 else 0, Failed))
            && (Held(turn) && (k == 4 || !waits(k + 1)) ==> d == Delivery(k + 1, 0, Failed))
  {
    HeldIsRepeated(turns, waits, 0, k);
    if Held(turns(k)) && k < 4 && !waits(k + 1) { assert Attempts(turns, waits, k + 1) == Delivery(0, 0, Failed); }
  }

  /** No answer that was lost after the message went out reads like a refusal. */
  predicate Honest(turn: Turn) { !turn.answered && Ready(turn) ==> !turn.mention }

  lemma RetriedMeansUnsent(turn: Turn)
    requires Honest(turn) && !Succeeds(turn) && Retryable(turn)
    ensures Sends(turn) == 0
  {
  }

  /** The last turn that was posted. */
  function LastPost(turns: nat -> Turn, waits: nat -> bool, k: nat): nat
    requires k < MAX_ATTEMPTS && (k == 0 || waits(k))
    decreases MAX_ATTEMPTS - k
  {
    if Succeeds(turns(k)) || !Retryable(turns(k)) || k + 1 == MAX_ATTEMPTS || !waits(k + 1) then k
    else LastPost(turns, waits, k + 1)
  }

  /** However many POSTs are made, sendMessage is called at most once, by the last of
      them; and the row says sent exactly when that one was answered with 200. */
  lemma {:induction false} SentAtMostOnce(turns: nat -> Turn, waits: nat -> bool, k: nat)
    requires k < MAX_ATTEMPTS && (k == 0 || waits(k)) && forall i: nat :: Honest(turns(i))
    ensures var d, last := Attempts(turns, waits, k), LastPost(turns, waits, k);
            && k <= last < MAX_ATTEMPTS && d.posts == last - k + 1
            && d.sends == Sends(turns(last)) <= 1
            && (d.outcome == Delivered <==> Succeeds(turns(last)))
    decreases MAX_ATTEMPTS - k
  {
    if !Succeeds(turns(k)) && Retryable(turns(k)) {
      RetriedMeansUnsent(turns(k));
      if k + 1 < MAX_ATTEMPTS && waits(k + 1) { SentAtMostOnce(turns, waits, k + 1); }
    }
  }

  /** A row marked failed may still have been sent: exactly when the last POST found
      the account connected and then timed out or lost its answer. */
  lemma FailedYetSent(turns: nat -> Turn, waits: nat -> bool)
    requires forall i: nat :: Honest(turns(i))
    ensures var d, last := Attempts(turns, waits, 0), turns(LastPost(turns, waits, 0));
            d.outcome == Failed && d.sends == 1 <==> Ready(last) && (!last.taken || !last.answered)
  {
    SentAtMostOnce(turns, waits, 0);
  }

  /** A message that goes out once is reported sent, unless its answer was late. */
  lemma SentMeansOnce(turns: nat -> Turn, waits: nat -> bool)
    requires forall i: nat :: Honest(turns(i))
    ensures Attempts(turns, waits, 0).outcome == Delivered ==> Attempts(turns, waits, 0).sends == 1
  {
    SentAtMostOnce(turns, waits, 0);
  }

  /** The hypothesis is needed: lost answers that read like refusals send five times. */
  lemma DishonestFaultDuplicates(turns: nat -> Turn, waits: nat -> bool)
    requires forall i: nat :: turns(i) == Turn(Account(true, Connected), true, false, true)
    requires forall i: nat :: waits(i)
    ensures Attempts(turns, waits, 0).sends == 5
  {
    assert Attempts(turns, waits, 4).sends == 1;
    assert Attempts(turns, waits, 3).sends == 2;
    assert Attempts(turns, waits, 2).sends == 3;
    assert Attempts(turns, waits, 1).sends == 4;
  }
}

/** What settling promises: a batch treats each message as a settle of its own
    would be treated, and no settle that landed is reported as a lost lease. */
module SettleTheorems {
  import opened Common
  import opened Errors
  import opened Settle
  import opened BatchSettle

  // ----- when a single settle reports that its lease is lost -----

  predicate Lost(v: Verdict) { v.Some? && Is(v.value, LeaseLost) }

  /** A failed attempt that another one follows. */
  predicate Continues(t: Try) { t.reply.Some? && Retryable(t.reply.value) && !t.ended && t.waited }

  predicate MayLand(t: Try) { t.reply.Some? && Uncertain(t.reply.value) }

  /** Attempt k is the last one made. */
  predicate LastAttempt(left: nat, tries: seq<Try>, k: nat)
    requires left <= |tries|
  {
    k < left && (forall j :: 0 <= j < k ==> Continues(tries[j])) && (k == left - 1 || !Continues(tries[k]))
  }

  /** What the last attempt made comes to, given whether an earlier one may have landed. */
  function Closing(op: Op, landed: bool, left: nat, t: Try, k: nat): Verdict
  {
    if t.reply.None? || (op.Ack? && landed && Lost(t.reply)) then None
    else if k < left - 1 && Retryable(t.reply.value) && !t.ended then Some(ContextEnded)
    else t.reply
  }

  /** A settle returns what its last attempt comes to, which is the first that no
      other follows. */
  lemma {:induction false} LastAttemptDecides(op: Op, may: bool, left: nat, tries: seq<Try>, k: nat)
    requires 1 <= left <= |tries| && LastAttempt(left, tries, k)
    ensures Single(op, may, left, tries)
            == Closing(op, may || exists j :: 0 <= j < k && MayLand(tries[j]), left, tries[k], k)
    decreases left
  {
    if k > 0 {
      var rest := tries[1..];
      assert Continues(tries[0]);
      assert forall j :: 0 <= j < |rest| ==> rest[j] == tries[j + 1];
      LastAttemptDecides(op, may || Uncertain(tries[0].reply.value), left - 1, rest, k - 1);
      LandedEarlier(tries, k);
    }
  }

  lemma LandedEarlier(tries: seq<Try>, k: nat)
    requires 0 < k <= |tries| && Continues(tries[0])
    ensures (exists j :: 0 <= j < k && MayLand(tries[j]))
            <==> Uncertain(tries[0].reply.value) || exists j :: 0 <= j < k - 1 && MayLand(tries[1..][j])
  {
    if j :| 0 <= j < k && MayLand(tries[j]) {
      assert j > 0 ==> MayLand(tries[1..][j - 1]);
    }
    if j :| 0 <= j < k - 1 && MayLand(tries[1..][j]) {
      assert MayLand(tries[j + 1]);
    }
    if Uncertain(tries[0].reply.value) { assert MayLand(tries[0]); }
  }

  /** Attempt k is made, and answered 410 with no reason to read that as a success. */
  ghost predicate LosesAt(op: Op, may: bool, left: nat, tries: seq<Try>, k: nat)
    requires left <= |tries|
  {
    k < left && Lost(tries[k].reply) && (forall j :: 0 <= j < k ==> Continues(tries[j]))
    && !(op.Ack? && (may || exists j :: 0 <= j < k && MayLand(tries[j])))
  }

  /** A settle reports its lease lost exactly when it meets a 410 and is not an
      ack with an earlier attempt that may have landed. */
  lemma {:induction false} ReportsLost(op: Op, may: bool, left: nat, tries: seq<Try>)
    requires 1 <= left <= |tries|
    ensures Lost(Single(op, may, left, tries)) <==> exists k: nat :: LosesAt(op, may, left, tries, k)
    decreases left
  {
    if Continues(tries[0]) && left > 1 && !Lost(tries[0].reply) {
      var rest, fewer := tries[1..], left - 1;
      var may' := may || Uncertain(tries[0].reply.value);
      ReportsLost(op, may', fewer, rest);
      if k: nat :| LosesAt(op, may', fewer, rest, k) {
        LosesLater(op, may, left, tries, k);
      }
      if k: nat :| LosesAt(op, may, left, tries, k) {
        assert k > 0;
        LosesLater(op, may, left, tries, k - 1);
      }
    } else {
      if k: nat :| LosesAt(op, may, left, tries, k) {
        if k > 0 { assert !Continues(tries[0]); }
      }
      if Lost(Single(op, may, left, tries)) {
        assert LosesAt(op, may, left, tries, 0);
      }
    }
  }

  lemma LosesLater(op: Op, may: bool, left: nat, tries: seq<Try>, k: nat)
    requires 2 <= left <= |tries| && Continues(tries[0])
    ensures LosesAt(op, may || Uncertain(tries[0].reply.value), left - 1, tries[1..], k)
            <==> LosesAt(op, may, left, tries, k + 1)
  {
    var rest := tries[1..];
    assert forall j :: 0 <= j < |rest| ==> rest[j] == tries[j + 1];
    if k < left - 1 {
      assert (forall j :: 0 <= j < k + 1 ==> Continues(tries[j]))
        <==> (forall j :: 0 <= j < k ==> Continues(rest[j])) by {
        if forall j :: 0 <= j < k ==> Continues(rest[j]) {
          forall j | 0 <= j < k + 1 ensures Continues(tries[j]) {
            if j > 0 { assert Continues(rest[j - 1]); }
          }
        }
      }
      if j :| 0 <= j < k + 1 && MayLand(tries[j]) {
        assert j > 0 ==> MayLand(rest[j - 1]);
      }
      if Uncertain(tries[0].reply.value) {
        assert MayLand(tries[0]);
      }
    }
  }

  /** A batch of one message is a settle of its own that nothing precedes: it comes to
      what its last attempt does, and reports its lease lost exactly when it meets a 410
      and is no ack with an earlier attempt that may have landed.  A message that is
      refused before anything is sent is so here too. */
  lemma BatchOfOne(b: Job, m: Item, rounds: seq<Round>, k: nat)
    requires ItemOk(b, m) && b.n == 1 && RoundsOk(b.n, rounds) && b.attempts <= |rounds|
    requires LastAttempt(b.attempts, m.tries, k)
    ensures m.barred.Some? ==> Whole(b, m, rounds) == m.barred
    ensures m.barred.None? ==>
              Whole(b, m, rounds)
              == Closing(b.op, exists j :: 0 <= j < k && MayLand(m.tries[j]), b.attempts, m.tries[k], k)
    ensures m.barred.None? ==>
              (Lost(Whole(b, m, rounds)) <==> exists k: nat :: LosesAt(b.op, false, b.attempts, m.tries, k))
  {
    if m.barred.None? {
      LastAttemptDecides(b.op, false, b.attempts, m.tries, k);
      ReportsLost(b.op, false, b.attempts, m.tries);
    }
  }

  /** There is always a last attempt. */
  lemma SomeAttemptIsLast(left: nat, tries: seq<Try>) returns (k: nat)
    requires 1 <= left <= |tries|
    ensures LastAttempt(left, tries, k)
  {
    k := 0;
    while k < left - 1 && Continues(tries[k])
      invariant k < left && forall j :: 0 <= j < k ==> Continues(tries[j])
    {
      k := k + 1;
    }
  }

  // ----- a batch against a settle of its own -----

  /** What a round's reply says to message i, as the reply to a settle of its own.
      An unreadable 200 was processed, so it counts as a reply that got lost. */
  function ReplyOf(op: Op, reply: Reply, i: nat): Verdict
    requires reply.Answered? ==> i < |reply.answers|
  {
    match reply
    case Refused(e) => Some(e)
    case Unreadable => Some(Conn(op, true))
    case Answered(answers) => if answers[i].status == 204 then None else Some(HandleFailure(op, answers[i]))
  }

  /** The settle of message i alone that the rounds amount to.  ended says after
      which rounds the caller's context had ended. */
  function Projected(op: Op, i: nat, n: nat, rounds: seq<Round>, ended: seq<bool>): seq<Try>
    requires i < n && RoundsOk(n, rounds) && |ended| == |rounds|
  {
    seq(|rounds|, k requires 0 <= k < |rounds| =>
      Try(ReplyOf(op, rounds[k].reply, i), ended[k], rounds[k].backoff, k + 1 < |rounds| ==> rounds[k + 1].waited))
  }

  /** An ended context lets no further wait finish. */
  predicate EndedOk(rounds: seq<Round>, ended: seq<bool>)
  {
    |ended| == |rounds| && forall k :: 0 <= k < |rounds| - 1 && ended[k] ==> !rounds[k + 1].waited
  }

  predicate SettleOp(op: Op) { op.Ack? || op.Nack? || op.Extend? }

  /** No round is refused in a way that has the messages settled one at a time. */
  predicate AllSpeak(rounds: seq<Round>)
  {
    forall k :: 0 <= k < |rounds| ==> rounds[k].reply.Refused? ==> !Is(rounds[k].reply.e, BadRequest)
  }

  predicate Same(op: Op, v: Verdict, w: Verdict) { v == w || (v == Some(BatchReply) && w == Some(Conn(op, true))) }

  predicate Goes(op: Op, n: nat, rounds: seq<Round>, ended: seq<bool>, i: nat, j: nat)
    requires i < n && RoundsOk(n, rounds) && |ended| == |rounds| && j < |rounds|
  {
    Again(op, rounds[j].reply, i) && !ended[j] && (j + 1 < |rounds| ==> rounds[j + 1].waited)
  }

  predicate MayHaveLanded(op: Op, n: nat, rounds: seq<Round>, i: nat, j: nat)
    requires i < n && RoundsOk(n, rounds) && j < |rounds|
  {
    var v := ReplyOf(op, rounds[j].reply, i);
    v.Some? && Uncertain(v.value)
  }

  /** Round k reaches message i and either answers 410 for the whole request after
      an ack of it that may have landed, or leaves it to be tried again with the
      caller's context already ended. */
  ghost predicate DiffersAt(op: Op, n: nat, may: bool, left: nat, rounds: seq<Round>, ended: seq<bool>, i: nat, k: nat)
    requires i < n && RoundsOk(n, rounds) && |ended| == |rounds| && left <= |rounds|
  {
    k < left && (forall j :: 0 <= j < k ==> Goes(op, n, rounds, ended, i, j))
    && ((op.Ack? && rounds[k].reply.Refused? && Lost(ReplyOf(op, rounds[k].reply, i))
         && (may || exists j :: 0 <= j < k && MayHaveLanded(op, n, rounds, i, j)))
        || (k + 1 < left && Again(op, rounds[k].reply, i) && ended[k]))
  }

  ghost predicate Differs(op: Op, n: nat, may: bool, left: nat, rounds: seq<Round>, ended: seq<bool>, i: nat)
    requires i < n && RoundsOk(n, rounds) && |ended| == |rounds| && left <= |rounds|
  {
    exists k: nat :: DiffersAt(op, n, may, left, rounds, ended, i, k)
  }

  lemma DiffersLater(op: Op, n: nat, may: bool, left: nat, rounds: seq<Round>, ended: seq<bool>, i: nat, k: nat)
    requires i < n && RoundsOk(n, rounds) && |ended| == |rounds| && 2 <= left <= |rounds|
    requires Goes(op, n, rounds, ended, i, 0)
    ensures RoundsOk(n, rounds[1..])
    ensures DiffersAt(op, n, may || MayHaveLanded(op, n, rounds, i, 0), left - 1, rounds[1..], ended[1..], i, k)
            <==> DiffersAt(op, n, may, left, rounds, ended, i, k + 1)
  {
    var rest, off := rounds[1..], ended[1..];
    assert forall j :: 0 <= j < |rest| ==> rest[j] == rounds[j + 1] && off[j] == ended[j + 1];
    if k < left - 1 {
      assert forall j :: 0 <= j < k ==> (Goes(op, n, rest, off, i, j) <==> Goes(op, n, rounds, ended, i, j + 1));
      if forall j :: 0 <= j < k ==> Goes(op, n, rest, off, i, j) {
        forall j | 0 <= j < k + 1 ensures Goes(op, n, rounds, ended, i, j) {
          if j > 0 { assert Goes(op, n, rest, off, i, j - 1); }
        }
      }
      if j :| 0 <= j < k + 1 && MayHaveLanded(op, n, rounds, i, j) {
        assert j > 0 ==> MayHaveLanded(op, n, rest, i, j - 1);
      }
      if j :| 0 <= j < k && MayHaveLanded(op, n, rest, i, j) {
        assert MayHaveLanded(op, n, rounds, i, j + 1);
      }
    }
  }

  lemma DiffersRest(op: Op, n: nat, may: bool, left: nat, rounds: seq<Round>, ended: seq<bool>, i: nat)
    requires i < n && RoundsOk(n, rounds) && |ended| == |rounds| && 2 <= left <= |rounds|
    requires Goes(op, n, rounds, ended, i, 0)
    ensures RoundsOk(n, rounds[1..])
    ensures var may', fewer, rest, off := may || MayHaveLanded(op, n, rounds, i, 0), left - 1, rounds[1..], ended[1..];
            Differs(op, n, may', fewer, rest, off, i) <==> Differs(op, n, may, left, rounds, ended, i)
  {
    var may', fewer, rest, off := may || MayHaveLanded(op, n, rounds, i, 0), left - 1, rounds[1..], ended[1..];
    if k: nat :| DiffersAt(op, n, may', fewer, rest, off, i, k) {
      DiffersLater(op, n, may, left, rounds, ended, i, k);
    }
    if k: nat :| DiffersAt(op, n, may, left, rounds, ended, i, k) {
      assert k > 0;
      DiffersLater(op, n, may, left, rounds, ended, i, k - 1);
    }
  }

  lemma StepsAlike(b: Job, m: Item, may: bool, left: nat, prior: Verdict, rounds: seq<Round>, ended: seq<bool>)
    requires ItemOk(b, m) && RoundsOk(b.n, rounds) && 2 <= left <= b.attempts && left <= |rounds| && |ended| == |rounds|
    requires SettleOp(b.op) && (left == b.attempts || rounds[0].waited) && Goes(b.op, b.n, rounds, ended, m.i, 0)
    ensures var may' := may || MayHaveLanded(b.op, b.n, rounds, m.i, 0);
            var err := if rounds[0].reply.Unreadable? then BatchReply else ReplyOf(b.op, rounds[0].reply, m.i).value;
            rounds[1].waited && RoundsOk(b.n, rounds[1..])
            && Fate(b, m, may, left, prior, rounds) == Fate(b, m, may', left - 1, Some(err), rounds[1..])
            && Single(b.op, may, left, Projected(b.op, m.i, b.n, rounds, ended))
               == Single(b.op, may', left - 1, Projected(b.op, m.i, b.n, rounds[1..], ended[1..]))
  {
    FateGoesOn(b, m, may, left, prior, rounds, ended);
    SingleGoesOn(b, m, may, left, rounds, ended);
  }

  lemma FateGoesOn(b: Job, m: Item, may: bool, left: nat, prior: Verdict, rounds: seq<Round>, ended: seq<bool>)
    requires ItemOk(b, m) && RoundsOk(b.n, rounds) && 2 <= left <= b.attempts && left <= |rounds| && |ended| == |rounds|
    requires SettleOp(b.op) && (left == b.attempts || rounds[0].waited) && Goes(b.op, b.n, rounds, ended, m.i, 0)
    ensures var may' := may || MayHaveLanded(b.op, b.n, rounds, m.i, 0);
            var err := if rounds[0].reply.Unreadable? then BatchReply else ReplyOf(b.op, rounds[0].reply, m.i).value;
            rounds[1].waited && RoundsOk(b.n, rounds[1..])
            && Fate(b, m, may, left, prior, rounds) == Fate(b, m, may', left - 1, Some(err), rounds[1..])
  {
  }

  lemma SingleGoesOn(b: Job, m: Item, may: bool, left: nat, rounds: seq<Round>, ended: seq<bool>)
    requires ItemOk(b, m) && RoundsOk(b.n, rounds) && 2 <= left <= |rounds| && |ended| == |rounds|
    requires SettleOp(b.op) && Goes(b.op, b.n, rounds, ended, m.i, 0)
    ensures RoundsOk(b.n, rounds[1..])
    ensures Single(b.op, may, left, Projected(b.op, m.i, b.n, rounds, ended))
            == Single(b.op, may || MayHaveLanded(b.op, b.n, rounds, m.i, 0), left - 1,
                      Projected(b.op, m.i, b.n, rounds[1..], ended[1..]))
  {
    var tries := Projected(b.op, m.i, b.n, rounds, ended);
    assert tries[1..] == Projected(b.op, m.i, b.n, rounds[1..], ended[1..]);
    SingleNext(b.op, may, left, tries, 0);
    assert tries[0..] == tries;
  }

  /** From a round on, the batch and the single settle agree exactly when none differs. */
  ghost predicate Agree(b: Job, m: Item, may: bool, left: nat, prior: Verdict, rounds: seq<Round>, ended: seq<bool>)
    requires ItemOk(b, m) && RoundsOk(b.n, rounds) && 1 <= left <= b.attempts && left <= |rounds| == |ended|
  {
    Same(b.op, Fate(b, m, may, left, prior, rounds),
         Single(b.op, may, left, Projected(b.op, m.i, b.n, rounds, ended)))
    <==> !Differs(b.op, b.n, may, left, rounds, ended, m.i)
  }

  lemma StepAgrees(b: Job, m: Item, may: bool, left: nat, prior: Verdict, rounds: seq<Round>, ended: seq<bool>)
    requires ItemOk(b, m) && RoundsOk(b.n, rounds) && 2 <= left <= b.attempts
    requires left <= |rounds| && |ended| == |rounds| && SettleOp(b.op)
    requires (left == b.attempts || rounds[0].waited) && Goes(b.op, b.n, rounds, ended, m.i, 0)
    requires var err := if rounds[0].reply.Unreadable? then BatchReply else ReplyOf(b.op, rounds[0].reply, m.i).value;
             RoundsOk(b.n, rounds[1..])
             && Agree(b, m, may || MayHaveLanded(b.op, b.n, rounds, m.i, 0), left - 1, Some(err),
                      rounds[1..], ended[1..])
    ensures Agree(b, m, may, left, prior, rounds, ended)
  {
    DiffersRest(b.op, b.n, may, left, rounds, ended, m.i);
    StepsAlike(b, m, may, left, prior, rounds, ended);
  }

  lemma StopAgrees(b: Job, m: Item, may: bool, left: nat, prior: Verdict, rounds: seq<Round>, ended: seq<bool>)
    requires ItemOk(b, m) && RoundsOk(b.n, rounds) && 1 <= left <= b.attempts
    requires left <= |rounds| && EndedOk(rounds, ended)
    requires SettleOp(b.op) && AllSpeak(rounds) && (left == b.attempts || rounds[0].waited)
    requires !(left > 1 && Goes(b.op, b.n, rounds, ended, m.i, 0))
    ensures Agree(b, m, may, left, prior, rounds, ended)
  {
    StopsAlike(b, m, may, left, prior, rounds, ended);
    if k: nat :| DiffersAt(b.op, b.n, may, left, rounds, ended, m.i, k) {
      assert DiffersAt(b.op, b.n, may, left, rounds, ended, m.i, 0);
    }
  }

  lemma {:induction false} AgreesFrom(b: Job, m: Item, may: bool, left: nat, prior: Verdict,
                                      rounds: seq<Round>, ended: seq<bool>)
    requires ItemOk(b, m) && RoundsOk(b.n, rounds) && 1 <= left <= b.attempts
    requires left <= |rounds| && EndedOk(rounds, ended)
    requires SettleOp(b.op) && AllSpeak(rounds) && (left == b.attempts || rounds[0].waited)
    ensures Agree(b, m, may, left, prior, rounds, ended)
    decreases left
  {
    if left > 1 && Goes(b.op, b.n, rounds, ended, m.i, 0) {
      var err := if rounds[0].reply.Unreadable? then BatchReply else ReplyOf(b.op, rounds[0].reply, m.i).value;
      AgreesFrom(b, m, may || MayHaveLanded(b.op, b.n, rounds, m.i, 0), left - 1, Some(err), rounds[1..], ended[1..]);
      StepAgrees(b, m, may, left, prior, rounds, ended);
    } else {
      StopAgrees(b, m, may, left, prior, rounds, ended);
    }
  }

  lemma StopsAlike(b: Job, m: Item, may: bool, left: nat, prior: Verdict, rounds: seq<Round>, ended: seq<bool>)
    requires ItemOk(b, m) && RoundsOk(b.n, rounds) && 1 <= left <= b.attempts
    requires left <= |rounds| && EndedOk(rounds, ended)
    requires SettleOp(b.op) && AllSpeak(rounds) && (left == b.attempts || rounds[0].waited)
    requires !(left > 1 && Goes(b.op, b.n, rounds, ended, m.i, 0))
    ensures Same(b.op, Fate(b, m, may, left, prior, rounds),
                 Single(b.op, may, left, Projected(b.op, m.i, b.n, rounds, ended)))
            <==> !DiffersAt(b.op, b.n, may, left, rounds, ended, m.i, 0)
  {
    var reply := rounds[0].reply;
    if left > 1 {
      assert rounds[1..][0] == rounds[1];
    }
  }

  /** The batch form of a settle gives a message the outcome that a settle of its
      own would give it for the same replies, exactly unless a round that reaches
      it answers 410 for the whole request after an ack of it that may have landed,
      or finds the caller's context ended with another round to go. */
  lemma TreatsEachAsIfAlone(b: Job, m: Item, rounds: seq<Round>, ended: seq<bool>)
    requires ItemOk(b, m) && b.n >= 2 && SettleOp(b.op) && RoundsOk(b.n, rounds) && b.attempts <= |rounds|
    requires EndedOk(rounds, ended) && AllSpeak(rounds)
    ensures Same(b.op, Whole(b, m, rounds), Single(b.op, false, b.attempts, Projected(b.op, m.i, b.n, rounds, ended)))
            <==> !Differs(b.op, b.n, false, b.attempts, rounds, ended, m.i)
  {
    AgreesFrom(b, m, false, b.attempts, None, rounds, ended);
  }

  /** A 408 is the one failure that may be tried again and still matches the bad
      request that makes settleMany give up the batch form. */
  lemma RetryableBadRequest(e: Failure)
    requires Retryable(e)
    ensures (Is(e, BadRequest) <==> e.Api? && e.status == 408) && !Is(e, LeaseLost)
  {
  }

  /** So with per-handle statuses and retryable whole-request failures other than
      408 only, and a caller that keeps waiting, the two always agree. */
  lemma AgreesWhileWaiting(b: Job, m: Item, rounds: seq<Round>)
    requires ItemOk(b, m) && b.n >= 2 && SettleOp(b.op) && RoundsOk(b.n, rounds) && b.attempts <= |rounds|
    requires forall k :: 0 <= k < |rounds| ==> rounds[k].reply.Refused? ==>
               Retryable(rounds[k].reply.e) && !(rounds[k].reply.e.Api? && rounds[k].reply.e.status == 408)
    ensures Same(b.op, Whole(b, m, rounds),
                 Single(b.op, false, b.attempts, Projected(b.op, m.i, b.n, rounds, seq(|rounds|, _ => false))))
  {
    forall k | 0 <= k < |rounds| && rounds[k].reply.Refused?
      ensures !Is(rounds[k].reply.e, BadRequest) && !Is(rounds[k].reply.e, LeaseLost)
    {
      RetryableBadRequest(rounds[k].reply.e);
    }
    TreatsEachAsIfAlone(b, m, rounds, seq(|rounds|, _ => false));
  }

  /** A refusal of the whole request that asks for another wait than the backoff. */
  predicate AsksOtherwise(r: Round)
  {
    r.reply.Refused? && RetryDelay(r.reply.e, r.backoff) != r.backoff
  }

  /** No round is refused for good. */
  predicate RefusalsPass(rounds: seq<Round>)
  {
    forall k :: 0 <= k < |rounds| ==> rounds[k].reply.Refused? ==>
      Retryable(rounds[k].reply.e) && !(rounds[k].reply.e.Api? && rounds[k].reply.e.status == 408)
  }

  /** Between its rounds a batch waits for the backoff, where a settle of its own waits as
      long as the server asks for.  So as long as both go on the message waits for the
      same times in both, exactly unless a whole-request refusal asks for another. */
  lemma WaitsAgree(b: Job, i: nat, rounds: seq<Round>, requests: seq<seq<nat>>, waits: seq<int>, alone: seq<int>)
    requires i < b.n && 1 <= b.attempts <= |rounds| && RoundsOk(b.n, rounds) && RefusalsPass(rounds)
    requires |requests| <= b.attempts && RequestsOk(b.op, b.n, rounds, requests) && WaitsOk(b, rounds, requests, waits)
    requires WaitsAre(b.attempts, Projected(b.op, i, b.n, rounds, seq(|rounds|, _ => false)), alone)
    ensures |alone| <= |waits|
    ensures alone <= waits <==> forall k :: 0 <= k < |alone| ==> !AsksOtherwise(rounds[k])
  {
    var tries := Projected(b.op, i, b.n, rounds, seq(|rounds|, _ => false));
    forall k: nat | k < |alone| ensures k < |waits| && (alone[k] == waits[k] <==> !AsksOtherwise(rounds[k])) {
      WaitsReach(b, i, rounds, requests, waits, alone, k);
      WaitIn(tries, alone, k);
    }
    if |alone| > 0 { WaitsReach(b, i, rounds, requests, waits, alone, |alone| - 1); }
  }

  lemma WaitIn(tries: seq<Try>, waits: seq<int>, j: nat)
    requires j < |waits| < |tries| && Waited(tries, waits[..|waits| - 1]) && WaitAt(tries, waits, |waits| - 1)
    ensures WaitAt(tries, waits, j) && (j < |waits| - 1 ==> tries[j].waited)
  {
    if j < |waits| - 1 { assert WaitAt(tries, waits[..|waits| - 1], j); }
  }

  /** A failure that a settle of its own tries again keeps the message in the batch. */
  lemma TriedAgain(op: Op, i: nat, n: nat, rounds: seq<Round>, k: nat)
    requires i < n && RoundsOk(n, rounds) && k < |rounds| && RefusalsPass(rounds)
    requires TriesAgain(Projected(op, i, n, rounds, seq(|rounds|, _ => false))[k])
    ensures Again(op, rounds[k].reply, i)
  {
    if rounds[k].reply.Refused? { RetryableBadRequest(rounds[k].reply.e); }
  }

  lemma {:induction false} WaitsReach(b: Job, i: nat, rounds: seq<Round>, requests: seq<seq<nat>>, waits: seq<int>,
                                      alone: seq<int>, k: nat)
    requires i < b.n && 1 <= b.attempts <= |rounds| && RoundsOk(b.n, rounds) && RefusalsPass(rounds)
    requires |requests| <= b.attempts && RequestsOk(b.op, b.n, rounds, requests) && WaitsOk(b, rounds, requests, waits)
    requires WaitsAre(b.attempts, Projected(b.op, i, b.n, rounds, seq(|rounds|, _ => false)), alone)
    requires k < |alone|
    ensures k < |waits| && k < |requests| && i in requests[k]
  {
    WaitedFor(b, i, rounds, alone, k);
    if k == 0 {
      FirstRequest(b, i, rounds, requests);
    } else {
      WaitedFor(b, i, rounds, alone, k - 1);
      WaitsReach(b, i, rounds, requests, waits, alone, k - 1);
      RequestFollows(b, i, rounds, requests, waits, k);
    }
    WaitFollows(b, i, rounds, requests, waits, k);
  }

  lemma WaitedFor(b: Job, i: nat, rounds: seq<Round>, alone: seq<int>, k: nat)
    requires i < b.n && 1 <= b.attempts <= |rounds| && RoundsOk(b.n, rounds) && RefusalsPass(rounds)
    requires WaitsAre(b.attempts, Projected(b.op, i, b.n, rounds, seq(|rounds|, _ => false)), alone)
    requires k < |alone|
    ensures k + 1 < b.attempts && Again(b.op, rounds[k].reply, i) && (k < |alone| - 1 ==> rounds[k + 1].waited)
  {
    WaitIn(Projected(b.op, i, b.n, rounds, seq(|rounds|, _ => false)), alone, k);
    TriedAgain(b.op, i, b.n, rounds, k);
  }

  lemma FirstRequest(b: Job, i: nat, rounds: seq<Round>, requests: seq<seq<nat>>)
    requires i < b.n && RoundsOk(b.n, rounds) && 0 < |requests| <= |rounds|
    requires RequestsOk(b.op, b.n, rounds, requests)
    ensures i in requests[0]
  {
    assert AsksFor(b.op, b.n, rounds, requests, 0, i);
  }

  /** After a finished wait the messages to be tried again are asked for again, */
  lemma RequestFollows(b: Job, i: nat, rounds: seq<Round>, requests: seq<seq<nat>>, waits: seq<int>, k: nat)
    requires i < b.n && RoundsOk(b.n, rounds) && |requests| <= b.attempts <= |rounds|
    requires RequestsOk(b.op, b.n, rounds, requests) && WaitsOk(b, rounds, requests, waits)
    requires 0 < k < b.attempts && k <= |requests| && i in requests[k - 1]
    requires Again(b.op, rounds[k - 1].reply, i) && rounds[k].waited
    ensures k < |requests| && i in requests[k]
  {
    if k < |requests| { assert AsksFor(b.op, b.n, rounds, requests, k, i); }
  }

  /** and as long as there is one, another wait follows. */
  lemma WaitFollows(b: Job, i: nat, rounds: seq<Round>, requests: seq<seq<nat>>, waits: seq<int>, k: nat)
    requires i < b.n && RoundsOk(b.n, rounds) && |requests| <= b.attempts <= |rounds|
    requires WaitsOk(b, rounds, requests, waits)
    requires k < |requests| && k + 1 < b.attempts && i in requests[k] && Again(b.op, rounds[k].reply, i)
    ensures k < |waits|
  {
  }

  /** Round j leaves message i to be tried again, and the wait after it finishes. */
  predicate GoesOn(op: Op, n: nat, rounds: seq<Round>, i: nat, j: nat)
    requires i < n && RoundsOk(n, rounds) && j < |rounds|
  {
    Again(op, rounds[j].reply, i) && (j + 1 < |rounds| ==> rounds[j + 1].waited)
  }

  predicate SomeMayHaveLanded(op: Op, n: nat, rounds: seq<Round>, i: nat, k: nat)
    requires i < n && RoundsOk(n, rounds) && k <= |rounds|
  {
    exists j :: 0 <= j < k && MayHaveLanded(op, n, rounds, i, j)
  }

  lemma LandedRest(op: Op, n: nat, rounds: seq<Round>, i: nat, k: nat)
    requires i < n && RoundsOk(n, rounds) && 0 < k <= |rounds|
    ensures RoundsOk(n, rounds[1..])
    ensures SomeMayHaveLanded(op, n, rounds, i, k)
            <==> MayHaveLanded(op, n, rounds, i, 0) || SomeMayHaveLanded(op, n, rounds[1..], i, k - 1)
  {
    var rest := rounds[1..];
    forall j | 0 <= j < k - 1 ensures MayHaveLanded(op, n, rest, i, j) <==> MayHaveLanded(op, n, rounds, i, j + 1) {}
    if j :| 0 <= j < k && MayHaveLanded(op, n, rounds, i, j) {
      assert j > 0 ==> MayHaveLanded(op, n, rest, i, j - 1);
    }
    if j :| 0 <= j < k - 1 && MayHaveLanded(op, n, rest, i, j) {
      assert MayHaveLanded(op, n, rounds, i, j + 1);
    }
  }

  /** From any round on: a bad request in round k has the message settled on its own. */
  lemma {:induction false} AloneFrom(b: Job, m: Item, may: bool, left: nat, prior: Verdict, rounds: seq<Round>, k: nat)
    requires ItemOk(b, m) && RoundsOk(b.n, rounds) && SettleOp(b.op) && k < left <= b.attempts && left <= |rounds|
    requires left == b.attempts || rounds[0].waited
    requires forall j :: 0 <= j < k ==> GoesOn(b.op, b.n, rounds, m.i, j)
    requires rounds[k].reply.Refused? && Is(rounds[k].reply.e, BadRequest)
    ensures Fate(b, m, may, left, prior, rounds)
            == Alone(m.barred, b.op, may || SomeMayHaveLanded(b.op, b.n, rounds, m.i, k), b.attempts, m.tries)
    decreases k
  {
    if k > 0 {
      assert GoesOn(b.op, b.n, rounds, m.i, 0);
      LandedRest(b.op, b.n, rounds, m.i, k);
      var rest := rounds[1..];
      forall j | 0 <= j < k - 1 ensures GoesOn(b.op, b.n, rest, m.i, j) {
        assert GoesOn(b.op, b.n, rounds, m.i, j + 1);
      }
      var err := if rounds[0].reply.Unreadable? then BatchReply else ReplyOf(b.op, rounds[0].reply, m.i).value;
      AloneFrom(b, m, may || MayHaveLanded(b.op, b.n, rounds, m.i, 0), left - 1, Some(err), rest, k - 1);
    }
  }

  /** A batch request that is refused as a bad one, in whichever round, is not sent
      again: every message still pending is settled on its own, with a fresh set of
      attempts, and one that an earlier round may have settled is known to be so. */
  lemma RefusedAsBad(b: Job, m: Item, rounds: seq<Round>, k: nat)
    requires ItemOk(b, m) && b.n >= 2 && SettleOp(b.op) && RoundsOk(b.n, rounds) && k < b.attempts <= |rounds|
    requires forall j :: 0 <= j < k ==> GoesOn(b.op, b.n, rounds, m.i, j)
    requires rounds[k].reply.Refused? && Is(rounds[k].reply.e, BadRequest)
    ensures Whole(b, m, rounds)
            == Alone(m.barred, b.op, SomeMayHaveLanded(b.op, b.n, rounds, m.i, k), b.attempts, m.tries)
  {
    AloneFrom(b, m, false, b.attempts, None, rounds, k);
  }

  /** That is what becomes of one that times out, although it may be tried again. */
  lemma TimedOutRequest(b: Job, m: Item, rounds: seq<Round>, k: nat)
    requires ItemOk(b, m) && b.n >= 2 && SettleOp(b.op) && RoundsOk(b.n, rounds) && k < b.attempts <= |rounds|
    requires forall j :: 0 <= j < k ==> GoesOn(b.op, b.n, rounds, m.i, j)
    requires rounds[k].reply.Refused? && rounds[k].reply.e.Api? && rounds[k].reply.e.status == 408
    ensures Retryable(rounds[k].reply.e)
    ensures Whole(b, m, rounds)
            == Alone(m.barred, b.op, SomeMayHaveLanded(b.op, b.n, rounds, m.i, k), b.attempts, m.tries)
  {
    RetryableBadRequest(rounds[k].reply.e);
    RefusedAsBad(b, m, rounds, k);
  }

  /** A 410 for the whole request is not forgiven as one for the handle is. */
  lemma WholeRequestGone(m: Item)
    requires m.i == 0 && |m.tries| >= 2
    ensures var e, gone := Conn(AckBatch, true), Api(AckBatch, 410, {}, 0);
            var rounds := [Round(true, Refused(e), 0), Round(true, Refused(gone), 0)];
            var b := Job(Ack, 2, 2);
            Lost(Whole(b, m, rounds)) && Single(Ack, false, 2, Projected(Ack, 0, 2, rounds, [false, false])) == None
  {
    var e := Conn(AckBatch, true);
    var rounds := [Round(true, Refused(e), 0), Round(true, Refused(Api(AckBatch, 410, {}, 0)), 0)];
    var b := Job(Ack, 2, 2);
    assert rounds[1..] == [rounds[1]];
    assert Fate(b, m, true, 1, Some(e), rounds[1..]) == Some(Api(AckBatch, 410, {}, 0));
    var tries := Projected(Ack, 0, 2, rounds, [false, false]);
    assert tries[1..][0] == tries[1];
  }

  // ----- against the broker -----

  /** What an attempt did at the broker: whether it spent the handle, and whether
      the lease had gone to another consumer by then. */
  datatype Mark = Mark(landed: bool, taken: bool)

  /** The broker spends a handle once, and answers 410 only when it is spent or the
      lease is gone.  An attempt that lands either gets its 204 or loses it in a way
      that is classed uncertain. */
  predicate HonestReply(spent: bool, gone: bool, mark: Mark, reply: Verdict)
  {
    (mark.landed ==> !spent && !gone && !mark.taken && (reply.Some? ==> Uncertain(reply.value)))
    && (reply.None? ==> mark.landed)
    && (Lost(reply) ==> spent || gone || mark.taken)
  }

  predicate Honest(spent: bool, gone: bool, tries: seq<Try>, marks: seq<Mark>)
    requires |tries| == |marks|
    decreases |tries|
  {
    tries == []
    || (HonestReply(spent, gone, marks[0], tries[0].reply)
        && Honest(spent || marks[0].landed, gone || marks[0].taken, tries[1..], marks[1..]))
  }

  predicate NoneTaken(marks: seq<Mark>) { forall k :: 0 <= k < |marks| ==> !marks[k].taken }

  /** Whether an attempt that is really made lands. */
  predicate Lands(op: Op, may: bool, left: nat, tries: seq<Try>, marks: seq<Mark>)
    requires 1 <= left <= |tries| == |marks|
    decreases left
  {
    marks[0].landed
    || (left > 1 && Continues(tries[0])
        && Lands(op, may || Uncertain(tries[0].reply.value), left - 1, tries[1..], marks[1..]))
  }

  /** An ack that landed is never reported as a lost lease, whoever holds the lease
      by then, and one that nobody else could settle succeeds only if it landed. */
  lemma {:induction false} AckIsSound(may: bool, left: nat, tries: seq<Try>, spent: bool, gone: bool, marks: seq<Mark>)
    requires 1 <= left <= |tries| == |marks| && Honest(spent, gone, tries, marks) && (spent ==> may)
    ensures var v := Single(Ack, may, left, tries);
            var landed := spent || Lands(Ack, may, left, tries, marks);
            (landed ==> !Lost(v)) && (v.None? && !gone && NoneTaken(marks) ==> landed)
    decreases left
  {
    if left > 1 && Continues(tries[0]) {
      AckIsSound(may || Uncertain(tries[0].reply.value), left - 1, tries[1..],
                 spent || marks[0].landed, gone || marks[0].taken, marks[1..]);
    }
  }

  /** The same for a batch: marks for its rounds, and alone for the settles that
      follow when the broker refuses the batch form. */
  predicate HonestBatch(b: Job, m: Item, spent: bool, gone: bool, rounds: seq<Round>,
                        marks: seq<Mark>, alone: seq<Mark>)
    requires ItemOk(b, m) && RoundsOk(b.n, rounds) && |rounds| == |marks| && |alone| == |m.tries|
    decreases |rounds|
  {
    rounds == []
    || (HonestReply(spent, gone, marks[0], ReplyOf(b.op, rounds[0].reply, m.i))
        && (rounds[0].reply.Refused? && Is(rounds[0].reply.e, BadRequest) ==>
              Honest(spent || marks[0].landed, gone || marks[0].taken, m.tries, alone))
        && HonestBatch(b, m, spent || marks[0].landed, gone || marks[0].taken, rounds[1..], marks[1..], alone))
  }

  predicate LandsInBatch(b: Job, m: Item, may: bool, left: nat, rounds: seq<Round>, marks: seq<Mark>, alone: seq<Mark>)
    requires ItemOk(b, m) && RoundsOk(b.n, rounds) && left <= |rounds| == |marks| && |alone| == |m.tries|
    decreases left
  {
    left > 0 && (left == b.attempts || rounds[0].waited)
    && (marks[0].landed
        || (var reply := rounds[0].reply;
            if reply.Refused? && Is(reply.e, BadRequest) then
              m.barred.None? && Lands(b.op, may, b.attempts, m.tries, alone)
            else
              Again(b.op, reply, m.i)
              && LandsInBatch(b, m, may || MayHaveLanded(b.op, b.n, rounds, m.i, 0), left - 1,
                              rounds[1..], marks[1..], alone)))
  }

  /** The broker settles every handle of a batch on its own, so it does not answer
      410 for the whole request. */
  predicate NoWholeGone(rounds: seq<Round>)
  {
    forall k :: 0 <= k < |rounds| ==> rounds[k].reply.Refused? ==> !Is(rounds[k].reply.e, LeaseLost)
  }

  lemma {:induction false} BatchAckIsSoundFrom(b: Job, m: Item, may: bool, left: nat, prior: Verdict,
                                               rounds: seq<Round>, spent: bool, gone: bool,
                                               marks: seq<Mark>, alone: seq<Mark>)
    requires b.op.Ack? && ItemOk(b, m) && RoundsOk(b.n, rounds) && left <= |rounds| == |marks| && |alone| == |m.tries|
    requires left <= b.attempts && NoWholeGone(rounds) && !Lost(m.barred)
    requires left < b.attempts ==> prior.Some? && !Lost(prior)
    requires HonestBatch(b, m, spent, gone, rounds, marks, alone) && (spent ==> may)
    ensures var v := Fate(b, m, may, left, prior, rounds);
            var landed := spent || LandsInBatch(b, m, may, left, rounds, marks, alone);
            (landed ==> !Lost(v)) && (v.None? && !gone && NoneTaken(marks) && NoneTaken(alone) ==> landed)
    decreases left
  {
    if left > 0 && (left == b.attempts || rounds[0].waited) {
      var reply := rounds[0].reply;
      var spent', gone' := spent || marks[0].landed, gone || marks[0].taken;
      if reply.Refused? && Is(reply.e, BadRequest) {
        AckIsSound(may, b.attempts, m.tries, spent', gone', alone);
      } else if Again(b.op, reply, m.i) {
        var err := if reply.Unreadable? then BatchReply else ReplyOf(b.op, reply, m.i).value;
        BatchAckIsSoundFrom(b, m, may || MayHaveLanded(b.op, b.n, rounds, m.i, 0), left - 1, Some(err), rounds[1..],
                            spent', gone', marks[1..], alone);
      }
    }
  }

  /** In batch form too, an ack that landed is never reported as a lost lease, and
      one that nobody else could settle succeeds only if it landed. */
  lemma BatchAckIsSound(b: Job, m: Item, rounds: seq<Round>, marks: seq<Mark>, alone: seq<Mark>)
    requires b.op.Ack? && b.n >= 2 && ItemOk(b, m) && RoundsOk(b.n, rounds) && b.attempts <= |rounds| == |marks|
    requires |alone| == |m.tries| && NoWholeGone(rounds) && !Lost(m.barred)
    requires HonestBatch(b, m, false, false, rounds, marks, alone)
    ensures var v := Whole(b, m, rounds);
            var landed := LandsInBatch(b, m, false, b.attempts, rounds, marks, alone);
            (landed ==> !Lost(v)) && (v.None? && NoneTaken(marks) && NoneTaken(alone) ==> landed)
  {
    BatchAckIsSoundFrom(b, m, false, b.attempts, None, rounds, false, false, marks, alone);
  }

  /** And for a batch of one, whose verdict is that of a settle of its own. */
  lemma AckOfOneIsSound(b: Job, m: Item, rounds: seq<Round>, gone: bool, marks: seq<Mark>)
    requires b.op.Ack? && b.n == 1 && ItemOk(b, m) && RoundsOk(b.n, rounds) && b.attempts <= |rounds|
    requires m.barred.None? && |marks| == |m.tries| && Honest(false, gone, m.tries, marks)
    ensures var v, landed := Whole(b, m, rounds), Lands(b.op, false, b.attempts, m.tries, marks);
            (landed ==> !Lost(v)) && (v.None? && !gone && NoneTaken(marks) ==> landed)
  {
    AckIsSound(false, b.attempts, m.tries, false, gone, marks);
  }

  /** The assumption that a landed attempt with a lost reply is classed uncertain is
      needed: with one earlier failure e that is tried again, the 410 that follows is
      reported as a lost lease exactly when e is not classed uncertain.  A 504 or a
      408 that hides a landed ack is such an e. */
  lemma LostReplyVerdict(e: Failure, gone: Failure)
    requires Retryable(e) && Is(gone, LeaseLost)
    ensures var tries := [Try(Some(e), false, 0, true), Try(Some(gone), false, 0, true)];
            Lost(Single(Ack, false, 2, tries)) <==> !Uncertain(e)
  {
    var tries := [Try(Some(e), false, 0, true), Try(Some(gone), false, 0, true)];
    assert tries[1..][0] == tries[1];
    assert !Is(e, LeaseLost);
  }
}
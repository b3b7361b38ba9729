/** Settling messages one at a time and many at a time. */
module Settle {
  import opened Common
  import opened Errors

  /** One attempt of a single settle: None is 204; then whether the caller's
      context had ended, the backoff drawn, and whether the wait before the next
      attempt finished. */
  datatype Try = Try(reply: Option<Failure>, ended: bool, backoff: int, waited: bool)

  /** What becomes of a message: the error its settle returns, if any. */
  type Verdict = Option<Failure>

  predicate Settles(op: Op) { op.Ack? || op.Nack? }

  /** What a single settle of at most left attempts returns.  may says that an
      earlier attempt of it may have landed. */
  function Single(op: Op, may: bool, left: nat, tries: seq<Try>): Verdict
    requires 1 <= left <= |tries|
    decreases left
  {
    var t := tries[0];
    if t.reply.None? then None
    else
      var e := t.reply.value;
      if op.Ack? && may && Is(e, LeaseLost) then None
      else if left == 1 || !Retryable(e) || t.ended then Some(e)
      else if !t.waited then Some(ContextEnded)
      else Single(op, may || Uncertain(e), left - 1, tries[1..])
  }

  /** What attempt k of a settle with left to go makes of the rest of it. */
  lemma SingleNext(op: Op, may: bool, left: nat, tries: seq<Try>, k: nat)
    requires 1 <= left && k + left <= |tries|
    ensures var t, v := tries[k], Single(op, may, left, tries[k..]);
            if t.reply.None? || (op.Ack? && may && Is(t.reply.value, LeaseLost)) then v == None
            else if left == 1 || !TriesAgain(t) then v == t.reply
            else if !t.waited then v == Some(ContextEnded)
            else v == Single(op, may || Uncertain(t.reply.value), left - 1, tries[k + 1..])
  {
    assert tries[k..][0] == tries[k] && tries[k..][1..] == tries[k + 1..];
  }

  /** A failure that is tried again if there are attempts left. */
  predicate TriesAgain(t: Try) { t.reply.Some? && Retryable(t.reply.value) && !t.ended }

  /** The waits of a single settle of at most left attempts, in order: one after every
      failure that is tried again, up to the first that does not finish. */
  predicate WaitsAre(left: nat, tries: seq<Try>, waits: seq<int>)
    requires 1 <= left <= |tries|
  {
    var n := |waits|;
    n < left && (if n == 0 then true else Waited(tries, waits[..n - 1]) && WaitAt(tries, waits, n - 1))
    && (n == left - 1 || !TriesAgain(tries[n]) || (n > 0 && !tries[n - 1].waited))
  }

  predicate WaitAt(tries: seq<Try>, waits: seq<int>, j: nat)
    requires j < |waits| <= |tries|
  {
    TriesAgain(tries[j]) && waits[j] == RetryDelay(tries[j].reply.value, tries[j].backoff)
  }

  /** Those waits were asked for and finished. */
  predicate Waited(tries: seq<Try>, waits: seq<int>)
    requires |waits| <= |tries|
  {
    forall j: nat :: j < |waits| ==> WaitAt(tries, waits, j) && tries[j].waited
  }

  lemma WaitsMore(left: nat, tries: seq<Try>, waits: seq<int>)
    requires |waits| + 1 < left <= |tries| && Waited(tries, waits) && TriesAgain(tries[|waits|])
    ensures var n := |waits|;
            var more := waits + [RetryDelay(tries[n].reply.value, tries[n].backoff)];
            if tries[n].waited then Waited(tries, more) else WaitsAre(left, tries, more)
  {
    var n := |waits|;
    var more := waits + [RetryDelay(tries[n].reply.value, tries[n].backoff)];
    assert more[..n] == waits;
    forall j: nat | j < n ensures WaitAt(tries, more, j) && tries[j].waited { assert WaitAt(tries, waits, j); }
  }

  /** The waits so far, and no attempt after them. */
  lemma WaitsEnd(left: nat, tries: seq<Try>, waits: seq<int>)
    requires |waits| < left <= |tries| && Waited(tries, waits)
    requires |waits| == left - 1 || !TriesAgain(tries[|waits|])
    ensures WaitsAre(left, tries, waits)
  {
    var n := |waits|;
    if n > 0 {
      forall j: nat | j < n - 1 ensures WaitAt(tries, waits[..n - 1], j) && tries[j].waited {
        assert WaitAt(tries, waits, j);
      }
      assert WaitAt(tries, waits, n - 1);
    }
  }

  lemma LostIsFinal(e: Failure)
    requires Is(e, LeaseLost)
    ensures !Retryable(e)
  {
  }

  /** The same as Single, for a message that may be refused before anything is sent. */
  function Alone(barred: Verdict, op: Op, may: bool, left: nat, tries: seq<Try>): Verdict
    requires 1 <= left <= |tries|
  {
    if barred.Some? then barred else Single(op, may, left, tries)
  }

  /** The larger of one and the number configured. */
  function Attempts(configured: int): (n: nat)
    ensures n >= 1 && n >= configured && (n == 1 || n == configured)
  {
    if configured < 1 then 1 else configured
  }

  class Message {
    const hasClient: bool
    const receipt: string
    var settled: bool
    var settling: nat

    constructor (hasClient: bool, receipt: string)
      ensures this.hasClient == hasClient && this.receipt == receipt && !settled && settling == 0
    {
      this.hasClient, this.receipt, settled, settling := hasClient, receipt, false, 0;
    }

    predicate Leased() { receipt != "" }

    /** Why a settle of the message is refused before anything is sent. */
    function Barred(): Verdict
    {
      if !hasClient then Some(Own(BadRequest)) else if !Leased() then Some(Own(NoLease)) else None
    }

    /** settleFrom: a single ack, nack or extend.  settling is raised for as long as it
        runs and settled records a success. */
    method SettleFrom(op: Op, mayHaveLanded: bool, configured: int, tries: seq<Try>)
      returns (err: Verdict, waits: seq<int>)
      requires |tries| >= Attempts(configured)
      modifies this
      ensures if Barred().Some? then waits == [] else WaitsAre(Attempts(configured), tries, waits)
      ensures err == Alone(Barred(), op, mayHaveLanded, Attempts(configured), tries)
      ensures !hasClient ==> err == Some(Own(BadRequest))
      ensures hasClient && receipt == "" ==> err == Some(Own(NoLease))
      ensures hasClient && receipt != "" ==> err == Single(op, mayHaveLanded, Attempts(configured), tries)
      ensures settled == (old(settled) || ((op.Ack? || op.Nack?) && err.None?))
      ensures settling == old(settling)
    {
      if !hasClient { return Some(Own(BadRequest)), []; }
      if !Leased() { return Some(Own(NoLease)), []; }
      if Settles(op) { settling := settling + 1; }
      err, waits := RetryLoop(op, mayHaveLanded, Attempts(configured), tries);
      if Settles(op) { settling := settling - 1; }
    }

    /** Its retry loop. */
    method RetryLoop(op: Op, mayHaveLanded: bool, attempts: nat, tries: seq<Try>)
      returns (err: Verdict, waits: seq<int>)
      requires 1 <= attempts <= |tries|
      modifies this`settled
      ensures err == Single(op, mayHaveLanded, attempts, tries) && WaitsAre(attempts, tries, waits)
      ensures settled == (old(settled) || (Settles(op) && err.None?))
    {
      var may := mayHaveLanded;
      err, waits := None, [];
      assert tries[0..] == tries;
      ghost var verdict := Single(op, mayHaveLanded, attempts, tries[0..]);
      var attempt := 0;
      while attempt < attempts
        invariant 0 <= attempt < attempts && |waits| == attempt && Waited(tries, waits)
        invariant verdict == Single(op, may, attempts - attempt, tries[attempt..])
        invariant settled == old(settled)
      {
        var t := tries[attempt];
        SingleNext(op, may, attempts - attempt, tries, attempt);
        if t.reply.Some? && Is(t.reply.value, LeaseLost) { LostIsFinal(t.reply.value); }
        if attempt == attempts - 1 || !TriesAgain(t) {
          WaitsEnd(attempts, tries, waits);
        } else {
          WaitsMore(attempts, tries, waits);
        }
        if t.reply.None? || (op.Ack? && may && Is(t.reply.value, LeaseLost)) {
          SettledBy(op);
          err := None;
          break;
        }
        err := t.reply;
        if attempt == attempts - 1 || !Retryable(err.value) { break; }
        if Uncertain(err.value) { may := true; }
        if t.ended { break; }
        waits := waits + [RetryDelay(err.value, t.backoff)];
        if !t.waited {
          err := Some(ContextEnded);
          break;
        }
        attempt := attempt + 1;
      }
    }

    /** The message is settled by a successful ack or nack, never by an extend. */
    method SettledBy(op: Op)
      modifies this`settled
      ensures settled == (old(settled) || Settles(op))
    {
      if Settles(op) { settled := true; }
    }
  }
}

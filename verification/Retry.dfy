/** Publishing a message again with its attempt count raised, before it is acked. */
module Retry {
  import opened Common
  import opened Errors

  datatype Envelope = Envelope(id: string, body: string, attempts: int, lastError: string, headers: map<string, string>)

  /** A stored copy of a message.  It is live until it is acked: until then it will
      be delivered again. */
  datatype Copy = Copy(topic: string, key: string, envelope: Option<Envelope>, live: bool)

  const MAX_INT := 0x7fff_ffff_ffff_ffff

  /** What Go's int makes of n. */
  function Int64(n: int): int { (n + MAX_INT + 1) % (2 * (MAX_INT + 1)) - MAX_INT - 1 }

  /** The attempt count of a copy of a message that has attempts. */
  function NextAttempts(attempts: int): int
  {
    var raised := Int64(attempts + 1);
    if raised < 1 then 1 else raised
  }

  /** A copy counts exactly one attempt more, unless the count was negative or the
      largest that fits. */
  lemma OneMoreAttempt(attempts: int)
    requires -MAX_INT - 1 <= attempts <= MAX_INT
    ensures NextAttempts(attempts) == attempts + 1 <==> 0 <= attempts < MAX_INT
    ensures !(0 <= attempts < MAX_INT) ==> NextAttempts(attempts) == 1
  {
    if attempts < MAX_INT {
      assert (attempts + 1 + MAX_INT + 1) % (2 * (MAX_INT + 1)) == attempts + 1 + MAX_INT + 1;
    } else {
      assert (2 * (MAX_INT + 1)) % (2 * (MAX_INT + 1)) == 0;
    }
  }

  /** One call of Retry on a stored copy, and what the world does to it: whether an id
      can be made if one is needed, whether the envelope is small enough, how many
      copies its requests store and how they end, whether the ack spends the handle
      and how it ends. */
  datatype Call = Call(copy: nat, topic: string, cause: string, leased: bool, newId: Option<string>, fits: bool,
                       stored: nat, failure: Option<Failure>, spent: bool, ackFailure: Option<Failure>)

  /** A publish that succeeds has stored at least one copy, an ack that succeeds has
      spent the handle, and an id is not empty. */
  predicate Honest(copies: seq<Copy>, c: Call)
  {
    c.copy < |copies| && (c.failure.None? ==> c.stored >= 1) && (c.ackFailure.None? ==> c.spent)
    && (c.newId.Some? ==> c.newId.value != "")
  }

  /** Whether anything is sent. */
  predicate Sends(e: Envelope, c: Call) { e.body != "" && (e.id != "" || c.newId.Some?) && c.fits }

  function CopyOf(m: Copy, c: Call): Copy
    requires m.envelope.Some? && Sends(m.envelope.value, c)
  {
    var e := m.envelope.value;
    var id := if e.id == "" then c.newId.value else e.id;
    Copy(if c.topic == "" then m.topic else c.topic, m.key,
         Some(Envelope(id, e.body, NextAttempts(e.attempts), c.cause, e.headers)), true)
  }

  /** The stored copies once the publish is over. */
  function Published(copies: seq<Copy>, c: Call): seq<Copy>
    requires c.copy < |copies|
  {
    var m := copies[c.copy];
    if m.envelope.None? || !Sends(m.envelope.value, c) then copies
    else copies + seq(c.stored, _ => CopyOf(m, c))
  }

  /** Whether the call goes on to ack the original. */
  predicate Acks(m: Copy, c: Call)
  {
    m.envelope.Some? && Sends(m.envelope.value, c) && c.failure.None? && c.leased
  }

  /** The stored copies once the call is over. */
  function Retried(copies: seq<Copy>, c: Call): seq<Copy>
    requires c.copy < |copies|
  {
    var after := Published(copies, c);
    if Acks(copies[c.copy], c) && c.spent then after[c.copy := after[c.copy].(live := false)] else after
  }

  datatype Outcome = Done | NoEnvelope | NotEncoded | NotPublished(e: Failure) | NotAcked(e: Failure)

  class Broker {
    var copies: seq<Copy>

    constructor (m: Copy)
      ensures copies == [m]
    {
      copies := [m];
    }

    /** Retry, in its own order: publish first, settle afterwards. */
    method Retry(c: Call) returns (r: Outcome)
      requires Honest(copies, c)
      modifies this
      ensures copies == Retried(old(copies), c)
      ensures forall k :: |old(copies)| <= k < |copies| ==>
                var m := old(copies)[c.copy];
                ChildOf(copies[k], m) && copies[k].live && copies[k].envelope.value.lastError == c.cause
                && copies[k].topic == if c.topic == "" then m.topic else c.topic
      ensures var m := old(copies)[c.copy];
              var sends := m.envelope.Some? && m.envelope.value.body != ""
                           && (m.envelope.value.id != "" || c.newId.Some?) && c.fits;
              |copies| == |old(copies)| + (if sends then c.stored else 0)
              && copies[..|old(copies)|]
                 == old(copies)[c.copy := m.(live := m.live && !(sends && c.failure.None? && c.leased && c.spent))]
              && (r.NoEnvelope? <==> m.envelope.None?) && (r.NotEncoded? <==> m.envelope.Some? && !sends)
              && (r.NotPublished? <==> sends && c.failure.Some?) && (r.NotPublished? ==> c.failure == Some(r.e))
              && (r.NotAcked? <==> sends && c.failure.None? && c.leased && c.ackFailure.Some?)
              && (r.NotAcked? ==> c.ackFailure == Some(r.e))
      ensures r.Done? ==> |copies| > old(|copies|) && (c.leased ==> !copies[c.copy].live)
      ensures r.NotAcked? ==> |copies| > old(|copies|)
      ensures r.NoEnvelope? || r.NotEncoded? ==> copies == old(copies)
    {
      var m := copies[c.copy];
      if m.envelope.None? { return NoEnvelope; }
      if !Sends(m.envelope.value, c) { return NotEncoded; }
      copies := copies + seq(c.stored, _ => CopyOf(m, c));
      if c.failure.Some? { return NotPublished(c.failure.value); }
      if c.leased {
        if c.spent { copies := copies[c.copy := copies[c.copy].(live := false)]; }
        if c.ackFailure.Some? { return NotAcked(c.ackFailure.value); }
      }
      return Done;
    }
  }

  /** Any chain of calls. */
  predicate Chain(copies: seq<Copy>, calls: seq<Call>)
    decreases |calls|
  {
    calls == [] || (Honest(copies, calls[0]) && Chain(Retried(copies, calls[0]), calls[1..]))
  }

  function Outcomes(copies: seq<Copy>, calls: seq<Call>): seq<Copy>
    requires Chain(copies, calls)
    decreases |calls|
  {
    if calls == [] then copies else Outcomes(Retried(copies, calls[0]), calls[1..])
  }

  predicate SomeLive(copies: seq<Copy>) { exists k :: 0 <= k < |copies| && copies[k].live }

  /** Every copy but the first came from an earlier one: the same key, body and
      headers, the same id unless that had none, and one attempt more. */
  predicate Descends(copies: seq<Copy>) { forall k :: 0 < k < |copies| ==> HasParent(copies, k) }

  predicate HasParent(copies: seq<Copy>, k: int)
    requires 0 < k < |copies|
  {
    exists p :: 0 <= p < k && ChildOf(copies[k], copies[p])
  }

  predicate ChildOf(c: Copy, p: Copy)
  {
    c.key == p.key && c.envelope.Some? && p.envelope.Some?
    && (var e, f := c.envelope.value, p.envelope.value;
        e.body == f.body && e.headers == f.headers && e.attempts == NextAttempts(f.attempts)
        && e.id != "" && (f.id != "" ==> e.id == f.id))
  }

  /** A publish that fails, or a crash between the publish and the ack, loses nothing;
      nor does the ack, which is only sent once a copy is stored. */
  lemma CallKeepsOneLive(copies: seq<Copy>, c: Call)
    requires Honest(copies, c) && SomeLive(copies)
    ensures SomeLive(Published(copies, c)) && SomeLive(Retried(copies, c))
  {
    var k :| 0 <= k < |copies| && copies[k].live;
    var after := Published(copies, c);
    assert after[k] == copies[k];
    if Acks(copies[c.copy], c) {
      assert after[|copies|] == CopyOf(copies[c.copy], c);
      assert Retried(copies, c)[|copies|].live;
    } else {
      assert Retried(copies, c)[k].live;
    }
  }

  lemma CallKeepsDescent(copies: seq<Copy>, c: Call)
    requires Honest(copies, c) && Descends(copies)
    ensures Descends(Retried(copies, c))
  {
    var after := Retried(copies, c);
    forall k | 0 < k < |after| ensures HasParent(after, k) {
      if k < |copies| {
        assert HasParent(copies, k);
        var p :| 0 <= p < k && ChildOf(copies[k], copies[p]);
        assert ChildOf(after[k], after[p]);
      } else {
        assert ChildOf(after[k], after[c.copy]);
      }
    }
  }

  /** Over any chain of Retry calls, with failures at any point, some live copy of the
      message always exists, and every copy descends from the first. */
  lemma {:induction false} ChainLosesNothing(copies: seq<Copy>, calls: seq<Call>)
    requires Chain(copies, calls) && SomeLive(copies) && Descends(copies)
    ensures SomeLive(Outcomes(copies, calls)) && Descends(Outcomes(copies, calls))
    decreases |calls|
  {
    if calls != [] {
      CallKeepsOneLive(copies, calls[0]);
      CallKeepsDescent(copies, calls[0]);
      ChainLosesNothing(Retried(copies, calls[0]), calls[1..]);
    }
  }

  /** So all copies of a message with an id carry that id. */
  lemma {:induction false} IdNeverChanges(copies: seq<Copy>, k: nat)
    requires Descends(copies) && k < |copies| && copies[0].envelope.Some? && copies[0].envelope.value.id != ""
    ensures copies[k].envelope.Some? && copies[k].envelope.value.id == copies[0].envelope.value.id
  {
    if k > 0 {
      assert HasParent(copies, k);
      var p :| 0 <= p < k && ChildOf(copies[k], copies[p]);
      IdNeverChanges(copies, p);
    }
  }

  /** The other order, acking first, loses the message when the publish then fails. */
  lemma AckingFirstLoses(m: Copy, c: Call)
    requires m.live && c.copy == 0 && c.stored == 0
    ensures var acked := [m.(live := false)]; !SomeLive(Published(acked, c))
  {
  }
}

/** What a batch tells the error handler: every loss, every failure and every ack that
    failed. */
module BatchErrors {
  import opened Common
  import opened BatchDispatch
  import opened BatchInvariant
  import opened BatchSteps
  import opened BatchTheorems
  import opened BatchRenewals
  import opened BatchReports

  /** The outcomes that the error handler hears of. */
  predicate NeedsReport(o: Outcome)
  {
    o.LostBeforeStart? || o.LostWhileRunning? || o.LostBeforeAck? || o.Failed? || (o.AckAnswered? && !o.ok)
  }

  /** A call of the error handler about message x and this outcome of it. */
  predicate About(r: Call, x: nat, o: Outcome)
  {
    r.i == x
    && match o
       case LostBeforeStart => r.ReportLostAtStart?
       case LostWhileRunning => r.ReportLostRunning?
       case LostBeforeAck => r.ReportLostAtFlush?
       case Failed(_) => r.ReportFailure?
       case AckAnswered(_) => r.ReportAckFailed?
       case _ => false
  }

  /** Step a is the end of such a call. */
  predicate Hears(s: State, a: Action, x: nat, o: Outcome)
  {
    a.Step? && a.t != Renewer && Pc(s, a.t).In? && Pc(s, a.t).sec.Calling? && About(Pc(s, a.t).sec.r, x, o)
  }

  /** A thread at pc has the failed ack of message x still to report. */
  predicate PendingAt(pc: PC, x: nat)
  {
    match pc
    case AckReports(rest) => x in rest
    case Want(sec) => sec.Calling? && sec.r.ReportAckFailed? && (x == sec.r.i || x in sec.r.rest)
    case In(sec) => sec.Calling? && sec.r.ReportAckFailed? && (x == sec.r.i || x in sec.r.rest)
    case _ => false
  }

  predicate Pending(s: State, x: nat) { PendingAt(s.loop, x) || PendingAt(s.callback, x) }

  /** An outcome that needs a report comes with it, or after it, or with it to follow. */
  predicate Given(s: State, a: Action, s': State, x: nat, o: Outcome)
  {
    NeedsReport(o) ==>
      Hears(s, a, x, o) || (o == Failed(true) && s.loop == NackSent(x)) || (o == AckAnswered(false) && Pending(s', x))
  }

  predicate Speaks(c: Config, s: State, a: Action, s': State, x: nat)
    requires Sized(c, s, x) && Sized(c, s', x)
  {
    (s'.outs[x] == s.outs[x]
     || (|s'.outs[x]| == |s.outs[x]| + 1 && s'.outs[x] == s.outs[x] + [s'.outs[x][|s.outs[x]|]]
         && Given(s, a, s', x, s'.outs[x][|s.outs[x]|])))
    && HandsBack(s, a, s', x) && (Pending(s, x) ==> Pending(s', x) || Hears(s, a, x, AckAnswered(false)))
  }

  /** A message is handed back only once its failure has been reported. */
  predicate HandsBack(s: State, a: Action, s': State, x: nat)
  {
    (s'.loop == Nack(x) ==> s.loop == Nack(x) || Hears(s, a, x, Failed(true)))
    && (s'.loop == NackSent(x) ==> s.loop == NackSent(x) || s.loop == Nack(x))
  }

  lemma EnvironmentSpeaks(c: Config, s: State, a: Action, x: nat)
    requires Typed(c, s) && x < c.n && !a.Step? && Apply(c, s, a).Some?
    ensures var s' := Apply(c, s, a).value; Sized(c, s', x) && Speaks(c, s, a, s', x)
  {
  }

  lemma RenewerSpeaks(c: Config, s: State, ch: Choice, x: nat)
    requires Typed(c, s) && x < c.n && StepRenewer(c, s, ch).Some?
    ensures var s' := StepRenewer(c, s, ch).value; Sized(c, s', x) && Speaks(c, s, Step(Renewer, ch), s', x)
  {
  }

  /** Thread t has moved to pc, with an outcome for message i if there is one. */
  lemma LeaveSpeaks(c: Config, s: State, t: Tid, ch: Choice, i: nat, o: Option<Outcome>, pc: PC, x: nat)
    requires Shape(c, s) && x < c.n && i < c.n && t != Renewer
    requires o.Some? && NeedsReport(o.value) ==> Hears(s, Step(t, ch), i, o.value)
    requires PendingAt(Pc(s, t), x) ==> PendingAt(pc, x) || Hears(s, Step(t, ch), x, AckAnswered(false))
    requires pc == Nack(x) ==> t == Loop && (s.loop == Nack(x) || Hears(s, Step(t, ch), x, Failed(true)))
    requires pc != NackSent(x)
    ensures var s' := Leave(s, t, i, o, pc); Sized(c, s', x) && Speaks(c, s, Step(t, ch), s', x)
  {
  }

  lemma CallingSpeaks(c: Config, s: State, t: Tid, ch: Choice, x: nat)
    requires Typed(c, s) && x < c.n && t != Renewer && ItsOwn(s, t) && Pc(s, t).In? && Pc(s, t).sec.Calling?
    ensures var r := Pc(s, t).sec.r;
            var s' := Leave(s, t, r.i, CalledOutcome(c, r), CalledPc(c, r));
            Sized(c, s', x) && Speaks(c, s, Step(t, ch), s', x)
  {
    var r := Pc(s, t).sec.r;
    LeaveSpeaks(c, s, t, ch, r.i, CalledOutcome(c, r), CalledPc(c, r), x);
  }

  lemma ReleasedSpeaks(c: Config, s: State, t: Tid, ch: Choice, x: nat)
    requires Typed(c, s) && x < c.n && t != Renewer && Pc(s, t).Left?
    ensures var k, lost := Pc(s, t).k, Pc(s, t).lost;
            var s' := Leave(s, t, k.i, ReleasedOutcome(k, lost), ReleasedPc(k, lost));
            Sized(c, s', x) && Speaks(c, s, Step(t, ch), s', x)
  {
    var k, lost := Pc(s, t).k, Pc(s, t).lost;
    LeaveSpeaks(c, s, t, ch, k.i, ReleasedOutcome(k, lost), ReleasedPc(k, lost), x);
  }

  lemma RefusedAre(list: seq<nat>, ok: set<nat>, x: nat)
    ensures x in Refused(list, ok) <==> x in list && x !in ok
  {
    if list != [] {
      RefusedAre(list[1..], ok, x);
      assert list == [list[0]] + list[1..];
    }
  }

  lemma AckedSpeaks(c: Config, s: State, t: Tid, ch: Choice, x: nat)
    requires Typed(c, s) && x < c.n && t != Renewer && Pc(s, t).AckSent?
    ensures var s' := AckedStep(s, t, Pc(s, t).toAck, ch.answered);
            Sized(c, s', x) && Speaks(c, s, Step(t, ch), s', x)
  {
    RefusedAre(Pc(s, t).toAck, ch.answered, x);
  }

  lemma HandedBackSpeaks(c: Config, s: State, t: Tid, ch: Choice, x: nat)
    requires Typed(c, s) && x < c.n && t != Renewer && Pc(s, t).NackBatchSent?
    ensures var s' := NackedBatchStep(s, t, Pc(s, t).list, ch.answered);
            Sized(c, s', x) && Speaks(c, s, Step(t, ch), s', x)
  {
  }

  lemma NackedSpeaks(c: Config, s: State, ch: Choice, x: nat)
    requires Typed(c, s) && x < c.n && s.loop.NackSent?
    ensures var s' := NackedStep(s, s.loop.i, s.loop.i in ch.answered);
            Sized(c, s', x) && Speaks(c, s, Step(Loop, ch), s', x)
  {
  }

  /** The thread has moved on and nothing else has changed that matters here. */
  lemma MovedSpeaks(c: Config, s: State, t: Tid, ch: Choice, s': State, x: nat)
    requires Shape(c, s) && x < c.n && t != Renewer && Shape(c, s') && s'.outs == s.outs && LoopStays(s, t, s')
    requires t == Loop ==> s'.callback == s.callback
    requires PendingAt(Pc(s, t), x) ==> PendingAt(Pc(s', t), x)
    requires t == Loop ==> s'.loop != Nack(x) && (s'.loop == NackSent(x) ==> s.loop == Nack(x))
    ensures Speaks(c, s, Step(t, ch), s', x)
  {
  }

  predicate Quiet(pc: PC)
  {
    !Answers(pc) && !pc.Left? && !(pc.In? && pc.sec.Calling?)
  }

  lemma QuietMoves(c: Config, s: State, t: Tid, ch: Choice, x: nat)
    requires Typed(c, s) && x < c.n && t != Renewer && ItsOwn(s, t) && StepPc(c, s, t, ch).Some? && Quiet(Pc(s, t))
    requires !s.loop.Idle?
    ensures var s' := StepPc(c, s, t, ch).value;
            (t == Loop ==> s'.callback == s.callback) && (PendingAt(Pc(s, t), x) ==> PendingAt(Pc(s', t), x))
            && (t == Loop ==> s'.loop != Nack(x) && (s'.loop == NackSent(x) ==> s.loop == Nack(x)))
  {
    if Pc(s, t).AckReports? && Pc(s, t).rest != [] {
      assert Pc(s, t).rest == [Pc(s, t).rest[0]] + Pc(s, t).rest[1..];
    }
  }

  lemma QuietOuts(c: Config, s: State, t: Tid, ch: Choice)
    requires Typed(c, s) && t != Renewer && ItsOwn(s, t) && StepPc(c, s, t, ch).Some? && Quiet(Pc(s, t))
    ensures var s' := StepPc(c, s, t, ch).value; Shape(c, s') && s'.outs == s.outs && LoopStays(s, t, s')
  {
    var pc := Pc(s, t);
    if pc.In? && pc.sec.LookLost? {
      LookLostTells(c, s, pc.sec.i, pc.sec.i);
    } else if pc.In? {
      InTells(c, s, t, pc.sec);
    } else if pc.Running? {
      RunTells(c, s, pc.i, ch.failed, pc.i);
    } else if Moves(pc) {
      MovesTell(c, s, t, ch);
    } else {
      QuietStepTells(c, s, t, ch);
    }
  }

  lemma ThreadSpeaks(c: Config, s: State, t: Tid, ch: Choice, x: nat)
    requires Typed(c, s) && x < c.n && t != Renewer && ItsOwn(s, t) && StepPc(c, s, t, ch).Some? && !s.loop.Idle?
    ensures var s' := StepPc(c, s, t, ch).value; Sized(c, s', x) && Speaks(c, s, Step(t, ch), s', x)
  {
    var pc := Pc(s, t);
    if pc.In? && pc.sec.Calling? {
      CallingSpeaks(c, s, t, ch, x);
    } else if pc.Left? {
      ReleasedSpeaks(c, s, t, ch, x);
    } else if pc.AckSent? {
      AckedSpeaks(c, s, t, ch, x);
    } else if pc.NackBatchSent? {
      HandedBackSpeaks(c, s, t, ch, x);
    } else if pc.NackSent? {
      NackedSpeaks(c, s, ch, x);
    } else {
      QuietOuts(c, s, t, ch);
      QuietMoves(c, s, t, ch, x);
      MovedSpeaks(c, s, t, ch, StepPc(c, s, t, ch).value, x);
    }
  }

  lemma StepSpeaks(c: Config, s: State, a: Action, s': State, x: nat)
    requires Inv(c, s) && x < c.n && IsNext(c, s, a, s')
    ensures Sized(c, s', x) && Speaks(c, s, a, s', x)
  {
    if !a.Step? {
      EnvironmentSpeaks(c, s, a, x);
    } else if a.t == Renewer {
      RenewerSpeaks(c, s, a.choice, x);
    } else {
      ThreadSpeaks(c, s, a.t, a.choice, x);
    }
  }

  // ----- over a run -----

  /** The error handler has heard of it by step j. */
  ghost predicate Heard(run: seq<Action>, states: seq<State>, j: nat, x: nat, o: Outcome)
    requires |states| == |run| + 1 && j <= |run|
  {
    exists i :: 0 <= i < j && Hears(states[i], run[i], x, o)
  }

  predicate SpeaksAt(c: Config, run: seq<Action>, states: seq<State>, i: nat, x: nat)
    requires |states| == |run| + 1 && i < |run|
  {
    var s, s' := states[i], states[i + 1];
    Sized(c, s, x) && Sized(c, s', x) && |s'.outs[x]| <= 1 && Speaks(c, s, run[i], s', x)
  }

  ghost predicate SpeaksThroughout(c: Config, run: seq<Action>, states: seq<State>, x: nat)
    requires |states| == |run| + 1
  {
    Sized(c, states[0], x) && states[0].outs[x] == [] && states[0].loop == At(0)
    && forall i: nat :: i < |run| ==> SpeaksAt(c, run, states, i, x)
  }

  lemma HeardLater(run: seq<Action>, states: seq<State>, j: nat, x: nat, o: Outcome)
    requires |states| == |run| + 1 && j < |run|
    ensures Heard(run, states, j + 1, x, o) <==> Heard(run, states, j, x, o) || Hears(states[j], run[j], x, o)
  {
  }

  lemma {:induction false} HeardSoFar(c: Config, run: seq<Action>, states: seq<State>, j: nat, x: nat)
    requires |states| == |run| + 1 && SpeaksThroughout(c, run, states, x) && j <= |run|
    ensures Sized(c, states[j], x)
    ensures states[j].loop == Nack(x) || states[j].loop == NackSent(x) ==> Heard(run, states, j, x, Failed(true))
    ensures |states[j].outs[x]| <= 1
    ensures states[j].outs[x] != [] && NeedsReport(states[j].outs[x][0]) ==>
              var o := states[j].outs[x][0];
              Heard(run, states, j, x, o) || (o == AckAnswered(false) && Pending(states[j], x))
  {
    if j > 0 {
      assert SpeaksAt(c, run, states, j - 1, x);
      HeardSoFar(c, run, states, j - 1, x);
      HeardLater(run, states, j - 1, x, Failed(true));
      HeardLater(run, states, j - 1, x, AckAnswered(false));
      if states[j].outs[x] != [] { HeardLater(run, states, j - 1, x, states[j].outs[x][0]); }
    }
  }

  /** Over every run of dispatchBatch, the error handler has been told of every message
      that was lost once its handler was due or had run, of every one whose handler
      failed, and of every one whose ack failed. */
  lemma EveryFailureIsReported(c: Config, run: seq<Action>, states: seq<State>, x: nat)
    requires ConfigOk(c) && Trace(c, run, states) && states[|run|].loop.Finished? && x < c.n
    ensures Sized(c, states[|run|], x) && |states[|run|].outs[x]| == 1
    ensures NeedsReport(states[|run|].outs[x][0]) ==> Heard(run, states, |run|, x, states[|run|].outs[x][0])
  {
    TraceSpeaks(c, run, states, x);
    HeardSoFar(c, run, states, |run|, x);
    TraceInv(c, run, states, |run|);
    NothingPending(c, states[|run|], x);
  }

  lemma TraceSpeaks(c: Config, run: seq<Action>, states: seq<State>, x: nat)
    requires ConfigOk(c) && Trace(c, run, states) && x < c.n
    ensures SpeaksThroughout(c, run, states, x)
  {
    forall i: nat | i < |run| ensures SpeaksAt(c, run, states, i, x) {
      TraceInv(c, run, states, i);
      TraceInv(c, run, states, i + 1);
      assert StepAt(c, run, states, i) && Msg(c, states[i + 1], x);
      StepSpeaks(c, states[i], run[i], states[i + 1], x);
    }
  }

  lemma NothingPending(c: Config, s: State, x: nat)
    requires Inv(c, s) && s.loop.Finished? && x < c.n
    ensures !Pending(s, x) && |s.outs[x]| == 1
  {
    assert Msg(c, s, x) && RoleOf(c, s.loop, x) == Absent && RoleOf(c, s.callback, x) == Absent;
  }
}

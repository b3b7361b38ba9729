/** Which messages of a batch are reported lost, exactly, and which of those are
    settled all the same. */
module BatchReports {
  import opened Common
  import opened BatchDispatch
  import opened BatchInvariant
  import opened BatchSteps
  import opened BatchTheorems
  import opened BatchRenewals

  predicate ReportsLost(o: Outcome)
  {
    o.LostBeforeStart? || o.LostWhileRunning? || o.LostBeforeAck? || o.LostUnstarted?
  }

  /** Over every run, a leased message whose handler ran is reported lost if and only if
      its lease was found gone, unless the loop saw that its handler had settled it.
      Whether a settle has been recorded since plays no part. */
  lemma ReportedLostExactlyWhenGone(c: Config, s: State, x: nat)
    requires Reachable(c, s) && x < c.n && s.loop.Finished? && Shape(c, s) && c.leased[x] && s.started[x]
    ensures |s.outs[x]| == 1
    ensures !s.outs[x][0].SettledByHandler? ==> (ReportsLost(s.outs[x][0]) <==> s.gone[x])
    ensures !s.outs[x][0].SettledByHandler? && !s.failed[x] ==> (s.outs[x][0].LostBeforeAck? <==> s.gone[x])
  {
    ExactlyOneOutcome(c, s, x);
    ReachableInv(c, s);
    assert Msg(c, s, x);
  }

  // ----- what one step does to a message's history -----

  /** The handler of message x returns. */
  predicate Returns(s: State, a: Action, x: nat) { a.Step? && a.t == Loop && s.loop == Running(x) }

  /** The loop looks whether the lease of message x has been lost before its handler runs. */
  predicate Looks(s: State, a: Action, x: nat) { a.Step? && a.t == Loop && s.loop == In(LookLost(x)) }

  predicate Sized(c: Config, s: State, x: nat)
  {
    Shape(c, s) && x < c.n
  }

  /** Settled, started and ended stay so.  The message is settled by its handler, or in
      the step that gives it the outcome of an ack or a nack. */
  predicate Lasts(c: Config, s: State, a: Action, s': State, x: nat)
    requires Sized(c, s, x) && Sized(c, s', x)
  {
    (s.settled[x] ==> s'.settled[x]) && (s.started[x] ==> s'.started[x]) && s.outs[x] <= s'.outs[x]
    && (s'.settled[x] && !s.settled[x] ==> a == UserRecorded(x) || Answered(s.outs[x], s'.outs[x]))
    && (a == UserRecorded(x) ==> s'.settled[x])
  }

  predicate Answered(before: seq<Outcome>, after: seq<Outcome>)
  {
    |after| == |before| + 1 && !ReportsLost(after[|before|])
  }

  /** atReturn is what it says, and a handler that has been called runs until it returns. */
  predicate Recalls(c: Config, s: State, a: Action, s': State, x: nat)
    requires Sized(c, s, x) && Sized(c, s', x)
  {
    s'.atReturn[x] == (if Returns(s, a, x) then s.settled[x] else s.atReturn[x])
    && (if Looks(s, a, x) then s'.started[x] == (s.started[x] || !s.gone[x]) else s'.started[x] == s.started[x])
    && (s'.started[x] && !s.started[x] ==> s'.loop == Running(x))
    && (s.loop == Running(x) && !Returns(s, a, x) ==> s'.loop == Running(x))
  }

  /** Only the handler of a message that was started settles it. */
  predicate Settles(c: Config, s: State, a: Action, s': State, x: nat)
    requires Sized(c, s, x) && Sized(c, s', x)
  {
    (s'.settling[x] > s.settling[x] ==> s.started[x]) && (a == UserRecorded(x) ==> s.settling[x] > 0)
  }

  predicate Told(c: Config, s: State, a: Action, s': State, x: nat)
    requires Sized(c, s, x) && Sized(c, s', x)
  {
    Lasts(c, s, a, s', x) && Recalls(c, s, a, s', x) && Settles(c, s, a, s', x)
  }

  lemma EnvironmentTells(c: Config, s: State, a: Action, x: nat)
    requires Typed(c, s) && x < c.n && !a.Step? && Apply(c, s, a).Some?
    ensures var s' := Apply(c, s, a).value; Sized(c, s', x) && Told(c, s, a, s', x)
  {
  }

  lemma RenewerTells(c: Config, s: State, ch: Choice, x: nat)
    requires Typed(c, s) && x < c.n && StepRenewer(c, s, ch).Some?
    ensures var s' := StepRenewer(c, s, ch).value; Sized(c, s', x) && Told(c, s, Step(Renewer, ch), s', x)
  {
  }

  /** The history of the message is as it was. */
  predicate SameHistory(c: Config, s: State, s': State)
    requires Shape(c, s)
  {
    Shape(c, s') && s'.settled == s.settled && s'.started == s.started && s'.outs == s.outs
    && s'.atReturn == s.atReturn && s'.settling == s.settling
  }

  /** The steps that write down the history of a message. */
  predicate Writes(pc: PC)
  {
    Answers(pc) || pc.Left? || pc.Running? || (pc.In? && (pc.sec.LookLost? || pc.sec.Calling?))
  }

  /** The callback takes none of the steps that are the loop's alone. */
  predicate ItsOwn(s: State, t: Tid)
  {
    t == Callback ==> (s.callback.Idle? || PhaseOf(s.callback) != Body) && !s.callback.Stop? && !s.callback.StopWait?
  }

  predicate LoopStays(s: State, t: Tid, s': State) { t == Callback ==> s'.loop == s.loop }

  lemma InTells(c: Config, s: State, t: Tid, sec: Section)
    requires Shape(c, s) && Pc(s, t) == In(sec) && SectionOk(c, sec) && ItsOwn(s, t)
    requires InStep(c, s, t, sec).Some? && !sec.LookLost? && !sec.Calling?
    ensures var s' := InStep(c, s, t, sec).value; SameHistory(c, s, s') && LoopStays(s, t, s')
  {
  }

  lemma GotoTells(c: Config, s: State, t: Tid, pc: PC)
    requires Shape(c, s)
    ensures SameHistory(c, s, Goto(s, t, pc)) && LoopStays(s, t, Goto(s, t, pc))
  {
  }

  /** The steps of a thread that only move it on. */
  predicate Moves(pc: PC) { pc.Want? || pc.FlushNext? || pc.AckReports? || pc.HandBackNext? }

  lemma MovesTell(c: Config, s: State, t: Tid, ch: Choice)
    requires Shape(c, s) && PcOk(c, Pc(s, t)) && Moves(Pc(s, t)) && StepPc(c, s, t, ch).Some?
    ensures var s' := StepPc(c, s, t, ch).value; SameHistory(c, s, s') && LoopStays(s, t, s')
  {
    match Pc(s, t)
    case Want(sec) => GotoTells(c, s, t, In(sec));
    case FlushNext(todo, toAck) => GotoTells(c, s, t, FlushNextPc(todo, toAck));
    case AckReports(rest) => GotoTells(c, s, t, AckReportsPc(rest));
    case HandBackNext(at, list) => GotoTells(c, s, t, HandBackNextPc(c, t, at, list));
    case _ =>
  }

  lemma QuietStepTells(c: Config, s: State, t: Tid, ch: Choice)
    requires Shape(c, s) && PcOk(c, Pc(s, t)) && ItsOwn(s, t) && StepPc(c, s, t, ch).Some?
    requires !Writes(Pc(s, t)) && !Pc(s, t).In? && !Moves(Pc(s, t))
    ensures var s' := StepPc(c, s, t, ch).value; SameHistory(c, s, s') && LoopStays(s, t, s')
  {
  }

  lemma LeaveTells(c: Config, s: State, t: Tid, i: nat, o: Option<Outcome>, pc: PC, x: nat)
    requires Shape(c, s) && x < c.n && i < c.n
    ensures var s' := Leave(s, t, i, o, pc);
            SameHistory(c, s, s'.(outs := s.outs)) && LoopStays(s, t, s') && Sized(c, s', x) && s.outs[x] <= s'.outs[x]
  {
  }

  lemma LookLostTells(c: Config, s: State, i: nat, x: nat)
    requires Shape(c, s) && x < c.n && i < c.n
    ensures var s' := LookLostStep(s, i);
            SameHistory(c, s, s'.(started := s.started)) && Sized(c, s', x)
            && s'.started[x] == (s.started[x] || (x == i && !s.gone[x]))
            && (s'.started[x] && !s.started[x] ==> s'.loop == Running(x))
  {
  }

  lemma RunTells(c: Config, s: State, i: nat, failed: bool, x: nat)
    requires Shape(c, s) && x < c.n && i < c.n
    ensures var s' := RunStep(c, s, i, failed);
            SameHistory(c, s, s'.(atReturn := s.atReturn)) && Sized(c, s', x)
            && s'.atReturn[x] == if x == i then s.settled[x] else s.atReturn[x]
  {
  }

  lemma AnswerTells(c: Config, s: State, t: Tid, ch: Choice, x: nat)
    requires Shape(c, s) && PcOk(c, Pc(s, t)) && x < c.n && Answers(Pc(s, t)) && ItsOwn(s, t)
    ensures var s' := StepPc(c, s, t, ch).value;
            SameHistory(c, s, s'.(outs := s.outs, settled := s.settled)) && LoopStays(s, t, s') && Sized(c, s', x)
            && s.outs[x] <= s'.outs[x] && (s.settled[x] ==> s'.settled[x])
            && (s'.settled[x] && !s.settled[x] ==> Answered(s.outs[x], s'.outs[x]))
  {
    match Pc(s, t)
    case NackSent(i) => NackTells(c, s, i, i in ch.answered, x);
    case AckSent(toAck) => RepliesTell(c, s, t, toAck, ch.answered, true, AckReports(Refused(toAck, ch.answered)), x);
    case NackBatchSent(list) => RepliesTell(c, s, t, list, ch.answered, false, AfterHandBack(t), x);
    case _ =>
  }

  lemma NackTells(c: Config, s: State, i: nat, ok: bool, x: nat)
    requires Shape(c, s) && x < c.n && i < c.n
    ensures var s' := NackedStep(s, i, ok);
            SameHistory(c, s, s'.(outs := s.outs, settled := s.settled)) && Sized(c, s', x)
            && s.outs[x] <= s'.outs[x] && (s.settled[x] ==> s'.settled[x])
            && (s'.settled[x] && !s.settled[x] ==> Answered(s.outs[x], s'.outs[x]))
  {
  }

  lemma RepliesTell(c: Config, s: State, t: Tid, list: seq<nat>, ok: set<nat>, ack: bool, pc: PC, x: nat)
    requires Shape(c, s) && x < c.n
    ensures var s' := Goto(Answer(s, list, ok, ack), t, pc);
            SameHistory(c, s, s'.(outs := s.outs, settled := s.settled)) && LoopStays(s, t, s') && Sized(c, s', x)
            && s.outs[x] <= s'.outs[x] && (s.settled[x] ==> s'.settled[x])
            && (s'.settled[x] && !s.settled[x] ==> Answered(s.outs[x], s'.outs[x]))
  {
  }

  lemma SameTells(c: Config, s: State, a: Action, s': State, x: nat)
    requires Shape(c, s) && x < c.n && SameHistory(c, s, s') && a.Step? && a.t != Renewer && LoopStays(s, a.t, s')
    requires a.t == Loop ==> !s.loop.Running? && s.loop != In(LookLost(x))
    ensures Told(c, s, a, s', x)
  {
  }

  lemma InStepTells(c: Config, s: State, t: Tid, ch: Choice, x: nat)
    requires Typed(c, s) && x < c.n && t != Renewer && ItsOwn(s, t) && Pc(s, t).In? && StepPc(c, s, t, ch).Some?
    ensures var s' := StepPc(c, s, t, ch).value; Sized(c, s', x) && Told(c, s, Step(t, ch), s', x)
  {
    var sec, s' := Pc(s, t).sec, StepPc(c, s, t, ch).value;
    if sec.LookLost? {
      LookLostTells(c, s, sec.i, x);
    } else if sec.Calling? {
      LeaveTells(c, s, t, sec.r.i, CalledOutcome(c, sec.r), CalledPc(c, sec.r), x);
    } else {
      InTells(c, s, t, sec);
      SameTells(c, s, Step(t, ch), s', x);
    }
  }

  lemma ThreadTells(c: Config, s: State, t: Tid, ch: Choice, x: nat)
    requires Typed(c, s) && x < c.n && t != Renewer && ItsOwn(s, t) && StepPc(c, s, t, ch).Some?
    ensures var s' := StepPc(c, s, t, ch).value; Sized(c, s', x) && Told(c, s, Step(t, ch), s', x)
  {
    var pc := Pc(s, t);
    if pc.In? {
      InStepTells(c, s, t, ch, x);
    } else if pc.Left? {
      LeaveTells(c, s, t, pc.k.i, ReleasedOutcome(pc.k, pc.lost), ReleasedPc(pc.k, pc.lost), x);
    } else if pc.Running? {
      RunTells(c, s, pc.i, ch.failed, x);
    } else if Answers(pc) {
      AnswerTells(c, s, t, ch, x);
    } else {
      if Moves(pc) { MovesTell(c, s, t, ch); } else { QuietStepTells(c, s, t, ch); }
      SameTells(c, s, Step(t, ch), StepPc(c, s, t, ch).value, x);
    }
  }

  lemma StepTells(c: Config, s: State, a: Action, s': State, x: nat)
    requires Inv(c, s) && x < c.n && IsNext(c, s, a, s')
    ensures Sized(c, s', x) && Told(c, s, a, s', x)
  {
    if !a.Step? {
      EnvironmentTells(c, s, a, x);
    } else if a.t == Renewer {
      RenewerTells(c, s, a.choice, x);
    } else {
      ThreadTells(c, s, a.t, a.choice, x);
    }
  }

  // ----- over a run -----

  /** A message has one outcome at most, and the step does to its history what it may. */
  predicate ToldAt(c: Config, run: seq<Action>, states: seq<State>, i: nat, x: nat)
    requires |states| == |run| + 1 && i < |run|
  {
    var s, s' := states[i], states[i + 1];
    Sized(c, s, x) && Sized(c, s', x) && |s'.outs[x]| <= 1 && Told(c, s, run[i], s', x)
  }

  ghost predicate ToldThroughout(c: Config, run: seq<Action>, states: seq<State>, x: nat)
    requires |states| == |run| + 1
  {
    Sized(c, states[0], x) && states[0].outs[x] == [] && states[0].settling[x] == 0
    && !states[0].settled[x] && !states[0].started[x] && forall i: nat :: i < |run| ==> ToldAt(c, run, states, i, x)
  }

  lemma TraceTold(c: Config, run: seq<Action>, states: seq<State>, x: nat)
    requires ConfigOk(c) && Trace(c, run, states) && x < c.n
    ensures ToldThroughout(c, run, states, x)
  {
    forall i: nat | i < |run| ensures ToldAt(c, run, states, i, x) {
      TraceInv(c, run, states, i);
      TraceInv(c, run, states, i + 1);
      assert StepAt(c, run, states, i) && Msg(c, states[i + 1], x);
      StepTells(c, states[i], run[i], states[i + 1], x);
    }
  }

  /** It is reported lost by step j, if it has ended at all. */
  predicate LostSoFar(s: State, x: nat) { x < |s.outs| && (s.outs[x] == [] || ReportsLost(s.outs[x][0])) }

  /** As long as nothing else has become of a message, only its handler settles it. */
  lemma {:induction false} SettledByRecords(c: Config, run: seq<Action>, states: seq<State>, j: nat, x: nat)
    requires |states| == |run| + 1 && ToldThroughout(c, run, states, x) && j <= |run| && LostSoFar(states[j], x)
    ensures Sized(c, states[j], x) && (states[j].settled[x] <==> UserRecorded(x) in run[..j])
  {
    if j > 0 {
      assert ToldAt(c, run, states, j - 1, x);
      SettledByRecords(c, run, states, j - 1, x);
      assert run[..j] == run[..j - 1] + [run[j - 1]];
    }
  }

  lemma {:induction false} OnlyStartedSettle(c: Config, run: seq<Action>, states: seq<State>, j: nat, x: nat)
    requires |states| == |run| + 1 && ToldThroughout(c, run, states, x) && j <= |run|
    ensures Sized(c, states[j], x)
    ensures states[j].settling[x] > 0 || UserRecorded(x) in run[..j] ==> states[j].started[x]
  {
    if j > 0 {
      assert ToldAt(c, run, states, j - 1, x);
      OnlyStartedSettle(c, run, states, j - 1, x);
      assert run[..j] == run[..j - 1] + [run[j - 1]];
    }
  }

  lemma {:induction false} StartedReturns(c: Config, run: seq<Action>, states: seq<State>, j: nat, x: nat)
    returns (r: nat)
    requires |states| == |run| + 1 && ToldThroughout(c, run, states, x) && j <= |run| && Sized(c, states[j], x)
    requires states[j].started[x] && states[j].loop != Running(x)
    ensures r < j && Returns(states[r], run[r], x)
  {
    assert ToldAt(c, run, states, j - 1, x);
    r := j - 1;
    if !Returns(states[r], run[r], x) {
      r := StartedReturns(c, run, states, j - 1, x);
    }
  }

  lemma {:induction false} SettledAtReturn(c: Config, run: seq<Action>, states: seq<State>, r: nat, j: nat, x: nat)
    requires |states| == |run| + 1 && ToldThroughout(c, run, states, x) && r < j <= |run|
    requires Sized(c, states[r], x) && states[r].settled[x] && Returns(states[r], run[r], x)
    ensures Sized(c, states[j], x) && states[j].settled[x] && states[j].atReturn[x]
  {
    assert ToldAt(c, run, states, j - 1, x);
    if j > r + 1 {
      SettledAtReturn(c, run, states, r, j - 1, x);
    }
  }

  lemma {:induction false} LostAllAlong(c: Config, run: seq<Action>, states: seq<State>, i: nat, j: nat, x: nat)
    requires |states| == |run| + 1 && ToldThroughout(c, run, states, x) && i <= j <= |run| && LostSoFar(states[j], x)
    ensures LostSoFar(states[i], x)
  {
    if i < j {
      assert ToldAt(c, run, states, j - 1, x);
      LostAllAlong(c, run, states, i, j - 1, x);
    }
  }

  /** In every run, a message that has been reported lost is settled all the same if and
      only if its handler was called, has returned at some step r, and a settle of its own
      has been recorded after that. */
  lemma LostButSettledExactlyWhenRecordedAfterReturn(c: Config, run: seq<Action>, states: seq<State>, j: nat, x: nat)
    returns (r: nat)
    requires ConfigOk(c) && Trace(c, run, states) && j <= |run| && Sized(c, states[j], x)
    requires states[j].outs[x] != [] && ReportsLost(states[j].outs[x][0])
    ensures !states[j].started[x] ==> !states[j].settled[x]
    ensures states[j].started[x] ==>
              r < j && Returns(states[r], run[r], x) && (states[j].settled[x] <==> UserRecorded(x) in run[r + 1..j])
  {
    TraceTold(c, run, states, x);
    SettledByRecords(c, run, states, j, x);
    OnlyStartedSettle(c, run, states, j, x);
    r := 0;
    if states[j].started[x] {
      TraceInv(c, run, states, j);
      LostHasReturned(c, states[j], x);
      r := StartedReturns(c, run, states, j, x);
      LostAllAlong(c, run, states, r, j, x);
      SettledByRecords(c, run, states, r, x);
      if states[r].settled[x] { SettledAtReturn(c, run, states, r, j, x); }
      assert run[..j] == run[..r] + [run[r]] + run[r + 1..j];
    }
  }

  lemma LostHasReturned(c: Config, s: State, x: nat)
    requires Inv(c, s) && x < c.n && s.started[x] && s.outs[x] != [] && ReportsLost(s.outs[x][0])
    ensures s.loop != Running(x) && !s.atReturn[x]
  {
    assert Msg(c, s, x);
  }

  // ----- such a message -----

  const ONE := Config(1, [true], false)

  /** The handler of the only message runs and has begun to ack it elsewhere. */
  function Acking(): State
    ensures Shape(ONE, Acking())
  {
    State(false, Armed, 1, false, [], [true], [false], [false], [1],
          [true], [false], [false], [[]], Running(0), Idle, Waiting)
  }

  /** The loop has taken it and is about to run it. */
  function Starting(): State
    ensures Shape(ONE, Starting())
  {
    Acking().(settling := [0], started := [false], loop := In(LookLost(0)))
  }

  lemma OneBegins()
    ensures Init(ONE) == Starting().(next := 0, loop := At(0))
  {
  }

  lemma OneStarts()
    ensures Reachable(ONE, Starting())
  {
    OneBegins();
    var s := Starting().(next := 0);
    assert Leads(ONE, Init(ONE), [], s.(loop := At(0)));
    ReachNext(ONE, s.(loop := At(0)), Step(Loop, QUIET), s.(loop := Want(Start(0))));
    ReachNext(ONE, s.(loop := Want(Start(0))), Step(Loop, QUIET), s.(loop := In(Start(0))));
    ReachNext(ONE, s.(loop := In(Start(0))), Step(Loop, QUIET), Starting().(loop := Want(LookLost(0))));
    ReachNext(ONE, Starting().(loop := Want(LookLost(0))), Step(Loop, QUIET), Starting());
  }

  lemma OneRuns()
    ensures Reachable(ONE, Acking())
  {
    OneStarts();
    var s, s' := Starting(), Acking().(settling := [0]);
    assert s.started[0 := true] == [true] && s'.settling[0 := 1] == [1];
    ReachNext(ONE, s, Step(Loop, QUIET), s');
    ReachNext(ONE, s', UserSettles(0), Acking());
  }

  /** It returns without an error while that ack is on its way, and the message is queued. */
  function Queued(): State
    ensures Shape(ONE, Queued())
  {
    Acking().(succeeded := [0], loop := At(1))
  }

  lemma OneQueues()
    ensures Reachable(ONE, Queued())
  {
    OneRuns();
    var s := Acking();
    assert s.atReturn[0 := false] == [false] && s.failed[0 := false] == [false] && [] + [0] == [0];
    ReachNext(ONE, s, Step(Loop, QUIET), s.(loop := Returned(0, false)));
    ReachNext(ONE, s.(loop := Returned(0, false)), Step(Loop, QUIET), s.(loop := Want(Push(0))));
    ReachNext(ONE, s.(loop := Want(Push(0))), Step(Loop, QUIET), s.(loop := In(Push(0))));
    ReachNext(ONE, s.(loop := In(Push(0))), Step(Loop, QUIET), Queued());
  }

  lemma OneRound()
    ensures Reachable(ONE, Queued().(ren := Collect(0, [])))
  {
    OneQueues();
    var s := Queued();
    ReachNext(ONE, s, Tick, s.(ren := WantRound));
    ReachNext(ONE, s.(ren := WantRound), Step(Renewer, QUIET), s.(ren := InRound));
    ReachNext(ONE, s.(ren := InRound), Step(Renewer, QUIET), s.(ren := Collect(0, [])));
  }

  /** A round carries the message and is told 410 for it. */
  lemma OneCarried()
    ensures Reachable(ONE, Queued().(ren := Judge([0], [0], {0})))
  {
    OneRound();
    var s := Queued();
    assert [] + [0] == [0];
    ReachNext(ONE, s.(ren := Collect(0, [])), Step(Renewer, QUIET), s.(ren := Collect(1, [0])));
    ReachNext(ONE, s.(ren := Collect(1, [0])), Step(Renewer, QUIET), s.(ren := ExtendSent([0])));
    ReachNext(ONE, s.(ren := ExtendSent([0])), Step(Renewer, Choice(false, {0})), s.(ren := Judge([0], [0], {0})));
  }

  /** The ack is recorded between the renewer's two reads. */
  lemma OneSlipsThrough()
    ensures Reachable(ONE, Queued().(settled := [true], settling := [0], ren := JudgeSettling([0], [0], {0})))
  {
    OneCarried();
    var s, settling := Queued(), JudgeSettling([0], [0], {0});
    ReachNext(ONE, s.(ren := Judge([0], [0], {0})), Step(Renewer, QUIET), s.(ren := settling));
    assert s.settled[0 := true] == [true] && s.settling[0 := 0] == [0];
    ReachNext(ONE, s.(ren := settling), UserRecorded(0), s.(settled := [true], ren := settling));
    ReachNext(ONE, s.(settled := [true], ren := settling), UserReturns(0),
              s.(settled := [true], settling := [0], ren := settling));
  }

  /** The lease is marked gone and the round is over. */
  function Gone(): State
    ensures Shape(ONE, Gone())
  {
    Queued().(settled := [true], settling := [0], held := [false], gone := [true])
  }

  lemma OneIsGone()
    ensures Reachable(ONE, Gone())
  {
    OneSlipsThrough();
    var s := Queued().(settled := [true], settling := [0]);
    var settling, mark, inMark := JudgeSettling([0], [0], {0}), Mark([0], [0], {0}), InMark([0], [0], {0});
    assert s.held[0 := false] == [false] && s.gone[0 := true] == [true] && [0][1..] == [];
    ReachNext(ONE, s.(ren := settling), Step(Renewer, QUIET), s.(ren := mark));
    ReachNext(ONE, s.(ren := mark), Step(Renewer, QUIET), s.(ren := inMark));
    ReachNext(ONE, s.(ren := inMark), Step(Renewer, QUIET), Gone().(ren := Judge([0], [], {0})));
    OneRoundEnds();
  }

  lemma OneRoundEnds()
    requires Reachable(ONE, Gone().(ren := Judge([0], [], {0})))
    ensures Reachable(ONE, Gone())
  {
    ReachNext(ONE, Gone().(ren := Judge([0], [], {0})), Step(Renewer, QUIET), Gone().(ren := LeaveRound([0])));
    ReachNext(ONE, Gone().(ren := LeaveRound([0])), Step(Renewer, QUIET), Gone());
  }

  lemma OneFlushes()
    ensures Reachable(ONE, Gone().(after := Stopped, succeeded := [], loop := FlushNext([0], [])))
  {
    OneIsGone();
    var s := Gone();
    ReachNext(ONE, s, Step(Loop, QUIET), s.(loop := Join));
    ReachNext(ONE, s.(loop := Join), Step(Loop, QUIET), s.(after := Stopped, loop := Want(Take)));
    ReachNext(ONE, s.(after := Stopped, loop := Want(Take)), Step(Loop, QUIET), s.(after := Stopped, loop := In(Take)));
    ReachNext(ONE, s.(after := Stopped, loop := In(Take)), Step(Loop, QUIET),
              s.(after := Stopped, succeeded := [], loop := FlushNext([0], [])));
  }

  lemma OneIsReleased()
    ensures Reachable(ONE, Gone().(after := Stopped, succeeded := [], loop := Left(Flushing(0, [], []), true)))
  {
    OneFlushes();
    var s, k := Gone().(after := Stopped, succeeded := []), Flushing(0, [], []);
    assert [0][1..] == [];
    ReachNext(ONE, s.(loop := FlushNext([0], [])), Step(Loop, QUIET), s.(loop := Want(Renewals(k))));
    OneReleases();
  }

  lemma OneReleases()
    requires var s := Gone().(after := Stopped, succeeded := [], loop := Want(Renewals(Flushing(0, [], []))));
             Reachable(ONE, s)
    ensures Reachable(ONE, Gone().(after := Stopped, succeeded := [], loop := Left(Flushing(0, [], []), true)))
  {
    var s, k := Gone().(after := Stopped, succeeded := []), Flushing(0, [], []);
    assert s.held[0 := false] == [false];
    ReachNext(ONE, s.(loop := Want(Renewals(k))), Step(Loop, QUIET), s.(loop := In(Renewals(k))));
    ReachNext(ONE, s.(loop := In(Renewals(k))), Step(Loop, QUIET), s.(loop := Both(k)));
    ReachNext(ONE, s.(loop := Both(k)), Step(Loop, QUIET), s.(loop := Left(k, true)));
  }

  /** The flush does not ask again whether a message is settled, so a message whose
      handler succeeded and settled it can be reported lost before its ack. */
  lemma ReportsASettledMessageLost()
    ensures exists s :: Reachable(ONE, s) && Shape(ONE, s)
                        && s.settled[0] && !s.failed[0] && s.outs[0] == [LostBeforeAck]
  {
    OneIsReleased();
    var s, k := Gone().(after := Stopped, succeeded := []), Flushing(0, [], []);
    var call := Calling(ReportLostAtFlush(0, [], []));
    ReachNext(ONE, s.(loop := Left(k, true)), Step(Loop, QUIET), s.(loop := Want(call)));
    ReachNext(ONE, s.(loop := Want(call)), Step(Loop, QUIET), s.(loop := In(call)));
    assert s.outs[0 := [LostBeforeAck]] == [[LostBeforeAck]] && [] + [LostBeforeAck] == [LostBeforeAck];
    var s' := s.(outs := [[LostBeforeAck]], loop := FlushNext([], []));
    ReachNext(ONE, s.(loop := In(call)), Step(Loop, QUIET), s');
    assert s'.settled[0] && s'.outs[0] == [LostBeforeAck];
  }
}

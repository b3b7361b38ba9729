/** What batch dispatch guarantees, over every run: any number of messages, any
    interleaving, shutdown at any point and any answers from the broker. */
module BatchTheorems {
  import opened BatchDispatch
  import opened BatchInvariant
  import opened BatchSteps

  /** Some run of dispatchBatch leads to s. */
  ghost predicate Reachable(c: Config, s: State)
  {
    ConfigOk(c) && exists run :: Leads(c, Init(c), run, s)
  }

  lemma ReachableInv(c: Config, s: State)
    requires Reachable(c, s)
    ensures Inv(c, s)
  {
    var run :| Leads(c, Init(c), run, s);
    InitInv(c);
    LeadsInv(c, Init(c), run, s);
  }

  // ----- one outcome each -----

  lemma AtMostOneOutcome(c: Config, s: State, x: nat)
    requires Reachable(c, s) && x < c.n
    ensures x < |s.outs| && |s.outs[x]| <= 1
  {
    ReachableInv(c, s);
    assert Msg(c, s, x);
  }

  /** When dispatchBatch returns every message has exactly one outcome and no
      lease is held, and the outcome is the one its history calls for. */
  lemma ExactlyOneOutcome(c: Config, s: State, x: nat)
    requires Reachable(c, s) && x < c.n && s.loop.Finished?
    ensures Shape(c, s) && |s.outs[x]| == 1 && !s.held[x] && Fits(c, s, x, s.outs[x][0])
  {
    ReachableInv(c, s);
    assert Msg(c, s, x);
    assert RoleOf(c, s.loop, x) == Absent && RoleOf(c, s.callback, x) == Absent;
  }

  /** The outcome a finished message must have.  One the loop did not take has been
      handed back, because of shutdown, or was lost before that.  One it took was lost
      before its handler was called, had no lease, or was settled by its handler; or
      else what its handler returned decides: success has it acked, failure has it
      handed back if the consumer wants that, and if its lease is gone it is neither,
      but reported lost. */
  predicate Fits(c: Config, s: State, x: nat, o: Outcome)
    requires Shape(c, s) && x < c.n
  {
    if x >= s.next then
      s.shutdown && !s.started[x]
      && if s.gone[x] then o.LostUnstarted? else o.HandedBack? && (o.ok ==> s.settled[x])
    else if !s.started[x] then s.gone[x] && o.LostBeforeStart?
    else if !c.leased[x] then o.NoLease?
    else if o.SettledByHandler? then s.settled[x]
    else
      !s.atReturn[x]
      && if s.gone[x] then o == (if s.failed[x] then LostWhileRunning else LostBeforeAck)
         else if s.failed[x] then o == Failed(c.requeue)
         else o.AckAnswered? && (o.ok ==> s.settled[x])
  }

  // ----- leases are kept alive -----

  /** Until a message has ended, or the dispatcher has let go of its lease to settle it,
      its lease is held unless it was found gone. */
  lemma LeaseIsKept(c: Config, s: State, x: nat)
    requires Reachable(c, s) && Shape(c, s) && x < c.n && c.leased[x] && !s.gone[x] && s.outs[x] == []
    requires !LetGo(RoleOf(c, s.loop, x)) && !LetGo(RoleOf(c, s.callback, x))
    ensures s.held[x]
  {
    ReachableInv(c, s);
    assert Msg(c, s, x);
  }

  /** A renewal asks for every lease that has been held, and every message that has been
      unsettled, for as long as its list was made up. */
  lemma RenewalAsksForAll(c: Config, s: State, x: nat)
    requires Reachable(c, s) && Shape(c, s) && x < c.n && s.ren.ExtendSent? && s.held[x] && !s.settled[x]
    ensures x in s.ren.carry
  {
    ReachableInv(c, s);
    assert Msg(c, s, x);
  }

  /** A message whose settle was recorded by the time its handler returned is
      never reported lost, at any point of any run. */
  lemma SettledNeverReportedLost(c: Config, s: State, x: nat)
    requires Reachable(c, s) && x < c.n && Shape(c, s) && s.atReturn[x]
    ensures forall o <- s.outs[x] ::
              !o.LostBeforeStart? && !o.LostWhileRunning? && !o.LostBeforeAck? && !o.LostUnstarted?
  {
    ReachableInv(c, s);
    assert Msg(c, s, x);
  }

  // ----- acks and nacks against renewals -----

  /** The thread at pc has an ack or a nack of message x on its way. */
  predicate Sends(pc: PC, x: nat)
  {
    (pc.NackSent? && pc.i == x) || (pc.AckSent? && x in pc.toAck) || (pc.NackBatchSent? && x in pc.list)
  }

  /** No renewal touches the message, and none found its lease gone. */
  predicate Safe(c: Config, s: State, x: nat)
    requires Shape(c, s) && x < c.n
  {
    Quiet(ViewOf(c, s, x)) && !s.gone[x]
  }

  /** A message being acked or nacked is not marked gone, its lease is not held
      and no round carries it; it has had no outcome, and the other thread is
      not dealing with it. */
  lemma SendsSafely(c: Config, s: State, t: Tid, x: nat)
    requires Reachable(c, s) && t != Renewer && x < c.n && Sends(Pc(s, t), x)
    ensures Shape(c, s) && Safe(c, s, x) && s.outs[x] == [] && x !in s.succeeded
    ensures RoleOf(c, if t == Callback then s.loop else s.callback, x) == Absent
  {
    ReachableInv(c, s);
    assert Msg(c, s, x);
  }

  predicate SameLeases(s: State, s': State)
  {
    s'.gone == s.gone && s'.held == s.held && s'.ren == s.ren
  }

  lemma InKeepsLeases(c: Config, s: State, t: Tid, sec: Section)
    requires Shape(c, s) && SectionOk(c, sec) && InStep(c, s, t, sec).Some?
    ensures SameLeases(s, InStep(c, s, t, sec).value)
  {
  }

  lemma ReleasedKeepsLeases(s: State, t: Tid, k: Task, lost: bool)
    requires k.i < |s.outs|
    ensures SameLeases(s, Leave(s, t, k.i, ReleasedOutcome(k, lost), ReleasedPc(k, lost)))
  {
  }

  lemma OthersKeepLeases(c: Config, s: State, t: Tid, ch: Choice)
    requires Shape(c, s) && PcOk(c, Pc(s, t)) && StepPc(c, s, t, ch).Some? && !Pc(s, t).In? && !Pc(s, t).Both?
    ensures SameLeases(s, StepPc(c, s, t, ch).value)
  {
    var pc := Pc(s, t);
    if pc.Left? { ReleasedKeepsLeases(s, t, pc.k, pc.lost); }
  }

  lemma RenewerStays(c: Config, s: State, t: Tid, ch: Choice)
    requires Typed(c, s) && StepPc(c, s, t, ch).Some?
    ensures StepPc(c, s, t, ch).value.ren == s.ren
  {
    if Pc(s, t).In? {
      InKeepsLeases(c, s, t, Pc(s, t).sec);
    } else if !Pc(s, t).Both? {
      OthersKeepLeases(c, s, t, ch);
    }
  }

  /** The loop and the callback take leases out of the renewer's hands and never
      put one back. */
  lemma LeasesOnlyDrop(c: Config, s: State, t: Tid, ch: Choice, x: nat)
    requires Typed(c, s) && x < c.n && StepPc(c, s, t, ch).Some?
    ensures var s' := StepPc(c, s, t, ch).value;
            s'.gone == s.gone && s'.ren == s.ren && |s'.held| == c.n && (s'.held[x] ==> s.held[x])
  {
    if Pc(s, t).In? {
      InKeepsLeases(c, s, t, Pc(s, t).sec);
    } else if !Pc(s, t).Both? {
      OthersKeepLeases(c, s, t, ch);
    }
  }

  lemma RenewerKeepsSafe(c: Config, s: State, ch: Choice, x: nat)
    requires Typed(c, s) && x < c.n && Safe(c, s, x) && StepRenewer(c, s, ch).Some?
    ensures Shape(c, StepRenewer(c, s, ch).value) && Safe(c, StepRenewer(c, s, ch).value, x)
  {
    ListGrows(c, s, ch, x);
    if s.ren.InMark? { assert s.ren.todo[0] in s.ren.carry; }
  }

  lemma EnvironmentKeepsSafe(c: Config, s: State, a: Action, x: nat)
    requires Typed(c, s) && x < c.n && Safe(c, s, x) && !a.Step? && Apply(c, s, a).Some?
    ensures Shape(c, Apply(c, s, a).value) && Safe(c, Apply(c, s, a).value, x)
  {
  }

  lemma StaysSafe(c: Config, s: State, a: Action, s': State, x: nat)
    requires Inv(c, s) && x < c.n && IsNext(c, s, a, s') && Safe(c, s, x)
    ensures Inv(c, s') && Safe(c, s', x)
  {
    NextInv(c, s, a, s');
    if !a.Step? {
      EnvironmentKeepsSafe(c, s, a, x);
    } else if a.t == Renewer {
      RenewerKeepsSafe(c, s, a.choice, x);
    } else {
      LeasesOnlyDrop(c, s, a.t, a.choice, x);
    }
  }

  /** From the moment an ack or a nack of a message is on its way, no round ever
      carries the message again and no renewal ever finds its lease gone. */
  lemma {:induction false} NeverRenewedAgain(c: Config, s: State, run: seq<Action>, s': State, x: nat)
    requires Inv(c, s) && x < c.n && Safe(c, s, x) && Leads(c, s, run, s')
    ensures Inv(c, s') && Safe(c, s', x)
    decreases |run|
  {
    if run != [] {
      var m :| IsNext(c, s, run[0], m) && Leads(c, m, run[1..], s');
      StaysSafe(c, s, run[0], m, x);
      NeverRenewedAgain(c, m, run[1..], s', x);
    }
  }

  // ----- a renewal racing a handler's own settle -----

  lemma {:induction false} OneMore(c: Config, s: State, run: seq<Action>, m: State, a: Action, s': State)
    requires Leads(c, s, run, m) && IsNext(c, m, a, s')
    ensures Leads(c, s, run + [a], s')
    decreases |run|
  {
    if run == [] {
      assert (run + [a])[1..] == [];
      assert Leads(c, s', [], s');
    } else {
      var k :| IsNext(c, s, run[0], k) && Leads(c, k, run[1..], m);
      OneMore(c, k, run[1..], m, a, s');
      assert (run + [a])[1..] == run[1..] + [a];
    }
  }

  lemma ReachNext(c: Config, s: State, a: Action, s': State)
    requires Reachable(c, s) && IsNext(c, s, a, s')
    ensures Reachable(c, s')
  {
    var run :| Leads(c, Init(c), run, s);
    OneMore(c, Init(c), run, s, a, s');
  }

  const PAIR := Config(2, [true, true], true)
  const QUIET := Choice(false, {})

  /** The first message is about to run. */
  function Starting(): State
    ensures Shape(PAIR, Starting())
  {
    State(false, Armed, 1, false, [], [true, true], [false, false], [false, false], [0, 0],
          [false, false], [false, false], [false, false], [[], []], Want(LookLost(0)), Idle, Waiting)
  }

  /** Its handler runs and has begun to ack it. */
  function Acking(): State
    ensures Shape(PAIR, Acking())
  {
    Starting().(started := [true, false], settling := [1, 0], loop := Running(0))
  }

  lemma Starts()
    ensures Reachable(PAIR, Starting())
  {
    var s0 := Init(PAIR);
    assert s0 == Starting().(next := 0, loop := At(0));
    assert Leads(PAIR, s0, [], s0);
    var s1 := s0.(loop := Want(Start(0)));
    ReachNext(PAIR, s0, Step(Loop, QUIET), s1);
    var s2 := s0.(loop := In(Start(0)));
    ReachNext(PAIR, s1, Step(Loop, QUIET), s2);
    ReachNext(PAIR, s2, Step(Loop, QUIET), Starting());
  }

  lemma AckBegins()
    ensures Reachable(PAIR, Acking())
  {
    Starts();
    var s4 := Starting().(loop := In(LookLost(0)));
    ReachNext(PAIR, Starting(), Step(Loop, QUIET), s4);
    var s5 := Starting().(started := [true, false], loop := Running(0));
    assert s4.started[0 := true] == [true, false] && s5.settling[0 := 1] == [1, 0];
    ReachNext(PAIR, s4, Step(Loop, QUIET), s5);
    ReachNext(PAIR, s5, UserSettles(0), Acking());
  }

  /** A round of the renewer carries both messages. */
  lemma RoundCarriesIt()
    ensures Reachable(PAIR, Acking().(ren := Collect(0, [])))
  {
    AckBegins();
    var s := Acking();
    ReachNext(PAIR, s, Tick, s.(ren := WantRound));
    ReachNext(PAIR, s.(ren := WantRound), Step(Renewer, QUIET), s.(ren := InRound));
    ReachNext(PAIR, s.(ren := InRound), Step(Renewer, QUIET), s.(ren := Collect(0, [])));
  }

  /** It has had 410 for the first. */
  lemma RoundMeetsIt()
    ensures Reachable(PAIR, Acking().(ren := Judge([0, 1], [0, 1], {0})))
  {
    RoundCarriesIt();
    var s := Acking();
    assert [] + [0] == [0] && [0] + [1] == [0, 1];
    ReachNext(PAIR, s.(ren := Collect(0, [])), Step(Renewer, QUIET), s.(ren := Collect(1, [0])));
    ReachNext(PAIR, s.(ren := Collect(1, [0])), Step(Renewer, QUIET), s.(ren := Collect(2, [0, 1])));
    ReachNext(PAIR, s.(ren := Collect(2, [0, 1])), Step(Renewer, QUIET), s.(ren := ExtendSent([0, 1])));
    var judges := s.(ren := Judge([0, 1], [0, 1], {0}));
    ReachNext(PAIR, s.(ren := ExtendSent([0, 1])), Step(Renewer, Choice(false, {0})), judges);
  }

  /** The settle finishes between the renewer's two reads. */
  lemma SettleSlipsThrough()
    ensures var ren := JudgeSettling([0, 1], [0, 1], {0});
            Reachable(PAIR, Acking().(settled := [true, false], settling := [0, 0], ren := ren))
  {
    RoundMeetsIt();
    var judge, settling := Judge([0, 1], [0, 1], {0}), JudgeSettling([0, 1], [0, 1], {0});
    var s := Acking();
    assert s.settled[0 := true] == [true, false] && s.settling[0 := 0] == [0, 0];
    ReachNext(PAIR, s.(ren := judge), Step(Renewer, QUIET), s.(ren := settling));
    ReachNext(PAIR, s.(ren := settling), UserRecorded(0), s.(settled := [true, false], ren := settling));
    ReachNext(PAIR, s.(settled := [true, false], ren := settling), UserReturns(0),
              s.(settled := [true, false], settling := [0, 0], ren := settling));
  }

  /** The renewer reads isSettled and isSettling one after the other.  A settle
      that finishes in between is seen by neither read, so the lease of a message
      already settled can be marked gone while its handler still runs, and the
      handler cancelled. */
  lemma RenewalCanCancelASettledHandler()
    ensures exists s :: Reachable(PAIR, s) && Shape(PAIR, s) && s.loop == Running(0) && s.settled[0] && s.gone[0]
  {
    SettleSlipsThrough();
    var s := Acking().(settled := [true, false], settling := [0, 0]);
    var mark, inMark := Mark([0, 1], [0, 1], {0}), InMark([0, 1], [0, 1], {0});
    assert s.held[0 := false] == [false, true] && s.gone[0 := true] == [true, false] && [0, 1][1..] == [1];
    ReachNext(PAIR, s.(ren := JudgeSettling([0, 1], [0, 1], {0})), Step(Renewer, QUIET), s.(ren := mark));
    ReachNext(PAIR, s.(ren := mark), Step(Renewer, QUIET), s.(ren := inMark));
    var s2 := s.(held := [false, true], gone := [true, false], ren := Judge([0, 1], [1], {0}));
    ReachNext(PAIR, s.(ren := inMark), Step(Renewer, QUIET), s2);
    assert s2.loop == Running(0);
  }
}

/** The rest of the steps of batch dispatch: the renewer, the ends of the two
    threads and the environment.  Together with BatchInvariant: the invariant
    holds in every state of every run. */
module BatchSteps {
  import opened Common
  import opened BatchDispatch
  import opened BatchInvariant

  // ----- one message under a step of the renewer or of a handler -----

  /** Only a lease still held joins a round, and it does unless it is settled. */
  lemma Listed(v: View, passed: bool, carried: bool, mine: Role, other: Role)
    requires Good(v, mine, other) && (carried ==> v.carried || v.held)
    requires passed && v.held && !v.settled ==> carried || (v.passed && !v.carried)
    ensures Good(v.(passed := passed, carried := carried), mine, other)
  {
  }

  /** Only a lease the round carries is found gone. */
  lemma Marked(v: View, mine: Role, other: Role)
    requires Good(v, mine, other) && v.carried
    ensures Good(v.(held := false, gone := true), mine, other)
  {
  }

  lemma Recorded(v: View, mine: Role, other: Role)
    requires Good(v, mine, other)
    ensures Good(v.(settled := true), mine, other)
  {
  }

  // ----- the renewer -----

  lemma TailIn(todo: seq<nat>, carry: seq<nat>)
    requires todo != [] && Within(todo, carry)
    ensures Within(todo[1..], carry)
  {
  }

  lemma RenewerMoves(c: Config, s: State, ch: Choice)
    requires Shape(c, s) && RenOk(c, s.ren) && TodoIn(s.ren) && NextRpc(c, s, ch).Some?
    ensures var r := NextRpc(c, s, ch).value;
            RenOk(c, r) && TodoIn(r) && (forall l :: RenHolds(r, l) ==> RenHolds(s.ren, l) || Free(s, l))
    ensures !s.ren.Exited?
  {
    var r := s.ren;
    if (r.Judge? || r.JudgeSettling? || r.InMark?) && r.todo != [] { TailIn(r.todo, r.carry); }
  }

  lemma RenewerMoveFrame(c: Config, s: State, r: RPC)
    requires Frame(c, s) && !s.ren.Exited? && RenOk(c, r) && TodoIn(r)
    requires forall l :: RenHolds(r, l) ==> RenHolds(s.ren, l) || Free(s, l)
    ensures Frame(c, s.(ren := r))
  {
  }

  /** What a step of the renewer does to the list of its round: a message joins it
      only if its lease is still held, and is left out only if that or its being
      settled rules it out. */
  predicate ListMoves(s: State, r: RPC, x: nat)
    requires x < |s.held| == |s.settled|
  {
    (x in Carry(r) ==> Passed(r, x) && (x in Carry(s.ren) || s.held[x]))
    && (Passed(r, x) && s.held[x] && !s.settled[x] ==> x in Carry(r) || (Passed(s.ren, x) && x !in Carry(s.ren)))
  }

  lemma RenewerMoveMsg(c: Config, s: State, r: RPC, x: nat)
    requires Shape(c, s) && x < c.n && Msg(c, s, x) && ListMoves(s, r, x)
    ensures Msg(c, s.(ren := r), x)
  {
    var v, mine, other := ViewOf(c, s, x), RoleOf(c, s.loop, x), RoleOf(c, s.callback, x);
    Listed(v, Passed(r, x), x in Carry(r), mine, other);
  }

  lemma ListGrows(c: Config, s: State, ch: Choice, x: nat)
    requires Shape(c, s) && RenOk(c, s.ren) && NextRpc(c, s, ch).Some? && x < c.n
    ensures ListMoves(s, NextRpc(c, s, ch).value, x)
  {
  }

  lemma RenewerInv(c: Config, s: State, ch: Choice)
    requires Inv(c, s) && NextRpc(c, s, ch).Some? && !s.ren.InMark?
    ensures Inv(c, s.(ren := NextRpc(c, s, ch).value))
  {
    var r := NextRpc(c, s, ch).value;
    RenewerMoves(c, s, ch);
    RenewerMoveFrame(c, s, r);
    forall x: nat | x < c.n ensures Msg(c, s.(ren := r), x) {
      ListGrows(c, s, ch, x);
      RenewerMoveMsg(c, s, r, x);
    }
  }

  lemma MarkFrame(c: Config, s: State, i: nat)
    requires Frame(c, s) && i < c.n
    ensures Frame(c, MarkGone(s, i))
  {
  }

  lemma MarkMsg(c: Config, s: State, i: nat, x: nat)
    requires Shape(c, s) && i < c.n && x < c.n && Msg(c, s, x) && i in Carry(s.ren)
    ensures Msg(c, MarkGone(s, i), x)
  {
    if x == i { Marked(ViewOf(c, s, x), RoleOf(c, s.loop, x), RoleOf(c, s.callback, x)); }
  }

  lemma MarkInv(c: Config, s: State, ch: Choice)
    requires Inv(c, s) && s.ren.InMark?
    ensures Inv(c, StepRenewer(c, s, ch).value)
  {
    var i := s.ren.todo[0];
    var s1 := MarkGone(s, i);
    assert i in s.ren.todo;
    MarkFrame(c, s, i);
    forall x: nat | x < c.n ensures Msg(c, s1, x) { MarkMsg(c, s, i, x); }
    var r := NextRpc(c, s, ch).value;
    RenewerMoves(c, s, ch);
    RenewerMoveFrame(c, s1, r);
    forall x: nat | x < c.n ensures Msg(c, s1.(ren := r), x) { RenewerMoveMsg(c, s1, r, x); }
  }

  // ----- the ends of the loop and the callback -----

  lemma AtFrame(c: Config, s: State, i: nat)
    requires Frame(c, s) && s.loop == At(i)
    ensures Frame(c, s.(loop := if i == c.n then Join else Want(Start(i))))
  {
  }

  lemma AtInv(c: Config, s: State, i: nat)
    requires Inv(c, s) && s.loop == At(i)
    ensures Inv(c, s.(loop := if i == c.n then Join else Want(Start(i))))
  {
    var pc := if i == c.n then Join else Want(Start(i));
    AtFrame(c, s, i);
    forall x: nat | x < c.n ensures Msg(c, s.(loop := pc), x) { SameRole(c, s, Loop, pc, x); }
  }

  lemma NackFrame(c: Config, s: State, i: nat)
    requires Frame(c, s) && s.loop == Nack(i)
    ensures Frame(c, s.(loop := NackSent(i)))
  {
  }

  lemma NackInv(c: Config, s: State, i: nat)
    requires Inv(c, s) && s.loop == Nack(i)
    ensures Inv(c, s.(loop := NackSent(i)))
  {
    NackFrame(c, s, i);
    forall x: nat | x < c.n ensures Msg(c, s.(loop := NackSent(i)), x) { SameRole(c, s, Loop, NackSent(i), x); }
  }

  /** A message does not see what becomes of the shutdown callback's registration. */
  lemma SameMsg(c: Config, s: State, after: AfterFunc, t: Tid, pc: PC, x: nat)
    requires Shape(c, s) && x < c.n && t != Renewer && Msg(c, s, x) && RoleOf(c, pc, x) == RoleOf(c, Pc(s, t), x)
    ensures Shape(c, Goto(s.(after := after), t, pc)) && Msg(c, Goto(s.(after := after), t, pc), x)
  {
    assert ViewOf(c, s.(after := after), x) == ViewOf(c, s, x);
    SameRole(c, s.(after := after), t, pc, x);
  }

  lemma JoinFrame(c: Config, s: State)
    requires Frame(c, s) && s.loop == Join
    ensures Frame(c, JoinStep(s))
  {
  }

  lemma JoinInv(c: Config, s: State)
    requires Inv(c, s) && s.loop == Join
    ensures Inv(c, JoinStep(s))
  {
    var s' := JoinStep(s);
    JoinFrame(c, s);
    forall x: nat | x < c.n ensures Msg(c, s', x) { SameMsg(c, s, s'.after, Loop, s'.loop, x); }
  }

  /** The last moves of the loop, which deal with no message. */
  predicate LastMove(s: State, pc: PC)
  {
    (s.loop.JoinWait? && s.callback.Finished? && pc == Want(Take))
    || (s.loop.Stop? && pc.StopWait?) || (s.loop.StopWait? && s.ren.Exited? && pc.Finished?)
  }

  lemma LastFrame(c: Config, s: State, pc: PC)
    requires Frame(c, s) && LastMove(s, pc)
    ensures Frame(c, s.(loop := pc))
  {
  }

  lemma LastInv(c: Config, s: State, pc: PC)
    requires Inv(c, s) && LastMove(s, pc)
    ensures Inv(c, s.(loop := pc))
  {
    LastFrame(c, s, pc);
    forall x: nat | x < c.n ensures Msg(c, s.(loop := pc), x) { SameRole(c, s, Loop, pc, x); }
  }

  lemma CallbackStartFrame(c: Config, s: State)
    requires Frame(c, s) && s.callback.Idle? && s.shutdown && s.after.Armed?
    ensures Frame(c, s.(after := Started, callback := Want(Take)))
  {
  }

  lemma CallbackStartInv(c: Config, s: State, ch: Choice)
    requires Inv(c, s) && s.callback.Idle? && StepPc(c, s, Callback, ch).Some?
    ensures Inv(c, StepPc(c, s, Callback, ch).value)
  {
    var s' := s.(after := Started, callback := Want(Take));
    CallbackStartFrame(c, s);
    forall x: nat | x < c.n ensures Msg(c, s', x) { SameMsg(c, s, Started, Callback, Want(Take), x); }
  }

  // ----- every step -----

  lemma InStepInv(c: Config, s: State, t: Tid, sec: Section)
    requires Inv(c, s) && t != Renewer && Pc(s, t) == In(sec) && InStep(c, s, t, sec).Some?
    ensures Inv(c, InStep(c, s, t, sec).value)
  {
    assert t == Callback ==> !sec.Start? && !sec.LookLost? && !sec.Push?;
    match sec
    case Start(i) => StartInv(c, s, i);
    case LookLost(i) => LookLostInv(c, s, i);
    case Push(i) => PushInv(c, s, i);
    case Take => TakeInv(c, s, t);
    case TakeRest => TakeRestInv(c, s, t);
    case Calling(r) => CalledInv(c, s, t, r);
    case Renewals(k) => EnterBothInv(c, s, t, k);
  }

  /** The pcs only the handler loop reaches. */
  predicate LoopOnly(pc: PC)
  {
    pc.At? || pc.Running? || pc.Returned? || pc.Nack? || pc.NackSent?
    || pc.Join? || pc.JoinWait? || pc.Stop? || pc.StopWait?
  }

  lemma LoopStepInv(c: Config, s: State, ch: Choice)
    requires Inv(c, s) && LoopOnly(s.loop) && StepPc(c, s, Loop, ch).Some?
    ensures Inv(c, StepPc(c, s, Loop, ch).value)
  {
    var pc := s.loop;
    if pc.Running? { RunInv(c, s, pc.i, ch.failed); }
    else if pc.Returned? { ReturnedInv(c, s, pc.i, pc.failed); }
    else if pc.NackSent? { NackedInv(c, s, pc.i, pc.i in ch.answered); }
    else if pc.At? { AtInv(c, s, pc.i); }
    else if pc.Nack? { NackInv(c, s, pc.i); }
    else if pc.Join? { JoinInv(c, s); }
    else { LastInv(c, s, StepPc(c, s, Loop, ch).value.loop); }
  }

  lemma StepPcInv(c: Config, s: State, t: Tid, ch: Choice)
    requires Inv(c, s) && t != Renewer && StepPc(c, s, t, ch).Some?
    ensures Inv(c, StepPc(c, s, t, ch).value)
  {
    assert t == Callback ==> !LoopOnly(s.callback);
    var pc := Pc(s, t);
    if pc.Want? { EnterInv(c, s, t, pc.sec); }
    else if pc.In? { InStepInv(c, s, t, pc.sec); }
    else if pc.Both? { DropInv(c, s, t, pc.k); }
    else if pc.Left? { ReleasedInv(c, s, t, pc.k, pc.lost); }
    else if pc.FlushNext? { FlushNextInv(c, s, t, pc.todo, pc.toAck); }
    else if pc.AckSent? { AckedInv(c, s, t, pc.toAck, ch.answered); }
    else if pc.AckReports? { AckReportsInv(c, s, t, pc.rest); }
    else if pc.HandBackNext? { HandBackNextInv(c, s, t, pc.at, pc.list); }
    else if pc.NackBatchSent? { NackedBatchInv(c, s, t, pc.list, ch.answered); }
    else if pc.Idle? { CallbackStartInv(c, s, ch); }
    else { LoopStepInv(c, s, ch); }
  }

  lemma TickFrame(c: Config, s: State)
    requires Frame(c, s) && s.ren.Waiting?
    ensures Frame(c, s.(ren := WantRound))
  {
  }

  /** Shutdown and the handlers' own settles change nothing else that the frame speaks of. */
  lemma SettleFrame(c: Config, s: State, shutdown: bool, settled: seq<bool>, settling: seq<nat>)
    requires Frame(c, s) && (s.shutdown ==> shutdown) && |settled| == |settling| == c.n
    ensures Frame(c, s.(shutdown := shutdown, settled := settled, settling := settling))
  {
  }

  lemma EnvironmentFrame(c: Config, s: State, a: Action)
    requires Frame(c, s) && !a.Step? && Apply(c, s, a).Some?
    ensures Frame(c, Apply(c, s, a).value)
  {
    if a.Tick? {
      TickFrame(c, s);
    } else {
      var s' := Apply(c, s, a).value;
      SettleFrame(c, s, s'.shutdown, s'.settled, s'.settling);
    }
  }

  lemma TickMsg(c: Config, s: State, x: nat)
    requires Shape(c, s) && x < c.n && Msg(c, s, x) && s.ren.Waiting?
    ensures Msg(c, s.(ren := WantRound), x)
  {
    assert ViewOf(c, s.(ren := WantRound), x) == ViewOf(c, s, x);
  }

  lemma SettleMsg(c: Config, s: State, shutdown: bool, settled: seq<bool>, settling: seq<nat>, x: nat)
    requires Shape(c, s) && |settled| == |settling| == c.n && x < c.n && Msg(c, s, x) && (s.settled[x] ==> settled[x])
    ensures var s' := s.(shutdown := shutdown, settled := settled, settling := settling); Shape(c, s') && Msg(c, s', x)
  {
    var v := ViewOf(c, s, x);
    SettleView(c, s, shutdown, settled, settling, x);
    Recorded(v, RoleOf(c, s.loop, x), RoleOf(c, s.callback, x));
    assert v.(settled := settled[x]) == v || v.(settled := settled[x]) == v.(settled := true);
  }

  lemma EnvironmentMsg(c: Config, s: State, a: Action, x: nat)
    requires Typed(c, s) && x < c.n && Msg(c, s, x) && !a.Step? && Apply(c, s, a).Some?
    ensures Shape(c, Apply(c, s, a).value) && Msg(c, Apply(c, s, a).value, x)
  {
    if a.Tick? {
      TickMsg(c, s, x);
    } else {
      var s' := Apply(c, s, a).value;
      assert s' == s.(shutdown := s'.shutdown, settled := s'.settled, settling := s'.settling);
      SettleMsg(c, s, s'.shutdown, s'.settled, s'.settling, x);
    }
  }

  lemma EnvironmentInv(c: Config, s: State, a: Action)
    requires Inv(c, s) && !a.Step? && Apply(c, s, a).Some?
    ensures Inv(c, Apply(c, s, a).value)
  {
    EnvironmentFrame(c, s, a);
    forall x: nat | x < c.n ensures Msg(c, Apply(c, s, a).value, x) { EnvironmentMsg(c, s, a, x); }
  }

  lemma StepInv(c: Config, s: State, a: Action)
    requires Inv(c, s) && Apply(c, s, a).Some?
    ensures Inv(c, Apply(c, s, a).value)
  {
    if a.Step? && a.t != Renewer {
      StepPcInv(c, s, a.t, a.choice);
    } else if a.Step? {
      if s.ren.InMark? { MarkInv(c, s, a.choice); }
      else { RenewerInv(c, s, a.choice); }
    } else {
      EnvironmentInv(c, s, a);
    }
  }

  /** Action a takes s to s'. */
  ghost predicate IsNext(c: Config, s: State, a: Action, s': State)
  {
    Typed(c, s) && Apply(c, s, a) == Some(s')
  }

  /** The actions of run, in order, take s to s'. */
  ghost predicate Leads(c: Config, s: State, run: seq<Action>, s': State)
    decreases |run|
  {
    if run == [] then s' == s
    else exists m :: IsNext(c, s, run[0], m) && Leads(c, m, run[1..], s')
  }

  lemma NextInv(c: Config, s: State, a: Action, s': State)
    requires Inv(c, s) && IsNext(c, s, a, s')
    ensures Inv(c, s')
  {
    StepInv(c, s, a);
  }

  /** The invariant holds in every state of every run. */
  lemma {:induction false} LeadsInv(c: Config, s: State, run: seq<Action>, s': State)
    requires Inv(c, s) && Leads(c, s, run, s')
    ensures Inv(c, s')
    decreases |run|
  {
    if run != [] {
      var m :| IsNext(c, s, run[0], m) && Leads(c, m, run[1..], s');
      NextInv(c, s, run[0], m);
      LeadsInv(c, m, run[1..], s');
    }
  }
}

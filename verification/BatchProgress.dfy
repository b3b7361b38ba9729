/** Batch dispatch never deadlocks and does a bounded amount of work. */
module BatchProgress {
  import opened Common
  import opened BatchDispatch
  import opened BatchInvariant
  import opened BatchSteps

  // ----- no deadlock -----

  const NOTHING := Choice(false, {})

  predicate CanStep(c: Config, s: State, t: Tid)
    requires Typed(c, s)
  {
    if t == Renewer then StepRenewer(c, s, NOTHING).Some? else StepPc(c, s, t, NOTHING).Some?
  }

  /** A thread inside a critical section can always go on, unless it wants l.mu
      while another thread is inside it. */
  lemma InsideGoesOn(c: Config, s: State, t: Tid)
    requires Typed(c, s) && t != Renewer
    requires (Pc(s, t).In? && (Pc(s, t).sec.Renewals? ==> Free(s, Lmu))) || Pc(s, t).Both? || Pc(s, t).Left?
    ensures CanStep(c, s, t)
  {
  }

  lemma RenewerGoesOn(c: Config, s: State)
    requires Typed(c, s) && !s.ren.Exited?
    requires s.ren.Waiting? ==> s.shutdown || s.loop.StopWait?
    requires s.ren.WantRound? ==> Free(s, Round)
    requires s.ren.InRound? || s.ren.Mark? ==> Free(s, Lmu)
    ensures CanStep(c, s, Renewer)
  {
  }

  /** The thread is inside some lock. */
  predicate Inside(pc: PC) { pc.In? || pc.Both? || pc.Left? }

  /** A lock is only ever held by a thread that can go on. */
  lemma HolderGoesOn(c: Config, s: State, l: LockName)
    requires Inv(c, s) && !Free(s, l)
    ensures (CanStep(c, s, Loop) && Inside(s.loop)) || CanStep(c, s, Callback)
            || (CanStep(c, s, Renewer) && RenHolds(s.ren, Round))
  {
    assert Sole(s, Round) && Sole(s, Lmu);
    assert s.callback.In? ==> !s.callback.sec.LookLost?;
    if s.callback.Both? || s.callback.Left? {
      InsideGoesOn(c, s, Callback);
    } else if s.loop.Both? || s.loop.Left? || (s.loop.In? && !s.loop.sec.Renewals?) {
      InsideGoesOn(c, s, Loop);
    } else if RenHolds(s.ren, Round) {
      RenewerGoesOn(c, s);
    } else if s.callback.In? {
      InsideGoesOn(c, s, Callback);
    } else {
      InsideGoesOn(c, s, Loop);
    }
  }

  lemma WaiterGoesOn(c: Config, s: State, t: Tid)
    requires Inv(c, s) && t != Renewer && Pc(s, t).Want?
    ensures CanStep(c, s, Loop) || CanStep(c, s, Callback) || (CanStep(c, s, Renewer) && RenHolds(s.ren, Round))
  {
    if !Free(s, LockOf(Pc(s, t).sec)) { HolderGoesOn(c, s, LockOf(Pc(s, t).sec)); }
  }

  /** Until dispatchBatch returns some thread can take a step: the handler loop,
      the callback, the renewer in the middle of a round, or, once the leases
      are being stopped, the renewer on its way out. */
  lemma NoDeadlock(c: Config, s: State)
    requires Inv(c, s) && !s.loop.Finished?
    ensures CanStep(c, s, Loop) || CanStep(c, s, Callback)
            || (CanStep(c, s, Renewer) && (RenHolds(s.ren, Round) || s.loop.StopWait?))
  {
    if s.loop.Want? {
      WaiterGoesOn(c, s, Loop);
    } else if s.loop.In? || s.loop.Both? || s.loop.Left? {
      HolderGoesOn(c, s, if s.loop.In? then LockOf(s.loop.sec) else Round);
    } else if s.loop.JoinWait? && !s.callback.Finished? {
      if s.callback.Want? { WaiterGoesOn(c, s, Callback); }
      else if s.callback.In? { HolderGoesOn(c, s, LockOf(s.callback.sec)); }
    } else if s.loop.StopWait? && !s.ren.Exited? {
      RenewerGoesOn(c, s);
    }
  }

  /** Once shutdown begins, the callback can run to its end even if the handler in hand
      never returns: until it is over or has been called off, it can take a step itself,
      or whoever is inside a lock can. */
  lemma ShutdownFlushesAtOnce(c: Config, s: State)
    requires Inv(c, s) && s.shutdown && !s.after.Stopped? && !s.callback.Finished?
    ensures CanStep(c, s, Callback) || (CanStep(c, s, Loop) && Inside(s.loop))
            || (CanStep(c, s, Renewer) && RenHolds(s.ren, Round))
  {
    if s.callback.Want? && !Free(s, LockOf(s.callback.sec)) {
      HolderGoesOn(c, s, LockOf(s.callback.sec));
    } else if s.callback.In? && s.callback.sec.Renewals? && !Free(s, Lmu) {
      HolderGoesOn(c, s, Lmu);
    } else if Inside(s.callback) {
      InsideGoesOn(c, s, Callback);
    }
  }

  // ----- bounded work -----

  /** The cost of handBackUnstarted from its lock on. */
  function RestCost(c: Config): nat { 5 * c.n + 7 }

  function TaskCost(c: Config, k: Task): int
    requires k.i < c.n
  {
    match k
    case Flushing(_, todo, toAck) => 10 * |todo| + 3 * |toAck| + RestCost(c) + 8
    case HandingBack(i, _) => 5 * (c.n - i)
    case _ => 20 * (c.n - k.i) + RestCost(c) - 3
  }

  function CallCost(c: Config, r: Call): int
    requires r.i < c.n
  {
    match r
    case ReportLostAtFlush(_, todo, toAck) => 10 * |todo| + 3 * |toAck| + RestCost(c) + 6
    case ReportAckFailed(_, rest) => 3 * |rest| + RestCost(c) + 1
    case _ => 20 * (c.n - r.i) + RestCost(c) - 5
  }

  /** A bound on what is left to do inside the section and after it. */
  function SectionCost(c: Config, sec: Section): int
    requires SectionOk(c, sec)
  {
    match sec
    case Start(i) => 20 * (c.n - i) + RestCost(c) + 5
    case LookLost(i) => 20 * (c.n - i) + RestCost(c) + 3
    case Push(i) => 20 * (c.n - i) + RestCost(c) - 1
    case Take => RestCost(c) + 3
    case TakeRest => RestCost(c) - 2
    case Calling(r) => CallCost(c, r)
    case Renewals(k) => TaskCost(c, k) + 2
  }

  /** A bound on the steps a thread at pc has still to take, not counting what
      it will have to flush of the messages already in succeeded. */
  function Cost(c: Config, pc: PC): int
    requires PcOk(c, pc)
  {
    match pc
    case Want(sec) => SectionCost(c, sec) + 1
    case In(sec) => SectionCost(c, sec)
    case Both(k) => TaskCost(c, k) + 1
    case Left(k, _) => TaskCost(c, k)
    case At(i) => 20 * (c.n - i) + RestCost(c) + 7
    case Running(i) => 20 * (c.n - i) + RestCost(c) + 2
    case Returned(i, _) => 20 * (c.n - i) + RestCost(c) + 1
    case Nack(i) => 20 * (c.n - i) + RestCost(c) - 6
    case NackSent(i) => 20 * (c.n - i) + RestCost(c) - 7
    case FlushNext(todo, toAck) => 10 * |todo| + 3 * |toAck| + RestCost(c) + 2
    case AckSent(toAck) => 3 * |toAck| + RestCost(c) + 1
    case AckReports(rest) => 3 * |rest| + RestCost(c)
    case HandBackNext(at, _) => 5 * (c.n - at) + 4
    case NackBatchSent(_) => 3
    case Join => RestCost(c) + 6
    case JoinWait => RestCost(c) + 5
    case Stop => 2
    case StopWait => 1
    case Finished => 0
    case Idle => RestCost(c) + 5
  }

  /** The steps left in the renewer's round, and its exit. */
  function RoundCost(c: Config, r: RPC): int
  {
    match r
    case WantRound => 6 * c.n + 7
    case InRound => 6 * c.n + 6
    case Collect(at, carry) => 6 * (c.n - at) + 4 * |carry| + 5
    case ExtendSent(carry) => 4 * |carry| + 4
    case Judge(_, todo, _) => 4 * |todo| + 3
    case JudgeSettling(_, todo, _) => 4 * |todo| + 2
    case Mark(_, todo, _) => 4 * |todo| + 1
    case InMark(_, todo, _) => 4 * |todo|
    case LeaveRound(_) => 2
    case Waiting => 1
    case Exited => 0
  }

  function Work(c: Config, s: State): int
    requires Typed(c, s)
  {
    Cost(c, s.loop) + Cost(c, s.callback) + 10 * |s.succeeded| + RoundCost(c, s.ren)
  }

  lemma CostBounds(c: Config, pc: PC)
    requires PcOk(c, pc)
    ensures Cost(c, pc) >= 0
  {
  }

  lemma RefusedLength(list: seq<nat>, ok: set<nat>)
    ensures |Refused(list, ok)| <= |list|
  {
  }

  lemma ReleasedCost(c: Config, k: Task, lost: bool)
    requires TaskOk(c, k)
    ensures PcOk(c, ReleasedPc(k, lost)) && Cost(c, ReleasedPc(k, lost)) < Cost(c, Left(k, lost))
  {
    ReleasedMoves(c, k, lost);
  }

  lemma CalledCost(c: Config, r: Call)
    requires CallOk(c, r)
    ensures PcOk(c, CalledPc(c, r)) && Cost(c, CalledPc(c, r)) < Cost(c, In(Calling(r)))
  {
    CalledMoves(c, r);
  }

  lemma FlushNextCost(c: Config, todo: seq<nat>, toAck: seq<nat>)
    requires FlushOk(c, todo, toAck)
    ensures PcOk(c, FlushNextPc(todo, toAck)) && Cost(c, FlushNextPc(todo, toAck)) < Cost(c, FlushNext(todo, toAck))
  {
    FlushNextMoves(c, todo, toAck);
  }

  /** From s to s', with the other thread and the renewer where they were, the
      thread t has used up some of its cost. */
  predicate Pays(c: Config, s: State, s': State, t: Tid)
    requires PcOk(c, Pc(s, t)) && PcOk(c, Pc(s', t))
  {
    Cost(c, Pc(s', t)) + 10 * |s'.succeeded| < Cost(c, Pc(s, t)) + 10 * |s.succeeded|
    && s'.ren == s.ren && (if t == Callback then s'.loop == s.loop else s'.callback == s.callback)
  }

  lemma MovePays(c: Config, s: State, t: Tid, pc: PC)
    requires t != Renewer && PcOk(c, Pc(s, t)) && PcOk(c, pc) && Cost(c, pc) < Cost(c, Pc(s, t))
    ensures Pays(c, s, Goto(s, t, pc), t)
  {
  }

  lemma LeavePays(c: Config, s: State, t: Tid, i: nat, o: Option<Outcome>, pc: PC)
    requires t != Renewer && i < |s.outs| && PcOk(c, Pc(s, t)) && PcOk(c, pc) && Cost(c, pc) < Cost(c, Pc(s, t))
    ensures Pays(c, s, Leave(s, t, i, o, pc), t)
  {
  }

  lemma InPays(c: Config, s: State, t: Tid, sec: Section)
    requires Typed(c, s) && t != Renewer && Pc(s, t) == In(sec) && InStep(c, s, t, sec).Some?
    requires (sec.Start? || sec.LookLost? || sec.Push?) ==> t == Loop
    requires PcOk(c, Pc(InStep(c, s, t, sec).value, t))
    ensures Pays(c, s, InStep(c, s, t, sec).value, t)
  {
    if sec.Calling? {
      CalledCost(c, sec.r);
      LeavePays(c, s, t, sec.r.i, CalledOutcome(c, sec.r), CalledPc(c, sec.r));
    } else if sec.Renewals? {
      MovePays(c, s, t, Both(sec.k));
    } else if sec.Take? {
      TakePays(c, s, t);
    } else if sec.TakeRest? {
      MovePays(c, s.(handedBack := true), t, HandBackNext(if s.handedBack then c.n else s.next, []));
    } else {
      BodyPays(c, s, sec);
    }
  }

  lemma TakePays(c: Config, s: State, t: Tid)
    requires Typed(c, s) && t != Renewer && Pc(s, t) == In(Take)
    ensures PcOk(c, Pc(TakeStep(s, t), t)) && Pays(c, s, TakeStep(s, t), t)
  {
    if t == Callback {
      assert TakeStep(s, t).callback == FlushNext(s.succeeded, []);
    } else {
      assert TakeStep(s, t).loop == FlushNext(s.succeeded, []);
    }
  }

  /** The sections that only the handler loop enters. */
  lemma BodyPays(c: Config, s: State, sec: Section)
    requires Typed(c, s) && s.loop == In(sec) && (sec.Start? || sec.LookLost? || sec.Push?)
    requires PcOk(c, InStep(c, s, Loop, sec).value.loop)
    ensures Pays(c, s, InStep(c, s, Loop, sec).value, Loop)
  {
  }

  /** The handler returns, and what comes of that. */
  lemma HandledPays(c: Config, s: State, ch: Choice)
    requires Typed(c, s) && (s.loop.Running? || s.loop.Returned? || s.loop.NackSent?)
    requires PcOk(c, StepPc(c, s, Loop, ch).value.loop)
    ensures Pays(c, s, StepPc(c, s, Loop, ch).value, Loop)
  {
  }

  lemma JoinPays(c: Config, s: State)
    requires Typed(c, s) && s.loop.Join?
    ensures Pays(c, s, JoinStep(s), Loop)
  {
  }

  lemma AtPays(c: Config, s: State, i: nat)
    requires Typed(c, s) && s.loop == At(i)
    ensures Pays(c, s, s.(loop := if i == c.n then Join else Want(Start(i))), Loop)
  {
  }

  lemma LoopPays(c: Config, s: State, ch: Choice)
    requires Typed(c, s) && LoopOnly(s.loop) && StepPc(c, s, Loop, ch).Some?
    requires PcOk(c, StepPc(c, s, Loop, ch).value.loop)
    ensures Pays(c, s, StepPc(c, s, Loop, ch).value, Loop)
  {
    if s.loop.Running? || s.loop.Returned? || s.loop.NackSent? {
      HandledPays(c, s, ch);
    } else if s.loop.Join? {
      JoinPays(c, s);
    } else if s.loop.At? {
      AtPays(c, s, s.loop.i);
    } else {
      MovePays(c, s, Loop, StepPc(c, s, Loop, ch).value.loop);
    }
  }

  lemma FlushPays(c: Config, s: State, t: Tid, ch: Choice)
    requires Typed(c, s) && t != Renewer && (Pc(s, t).Left? || Pc(s, t).FlushNext? || Pc(s, t).AckSent?)
    requires StepPc(c, s, t, ch).Some? && PcOk(c, Pc(StepPc(c, s, t, ch).value, t))
    ensures Pays(c, s, StepPc(c, s, t, ch).value, t)
  {
    var pc := Pc(s, t);
    if pc.Left? {
      ReleasedCost(c, pc.k, pc.lost);
      LeavePays(c, s, t, pc.k.i, ReleasedOutcome(pc.k, pc.lost), ReleasedPc(pc.k, pc.lost));
    } else if pc.FlushNext? {
      FlushNextCost(c, pc.todo, pc.toAck);
      MovePays(c, s, t, FlushNextPc(pc.todo, pc.toAck));
    } else {
      RefusedLength(pc.toAck, ch.answered);
      MovePays(c, Answer(s, pc.toAck, ch.answered, true), t, AckReports(Refused(pc.toAck, ch.answered)));
    }
  }

  lemma AckReportsCost(c: Config, rest: seq<nat>)
    requires Below(rest, c.n)
    ensures PcOk(c, AckReportsPc(rest)) && Cost(c, AckReportsPc(rest)) < Cost(c, AckReports(rest))
  {
  }

  lemma HandBackNextCost(c: Config, t: Tid, at: nat, list: seq<nat>)
    requires at <= c.n && NoDup(list) && Below(list, at)
    ensures PcOk(c, HandBackNextPc(c, t, at, list))
    ensures Cost(c, HandBackNextPc(c, t, at, list)) < Cost(c, HandBackNext(at, list))
  {
  }

  lemma RestPays(c: Config, s: State, t: Tid, ch: Choice)
    requires Typed(c, s) && t != Renewer
    requires Pc(s, t).AckReports? || Pc(s, t).HandBackNext?
    requires StepPc(c, s, t, ch).Some? && PcOk(c, Pc(StepPc(c, s, t, ch).value, t))
    ensures Pays(c, s, StepPc(c, s, t, ch).value, t)
  {
    var pc := Pc(s, t);
    if pc.AckReports? {
      AckReportsCost(c, pc.rest);
      MovePays(c, s, t, AckReportsPc(pc.rest));
    } else {
      HandBackNextCost(c, t, pc.at, pc.list);
      MovePays(c, s, t, HandBackNextPc(c, t, pc.at, pc.list));
    }
  }

  lemma NackedPays(c: Config, s: State, t: Tid, list: seq<nat>, ok: set<nat>)
    requires Typed(c, s) && t != Renewer && Pc(s, t) == NackBatchSent(list)
    ensures Pays(c, s, NackedBatchStep(s, t, list, ok), t)
  {
    MovePays(c, Answer(s, list, ok, false), t, AfterHandBack(t));
  }

  lemma LockPays(c: Config, s: State, t: Tid, ch: Choice)
    requires Typed(c, s) && t != Renewer && (Pc(s, t).Want? || Pc(s, t).Both?)
    requires StepPc(c, s, t, ch).Some? && PcOk(c, Pc(StepPc(c, s, t, ch).value, t))
    ensures Pays(c, s, StepPc(c, s, t, ch).value, t)
  {
    if Pc(s, t).Want? { MovePays(c, s, t, In(Pc(s, t).sec)); }
  }

  lemma ThreadPays(c: Config, s: State, t: Tid, ch: Choice)
    requires Inv(c, s) && t != Renewer && StepPc(c, s, t, ch).Some? && PcOk(c, Pc(StepPc(c, s, t, ch).value, t))
    ensures Pays(c, s, StepPc(c, s, t, ch).value, t)
  {
    assert t == Callback ==> !LoopOnly(s.callback) && (s.callback.In? ==> SectionPhase(s.callback.sec) != Body);
    assert s.loop.Idle? ==> false;
    if Pc(s, t).In? {
      InPays(c, s, t, Pc(s, t).sec);
    } else if LoopOnly(Pc(s, t)) {
      LoopPays(c, s, ch);
    } else if !Pc(s, t).Idle? {
      OutsidePays(c, s, t, ch);
    }
  }

  /** The steps that either thread may take outside its critical sections. */
  lemma OutsidePays(c: Config, s: State, t: Tid, ch: Choice)
    requires Typed(c, s) && t != Renewer && !Pc(s, t).In? && !LoopOnly(Pc(s, t)) && !Pc(s, t).Idle?
    requires StepPc(c, s, t, ch).Some? && PcOk(c, Pc(StepPc(c, s, t, ch).value, t))
    ensures Pays(c, s, StepPc(c, s, t, ch).value, t)
  {
    if Pc(s, t).Left? || Pc(s, t).FlushNext? || Pc(s, t).AckSent? {
      FlushPays(c, s, t, ch);
    } else if Pc(s, t).Want? || Pc(s, t).Both? {
      LockPays(c, s, t, ch);
    } else if Pc(s, t).NackBatchSent? {
      NackedPays(c, s, t, Pc(s, t).list, ch.answered);
    } else {
      RestPays(c, s, t, ch);
    }
  }

  lemma PaidForWorks(c: Config, s: State, s': State, t: Tid)
    requires Typed(c, s) && Typed(c, s') && t != Renewer && PcOk(c, Pc(s, t)) && PcOk(c, Pc(s', t)) && Pays(c, s, s', t)
    ensures Work(c, s') < Work(c, s)
  {
    if t == Loop {
      assert s'.callback == s.callback;
    } else {
      assert s'.loop == s.loop;
    }
  }

  /** Each step of the loop or the callback uses up some of the work. */
  lemma ThreadWorks(c: Config, s: State, t: Tid, ch: Choice)
    requires Inv(c, s) && t != Renewer && StepPc(c, s, t, ch).Some? && Typed(c, StepPc(c, s, t, ch).value)
    ensures Work(c, StepPc(c, s, t, ch).value) < Work(c, s)
  {
    ThreadPays(c, s, t, ch);
    PaidForWorks(c, s, StepPc(c, s, t, ch).value, t);
  }

  lemma RenewerWorks(c: Config, s: State, ch: Choice)
    requires Typed(c, s) && NextRpc(c, s, ch).Some?
    ensures RoundCost(c, NextRpc(c, s, ch).value) < RoundCost(c, s.ren)
  {
  }

  /** Every step of a thread uses up some of the work, only a tick adds any, and
      a tick adds one round. */
  lemma StepWorks(c: Config, s: State, a: Action, s': State)
    requires Inv(c, s) && IsNext(c, s, a, s')
    ensures Inv(c, s')
    ensures Work(c, s') <= Work(c, s) + (if a.Step? then -1 else if a.Tick? then 6 * c.n + 6 else 0)
  {
    NextInv(c, s, a, s');
    if a.Step? && a.t != Renewer {
      ThreadWorks(c, s, a.t, a.choice);
    } else if a.Step? {
      RenewerWorks(c, s, a.choice);
    }
  }

  function Steps(run: seq<Action>): nat
  {
    if run == [] then 0 else (if run[0].Step? then 1 else 0) + Steps(run[1..])
  }

  function Ticks(run: seq<Action>): nat
  {
    if run == [] then 0 else (if run[0].Tick? then 1 else 0) + Ticks(run[1..])
  }

  lemma TicksTimes(run: seq<Action>, w: nat)
    requires run != []
    ensures Ticks(run) * w == (if run[0].Tick? then w else 0) + Ticks(run[1..]) * w
  {
    OneMoreTime(Ticks(run[1..]), w);
  }

  lemma FirstStep(c: Config, s: State, run: seq<Action>, s': State) returns (m: State)
    requires Leads(c, s, run, s') && run != []
    ensures IsNext(c, s, run[0], m) && Leads(c, m, run[1..], s')
  {
    m :| IsNext(c, s, run[0], m) && Leads(c, m, run[1..], s');
  }

  /** The work after a run, from the work after its first step. */
  lemma WorkAdds(run: seq<Action>, w: nat, before: int, first: int, after: int)
    requires run != [] && first <= before + (if run[0].Step? then -1 else if run[0].Tick? then w else 0)
    requires Steps(run[1..]) + after <= first + Ticks(run[1..]) * w
    ensures Steps(run) + after <= before + Ticks(run) * w
  {
    TicksTimes(run, w);
  }

  /** The work a run does, given what each tick adds. */
  lemma {:induction false} WorkBound(c: Config, s: State, run: seq<Action>, s': State, w: nat)
    requires Inv(c, s) && Leads(c, s, run, s') && w == 6 * c.n + 6
    ensures Typed(c, s') && Steps(run) + Work(c, s') <= Work(c, s) + Ticks(run) * w
    decreases |run|
  {
    if run != [] {
      var m := FirstStep(c, s, run, s');
      StepWorks(c, s, run[0], m);
      WorkBound(c, m, run[1..], s', w);
      WorkAdds(run, w, Work(c, s), Work(c, m), Work(c, s'));
    }
  }

  /** However the threads interleave, they take at most 30 n + 27 steps between
      them, plus 6 n + 6 for each time the renewer's ticker fires. */
  lemma BoundedWork(c: Config, run: seq<Action>, s: State)
    requires ConfigOk(c) && Leads(c, Init(c), run, s)
    ensures Steps(run) <= 30 * c.n + 27 + Ticks(run) * (6 * c.n + 6)
  {
    InitInv(c);
    WorkBound(c, Init(c), run, s, 6 * c.n + 6);
    CostBounds(c, s.loop);
    CostBounds(c, s.callback);
  }
}

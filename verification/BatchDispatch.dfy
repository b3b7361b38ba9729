/** The three threads that act on one batch of messages: the handler loop of
    dispatchBatch, the callback that runs when shutdown begins, and the lease
    renewer.  Every lock acquisition, lock release, shared read, request and
    reply is a step of its own, so a run is any interleaving of them. */
module BatchDispatch {
  import opened Common

  /** A batch: its size, which messages carry a receipt, and whether a failed
      message is handed back at once. */
  datatype Config = Config(n: nat, leased: seq<bool>, requeue: bool)

  ghost predicate ConfigOk(c: Config) { |c.leased| == c.n }

  datatype Tid = Loop | Callback | Renewer

  /** How a message ended. */
  datatype Outcome =
    | LostBeforeStart                // reported lost, handler never ran
    | NoLease                        // handled, nothing to settle
    | SettledByHandler               // its handler had settled it
    | LostWhileRunning               // reported lost when the handler returned
    | Failed(nacked: bool)           // the handler failed
    | AckAnswered(ok: bool)          // acked with the batch
    | LostBeforeAck                  // reported lost at the flush
    | HandedBack(ok: bool)           // never started, nacked
    | LostUnstarted                  // never started, its lease already gone

  /** Why a lease is being released, and what the releasing thread goes on to do. */
  datatype Task =
    | LostAtStart(i: nat)
    | Unleased(i: nat)
    | Ran(i: nat, failed: bool, settled: bool)
    | Flushing(i: nat, todo: seq<nat>, toAck: seq<nat>)
    | HandingBack(i: nat, list: seq<nat>)

  /** What a call of the error handler is about. */
  datatype Call =
    | ReportLostAtStart(i: nat)
    | ReportLostRunning(i: nat)
    | ReportFailure(i: nat, settled: bool)
    | ReportLostAtFlush(i: nat, todo: seq<nat>, toAck: seq<nat>)
    | ReportAckFailed(i: nat, rest: seq<nat>)

  /** The critical sections of the handler loop and the callback. */
  datatype Section =
    | Start(i: nat)          // mu: whether to start message i
    | LookLost(i: nat)       // l.mu: batchLeases.lost
    | Push(i: nat)           // mu: message i joins succeeded
    | Take                   // mu: flush takes over succeeded
    | TakeRest               // mu: handBackUnstarted takes over the unstarted
    | Calling(r: Call)       // reportMu: the error handler runs
    | Renewals(k: Task)      // round, and l.mu inside it: batchLeases.release

  datatype LockName = Mu | Round | Lmu | ReportMu

  function LockOf(sec: Section): LockName
  {
    match sec
    case LookLost(_) => Lmu
    case Calling(_) => ReportMu
    case Renewals(_) => Round
    case _ => Mu
  }

  /** Where the handler loop or the callback is. */
  datatype PC =
    | Want(sec: Section)                 // waiting for the section's lock
    | In(sec: Section)                   // inside it
    | Both(k: Task)                      // release, holding l.mu as well
    | Left(k: Task, lost: bool)          // release, having let go of l.mu
    // the handler loop on message i
    | At(i: nat) | Running(i: nat) | Returned(i: nat, failed: bool) | Nack(i: nat) | NackSent(i: nat)
    // flush and handBackUnstarted
    | FlushNext(todo: seq<nat>, toAck: seq<nat>) | AckSent(toAck: seq<nat>) | AckReports(rest: seq<nat>)
    | HandBackNext(at: nat, list: seq<nat>) | NackBatchSent(list: seq<nat>)
    // the end of dispatchBatch, and a callback not yet started
    | Join | JoinWait | Stop | StopWait | Finished | Idle

  /** Where the renewer is.  carry is the round's list of messages. */
  datatype RPC =
    | Waiting
    | WantRound
    | InRound
    | Collect(at: nat, carry: seq<nat>)
    | ExtendSent(carry: seq<nat>)
    | Judge(carry: seq<nat>, todo: seq<nat>, lost: set<nat>)
    | JudgeSettling(carry: seq<nat>, todo: seq<nat>, lost: set<nat>)
    | Mark(carry: seq<nat>, todo: seq<nat>, lost: set<nat>)
    | InMark(carry: seq<nat>, todo: seq<nat>, lost: set<nat>)
    | LeaveRound(carry: seq<nat>)
    | Exited

  datatype AfterFunc = Armed | Started | Stopped

  datatype State = State(
    shutdown: bool,            // pollCtx has ended
    after: AfterFunc,          // context.AfterFunc's registration
    next: nat, handedBack: bool, succeeded: seq<nat>,
    held: seq<bool>, gone: seq<bool>,
    settled: seq<bool>, settling: seq<nat>,
    // history: whose handler was called, whose handler returned an error, whose
    // message was settled when its handler returned, and what became of each message
    started: seq<bool>, failed: seq<bool>, atReturn: seq<bool>, outs: seq<seq<Outcome>>,
    loop: PC, callback: PC, ren: RPC)

  function Init(c: Config): State
    requires ConfigOk(c)
  {
    State(false, Armed, 0, false, [],
          c.leased, seq(c.n, _ => false), seq(c.n, _ => false), seq(c.n, _ => 0),
          seq(c.n, _ => false), seq(c.n, _ => false), seq(c.n, _ => false), seq(c.n, _ => []),
          At(0), Idle, Waiting)
  }

  /** What the environment decides at a step: whether a handler failed, and
      which messages of a request were answered one way (settled, or, for a
      renewal, gone). */
  datatype Choice = Choice(failed: bool, answered: set<nat>)

  datatype Action =
    | Shutdown                             // the caller's context ends
    | Step(t: Tid, choice: Choice)         // a thread's next step
    | Tick                                 // the renewer's ticker fires
    | UserSettles(i: nat)                  // a handler calls Ack or Nack,
    | UserRecorded(i: nat)                 // which succeeds
    | UserReturns(i: nat)                  // and returns

  function Pc(s: State, t: Tid): PC { if t == Callback then s.callback else s.loop }

  function Goto(s: State, t: Tid, pc: PC): State
  {
    if t == Callback then s.(callback := pc) else s.(loop := pc)
  }

  function Emit(s: State, i: nat, o: Outcome): State
    requires i < |s.outs|
  {
    s.(outs := s.outs[i := s.outs[i] + [o]])
  }

  /** The replies to a request for list: each message gets its outcome, and the
      ones answered 204 are recorded settled. */
  function Answer(s: State, list: seq<nat>, ok: set<nat>, ack: bool): State
  {
    s.(outs := seq(|s.outs|, i requires 0 <= i < |s.outs| =>
                 if i in list then s.outs[i] + [if ack then AckAnswered(i in ok) else HandedBack(i in ok)]
                 else s.outs[i]),
       settled := seq(|s.settled|, i requires 0 <= i < |s.settled| => s.settled[i] || (i in list && i in ok)))
  }

  function Refused(list: seq<nat>, ok: set<nat>): seq<nat>
  {
    if list == [] then [] else (if list[0] in ok then [] else [list[0]]) + Refused(list[1..], ok)
  }

  // ----- locks -----

  /** Whether a thread at pc is inside lock l. */
  predicate Holds(pc: PC, l: LockName)
  {
    match pc
    case In(sec) => LockOf(sec) == l
    case Both(_) => l == Round || l == Lmu
    case Left(_, _) => l == Round
    case _ => false
  }

  predicate RenHolds(r: RPC, l: LockName)
  {
    match l
    case Round => !r.Waiting? && !r.WantRound? && !r.Exited?
    case Lmu => r.Collect? || r.InMark?
    case _ => false
  }

  /** A lock can be taken while no thread is inside it. */
  predicate Free(s: State, l: LockName)
  {
    !Holds(s.loop, l) && !Holds(s.callback, l) && !RenHolds(s.ren, l)
  }

  // ----- the steps of the handler loop and the callback -----

  /** Whatever has not started when shutdown begins is not started any more. */
  function StartStep(s: State, i: nat): State
  {
    if s.handedBack || s.shutdown then s.(loop := Join)
    else s.(next := i + 1, loop := Want(LookLost(i)))
  }

  function LookLostStep(s: State, i: nat): State
    requires i < |s.gone| == |s.started|
  {
    if s.gone[i] then s.(loop := Want(Renewals(LostAtStart(i))))
    else s.(started := s.started[i := true], loop := Running(i))
  }

  /** The handler of message i returns. */
  function RunStep(c: Config, s: State, i: nat, failed: bool): State
    requires i < |c.leased| == |s.settled| == |s.atReturn| == |s.failed|
  {
    s.(atReturn := s.atReturn[i := s.settled[i]], failed := s.failed[i := failed],
       loop := if c.leased[i] then Returned(i, failed) else Want(Renewals(Unleased(i))))
  }

  function ReturnedStep(s: State, i: nat, failed: bool): State
    requires i < |s.settled|
  {
    s.(loop := if !failed && !s.settled[i] then Want(Push(i)) else Want(Renewals(Ran(i, failed, s.settled[i]))))
  }

  function PushStep(s: State, i: nat): State
  {
    s.(succeeded := s.succeeded + [i], loop := At(i + 1))
  }

  function NackedStep(s: State, i: nat, ok: bool): State
    requires i < |s.settled| == |s.outs|
  {
    Leave(s.(settled := s.settled[i := s.settled[i] || ok]), Loop, i, Some(Failed(true)), At(i + 1))
  }

  function DropStep(s: State, t: Tid, k: Task): State
    requires k.i < |s.held| == |s.gone|
  {
    Goto(s.(held := s.held[k.i := false]), t, Left(k, s.gone[k.i]))
  }

  /** A thread moves on to pc, message i having ended if there is an outcome. */
  function Leave(s: State, t: Tid, i: nat, o: Option<Outcome>, pc: PC): State
    requires i < |s.outs|
  {
    Goto(if o.Some? then Emit(s, i, o.value) else s, t, pc)
  }

  /** Where a thread goes once release has returned, and how the message ends
      if that is the end of it. */
  function ReleasedPc(k: Task, lost: bool): PC
  {
    match k
    case LostAtStart(i) => Want(Calling(ReportLostAtStart(i)))
    case Unleased(i) => At(i + 1)
    case Ran(i, failed, settled) =>
      if lost && !settled then Want(Calling(ReportLostRunning(i)))
      else if failed then Want(Calling(ReportFailure(i, settled)))
      else At(i + 1)
    case Flushing(i, todo, toAck) =>
      if lost then Want(Calling(ReportLostAtFlush(i, todo, toAck))) else FlushNext(todo, toAck + [i])
    case HandingBack(i, list) => HandBackNext(i + 1, if lost then list else list + [i])
  }

  function ReleasedOutcome(k: Task, lost: bool): Option<Outcome>
  {
    match k
    case Unleased(_) => Some(NoLease)
    case Ran(_, failed, settled) => if (lost && !settled) || failed then None else Some(SettledByHandler)
    case HandingBack(_, _) => if lost then Some(LostUnstarted) else None
    case _ => None
  }

  /** Likewise once the error handler has returned. */
  function CalledPc(c: Config, r: Call): PC
  {
    match r
    case ReportLostAtStart(i) => At(i + 1)
    case ReportLostRunning(i) => At(i + 1)
    case ReportFailure(i, settled) => if c.requeue && !settled then Nack(i) else At(i + 1)
    case ReportLostAtFlush(_, todo, toAck) => FlushNext(todo, toAck)
    case ReportAckFailed(_, rest) => AckReports(rest)
  }

  function CalledOutcome(c: Config, r: Call): Option<Outcome>
  {
    match r
    case ReportLostAtStart(_) => Some(LostBeforeStart)
    case ReportLostRunning(_) => Some(LostWhileRunning)
    case ReportFailure(_, settled) =>
      if settled then Some(SettledByHandler) else if c.requeue then None else Some(Failed(false))
    case ReportLostAtFlush(_, _, _) => Some(LostBeforeAck)
    case ReportAckFailed(_, _) => None
  }

  function TakeStep(s: State, t: Tid): State
  {
    Goto(s.(succeeded := []), t, FlushNext(s.succeeded, []))
  }

  function FlushNextPc(todo: seq<nat>, toAck: seq<nat>): PC
  {
    if todo != [] then Want(Renewals(Flushing(todo[0], todo[1..], toAck)))
    else if toAck == [] then AckReports([]) else AckSent(toAck)
  }

  function AckedStep(s: State, t: Tid, toAck: seq<nat>, ok: set<nat>): State
  {
    Goto(Answer(s, toAck, ok, true), t, AckReports(Refused(toAck, ok)))
  }

  function AckReportsPc(rest: seq<nat>): PC
  {
    Want(if rest == [] then TakeRest else Calling(ReportAckFailed(rest[0], rest[1..])))
  }

  function TakeRestStep(c: Config, s: State, t: Tid): State
  {
    Goto(s.(handedBack := true), t, HandBackNext(if s.handedBack then c.n else s.next, []))
  }

  function HandBackNextPc(c: Config, t: Tid, at: nat, list: seq<nat>): PC
  {
    if at < c.n then Want(Renewals(HandingBack(at, list)))
    else if list != [] then NackBatchSent(list) else AfterHandBack(t)
  }

  function NackedBatchStep(s: State, t: Tid, list: seq<nat>, ok: set<nat>): State
  {
    Goto(Answer(s, list, ok, false), t, AfterHandBack(t))
  }

  function JoinStep(s: State): State
  {
    if s.after.Armed? then s.(after := Stopped, loop := Want(Take)) else s.(loop := JoinWait)
  }

  /** A thread leaves a critical section, having done its work there. */
  function InStep(c: Config, s: State, t: Tid, sec: Section): Option<State>
    requires Shape(c, s) && SectionOk(c, sec)
  {
    match sec
    case Start(i) => Some(StartStep(s, i))
    case LookLost(i) => Some(LookLostStep(s, i))
    case Push(i) => Some(PushStep(s, i))
    case Take => Some(TakeStep(s, t))
    case TakeRest => Some(TakeRestStep(c, s, t))
    case Calling(r) => Some(Leave(s, t, r.i, CalledOutcome(c, r), CalledPc(c, r)))
    case Renewals(k) => if Free(s, Lmu) then Some(Goto(s, t, Both(k))) else None
  }

  /** The next step of the handler loop or the callback, if it can take one.
      The steps without a thread argument are the loop's alone. */
  function StepPc(c: Config, s: State, t: Tid, ch: Choice): Option<State>
    requires Shape(c, s) && PcOk(c, Pc(s, t))
  {
    match Pc(s, t)
    case Want(sec) => if Free(s, LockOf(sec)) then Some(Goto(s, t, In(sec))) else None
    case In(sec) => InStep(c, s, t, sec)
    case Both(k) => Some(DropStep(s, t, k))
    case Left(k, lost) => Some(Leave(s, t, k.i, ReleasedOutcome(k, lost), ReleasedPc(k, lost)))
    case At(i) => Some(s.(loop := if i == c.n then Join else Want(Start(i))))
    case Running(i) => Some(RunStep(c, s, i, ch.failed))
    case Returned(i, failed) => Some(ReturnedStep(s, i, failed))
    case Nack(i) => Some(s.(loop := NackSent(i)))
    case NackSent(i) => Some(NackedStep(s, i, i in ch.answered))
    case FlushNext(todo, toAck) => Some(Goto(s, t, FlushNextPc(todo, toAck)))
    case AckSent(toAck) => Some(AckedStep(s, t, toAck, ch.answered))
    case AckReports(rest) => Some(Goto(s, t, AckReportsPc(rest)))
    case HandBackNext(at, list) => Some(Goto(s, t, HandBackNextPc(c, t, at, list)))
    case NackBatchSent(list) => Some(NackedBatchStep(s, t, list, ch.answered))
    case Join => Some(JoinStep(s))
    case JoinWait => if s.callback.Finished? then Some(s.(loop := Want(Take))) else None
    case Stop => Some(s.(loop := StopWait))
    case StopWait => if s.ren.Exited? then Some(s.(loop := Finished)) else None
    case Finished => None
    case Idle =>
      if s.shutdown && s.after.Armed? then Some(s.(after := Started, callback := Want(Take))) else None
  }

  function AfterHandBack(t: Tid): PC { if t == Callback then Finished else Stop }

  /** Where the renewer goes next, if it can take a step.  It leaves between rounds when
      the leases are stopped or when workCtx ends, and that only after a shutdown. */
  function NextRpc(c: Config, s: State, ch: Choice): Option<RPC>
    requires Shape(c, s) && RenOk(c, s.ren)
  {
    match s.ren
    case Waiting => if s.shutdown || s.loop.StopWait? then Some(Exited) else None
    case WantRound => if Free(s, Round) then Some(InRound) else None
    case InRound => if Free(s, Lmu) then Some(Collect(0, [])) else None
    case Collect(at, carry) =>
      if at < c.n then Some(Collect(at + 1, if s.held[at] && !s.settled[at] then carry + [at] else carry))
      else Some(if carry == [] then LeaveRound([]) else ExtendSent(carry))
    case ExtendSent(carry) => Some(Judge(carry, carry, ch.answered))
    case Judge(carry, todo, lost) =>
      if todo == [] then Some(LeaveRound(carry))
      else if todo[0] !in lost || s.settled[todo[0]] then Some(Judge(carry, todo[1..], lost))
      else Some(JudgeSettling(carry, todo, lost))
    case JudgeSettling(carry, todo, lost) =>
      Some(if s.settling[todo[0]] > 0 then Judge(carry, todo[1..], lost) else Mark(carry, todo, lost))
    case Mark(carry, todo, lost) => if Free(s, Lmu) then Some(InMark(carry, todo, lost)) else None
    case InMark(carry, todo, lost) => Some(Judge(carry, todo[1..], lost))
    case LeaveRound(_) => Some(Waiting)
    case Exited => None
  }

  /** The lease of message i is found gone, and its handler told to stop. */
  function MarkGone(s: State, i: nat): State
    requires i < |s.held| == |s.gone|
  {
    s.(held := s.held[i := false], gone := s.gone[i := true])
  }

  function StepRenewer(c: Config, s: State, ch: Choice): Option<State>
    requires Shape(c, s) && RenOk(c, s.ren)
  {
    match NextRpc(c, s, ch)
    case None => None
    case Some(r) => Some((if s.ren.InMark? then MarkGone(s, s.ren.todo[0]) else s).(ren := r))
  }

  /** One step of a run; None when the action is not possible in s. */
  function Apply(c: Config, s: State, a: Action): Option<State>
    requires Shape(c, s) && PcOk(c, s.loop) && PcOk(c, s.callback) && RenOk(c, s.ren)
  {
    match a
    case Shutdown => Some(s.(shutdown := true))
    case Step(t, ch) => if t == Renewer then StepRenewer(c, s, ch) else StepPc(c, s, t, ch)
    case Tick => if s.ren.Waiting? then Some(s.(ren := WantRound)) else None
    case UserSettles(i) =>
      if i < c.n && s.started[i] then Some(s.(settling := s.settling[i := s.settling[i] + 1])) else None
    case UserRecorded(i) =>
      if i < c.n && s.settling[i] > 0 then Some(s.(settled := s.settled[i := true])) else None
    case UserReturns(i) =>
      if i < c.n && s.settling[i] > 0 then Some(s.(settling := s.settling[i := s.settling[i] - 1])) else None
  }

  // ----- well-formed states -----

  predicate Shape(c: Config, s: State)
  {
    |c.leased| == c.n == |s.held| == |s.gone| == |s.settled| == |s.settling|
    == |s.started| == |s.failed| == |s.atReturn| == |s.outs| && s.next <= c.n
  }

  predicate NoDup(list: seq<nat>) { forall j, k :: 0 <= j < k < |list| ==> list[j] != list[k] }

  predicate Apart(a: seq<nat>, b: seq<nat>) { forall x <- a :: x !in b }

  predicate TaskOk(c: Config, k: Task)
  {
    k.i < c.n &&
    match k
    case Flushing(i, todo, toAck) => i !in todo && i !in toAck && FlushOk(c, todo, toAck)
    case HandingBack(i, list) => NoDup(list) && Below(list, i)
    case Ran(_, failed, settled) => failed || settled
    case _ => true
  }

  predicate FlushOk(c: Config, todo: seq<nat>, toAck: seq<nat>)
  {
    Below(todo, c.n) && Below(toAck, c.n) && NoDup(todo) && NoDup(toAck) && Apart(todo, toAck)
  }

  predicate CallOk(c: Config, r: Call)
  {
    r.i < c.n &&
    match r
    case ReportLostAtFlush(i, todo, toAck) => i !in todo && i !in toAck && FlushOk(c, todo, toAck)
    case ReportAckFailed(i, rest) => Below(rest, c.n)
    case _ => true
  }

  predicate SectionOk(c: Config, sec: Section)
  {
    match sec
    case Start(i) => i < c.n
    case LookLost(i) => i < c.n
    case Push(i) => i < c.n
    case Calling(r) => CallOk(c, r)
    case Renewals(k) => TaskOk(c, k)
    case _ => true
  }

  predicate PcOk(c: Config, pc: PC)
  {
    match pc
    case Want(sec) => SectionOk(c, sec)
    case In(sec) => SectionOk(c, sec)
    case Both(k) => TaskOk(c, k)
    case Left(k, _) => TaskOk(c, k)
    case At(i) => i <= c.n
    case Running(i) => i < c.n
    case Returned(i, _) => i < c.n
    case Nack(i) => i < c.n
    case NackSent(i) => i < c.n
    case FlushNext(todo, toAck) => FlushOk(c, todo, toAck)
    case AckSent(toAck) => Below(toAck, c.n) && NoDup(toAck)
    case AckReports(rest) => Below(rest, c.n)
    case HandBackNext(at, list) => at <= c.n && NoDup(list) && Below(list, at)
    case NackBatchSent(list) => NoDup(list) && Below(list, c.n)
    case _ => true
  }

  predicate RenOk(c: Config, r: RPC)
  {
    match r
    case Collect(at, carry) => at <= c.n && Below(carry, at)
    case ExtendSent(carry) => Below(carry, c.n)
    case Judge(carry, todo, _) => Below(carry, c.n) && Below(todo, c.n)
    case JudgeSettling(carry, todo, _) => Below(carry, c.n) && Below(todo, c.n) && todo != []
    case Mark(carry, todo, _) => Below(carry, c.n) && Below(todo, c.n) && todo != []
    case InMark(carry, todo, _) => Below(carry, c.n) && Below(todo, c.n) && todo != []
    case LeaveRound(carry) => Below(carry, c.n)
    case _ => true
  }
}

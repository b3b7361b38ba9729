/** The inductive invariant of batch dispatch and its preservation by every step. */
module BatchInvariant {
  import opened Common
  import opened BatchDispatch

  // ----- phases -----

  /** Body: the handler loop.  Then flush, before and after it has taken the
      succeeded messages, then handBackUnstarted, likewise, then the end. */
  datatype Phase = Body | Taking | Acking | Resting | Handing | Ended

  function TaskPhase(k: Task): Phase
  {
    if k.Flushing? then Acking else if k.HandingBack? then Handing else Body
  }

  function CallPhase(r: Call): Phase
  {
    if r.ReportLostAtFlush? || r.ReportAckFailed? then Acking else Body
  }

  function SectionPhase(sec: Section): Phase
  {
    match sec
    case Take => Taking
    case TakeRest => Resting
    case Calling(r) => CallPhase(r)
    case Renewals(k) => TaskPhase(k)
    case _ => Body
  }

  function PhaseOf(pc: PC): Phase
  {
    match pc
    case Want(sec) => SectionPhase(sec)
    case In(sec) => SectionPhase(sec)
    case Both(k) => TaskPhase(k)
    case Left(k, _) => TaskPhase(k)
    case FlushNext(_, _) => Acking
    case AckSent(_) => Acking
    case AckReports(_) => Acking
    case HandBackNext(_, _) => Handing
    case NackBatchSent(_) => Handing
    case Stop => Ended
    case StopWait => Ended
    case Finished => Ended
    case _ => Body
  }

  predicate SectionAt(s: State, sec: Section)
  {
    match sec
    case Start(i) => s.next == i
    case LookLost(i) => s.next == i + 1
    case Push(i) => s.next == i + 1
    case Calling(r) => CallPhase(r) == Body ==> s.next == r.i + 1
    case Renewals(k) => TaskPhase(k) == Body ==> s.next == k.i + 1
    case _ => true
  }

  /** In the loop's body, next is one past the message in hand. */
  predicate AtMessage(c: Config, s: State)
  {
    match s.loop
    case At(i) => s.next == i
    case Want(sec) => SectionAt(s, sec)
    case In(sec) => SectionAt(s, sec)
    case Both(k) => TaskPhase(k) == Body ==> s.next == k.i + 1
    case Left(k, _) => TaskPhase(k) == Body ==> s.next == k.i + 1
    case Running(i) => s.next == i + 1
    case Returned(i, _) => s.next == i + 1
    case Nack(i) => s.next == i + 1 && c.requeue
    case NackSent(i) => s.next == i + 1 && c.requeue
    case Idle => false
    case _ => true
  }

  predicate Control(c: Config, s: State)
  {
    var l, cb := PhaseOf(s.loop), PhaseOf(s.callback);
    AtMessage(c, s)
    // The callback runs at most once, and only if it was not called off.
    && (s.callback.Idle? || (s.after.Started? && s.shutdown && cb != Body))
    && (s.callback.Idle? ==> !s.after.Started?) && !s.callback.Stop? && !s.callback.StopWait?
    // Once the loop flushes, the callback is over or will never run.
    && (l == Body ==> !s.after.Stopped?)
    && (l != Body ==> s.after.Stopped? || s.callback.Finished?)
    && (l == Acking || l == Resting || l == Handing || l == Ended ==> s.succeeded == [])
    && (l == Handing || l == Ended || cb == Handing || cb == Ended ==> s.handedBack)
    && (s.loop.JoinWait? ==> s.after.Started?)
    // Only shutdown ends the batch before its last message.
    && (s.handedBack || l != Body || s.loop.Join? || s.loop.JoinWait? ==> s.shutdown || s.next == c.n)
    && (s.loop.Finished? ==> s.ren.Exited?)
  }

  predicate Sole(s: State, l: LockName)
  {
    !(Holds(s.loop, l) && Holds(s.callback, l)) && !(Holds(s.loop, l) && RenHolds(s.ren, l))
    && !(Holds(s.callback, l) && RenHolds(s.ren, l))
  }

  /** No two threads are inside the same lock. */
  predicate Exclusive(s: State) { Sole(s, Mu) && Sole(s, Round) && Sole(s, Lmu) && Sole(s, ReportMu) }

  // ----- what a thread is doing with a message -----

  datatype Role =
    | Absent           // nothing
    | Fresh            // deciding whether its handler runs
    | LostFresh        // its lease was lost before that
    | ReportFresh      // and it has been released
    | Handling         // its handler runs
    | HandledWell      // its handler succeeded
    | HandledBadly     // its handler failed
    | Bare             // handled, and it holds no lease
    | BareOut          // and it has been released
    | SelfSettled      // its handler settled it
    | SelfSettledOut   // and it has been released
    | Failing          // its handler failed, unsettled
    | FailedLost       // and it has been released, its lease lost
    | FailedOut        // and it has been released with its lease intact
    | Succeeding       // its handler succeeded, its lease still renewed
    | SucceededLost    // and it has been released, its lease lost
    | Sending          // and it has been released with its lease intact
    | Rest             // never started
    | RestLost         // never started, released, and its lease was lost
    | RestSending      // never started, released with its lease intact

  function TaskRole(c: Config, k: Task, x: nat): Role
  {
    match k
    case LostAtStart(i) => if x == i then LostFresh else Absent
    case Unleased(i) => if x == i then Bare else Absent
    case Ran(i, failed, settled) => if x == i then (if settled then SelfSettled else Failing) else Absent
    case Flushing(i, todo, toAck) =>
      if x == i || x in todo then Succeeding else if x in toAck then Sending else Absent
    case HandingBack(i, list) =>
      if i <= x < c.n then Rest else if x in list then RestSending else Absent
  }

  /** The role of the message being released, once it has been. */
  function LeftRole(k: Task, lost: bool): Role
  {
    match k
    case LostAtStart(i) => ReportFresh
    case Unleased(i) => BareOut
    case Ran(i, failed, settled) => if settled then SelfSettledOut else if lost then FailedLost else FailedOut
    case Flushing(i, todo, toAck) => if lost then SucceededLost else Sending
    case HandingBack(i, list) => if lost then RestLost else RestSending
  }

  function CallRole(r: Call, x: nat): Role
  {
    match r
    case ReportLostAtStart(i) => if x == i then ReportFresh else Absent
    case ReportLostRunning(i) => if x == i then FailedLost else Absent
    case ReportFailure(i, settled) => if x == i then (if settled then SelfSettledOut else FailedOut) else Absent
    case ReportLostAtFlush(i, todo, toAck) =>
      if x == i then SucceededLost else if x in todo then Succeeding else if x in toAck then Sending else Absent
    case ReportAckFailed(_, _) => Absent
  }

  function SectionRole(c: Config, sec: Section, x: nat): Role
  {
    match sec
    case LookLost(i) => if x == i then Fresh else Absent
    case Push(i) => if x == i then Succeeding else Absent
    case Calling(r) => CallRole(r, x)
    case Renewals(k) => TaskRole(c, k, x)
    case _ => Absent
  }

  function RoleOf(c: Config, pc: PC, x: nat): Role
  {
    match pc
    case Want(sec) => SectionRole(c, sec, x)
    case In(sec) => SectionRole(c, sec, x)
    case Both(k) => TaskRole(c, k, x)
    case Left(k, lost) => if x == k.i then LeftRole(k, lost) else TaskRole(c, k, x)
    case Running(i) => if x == i then Handling else Absent
    case Returned(i, failed) => if x == i then (if failed then HandledBadly else HandledWell) else Absent
    case Nack(i) => if x == i then FailedOut else Absent
    case NackSent(i) => if x == i then FailedOut else Absent
    case FlushNext(todo, toAck) => if x in todo then Succeeding else if x in toAck then Sending else Absent
    case AckSent(toAck) => if x in toAck then Sending else Absent
    case HandBackNext(at, list) => if at <= x < c.n then Rest else if x in list then RestSending else Absent
    case NackBatchSent(list) => if x in list then RestSending else Absent
    case _ => Absent
  }

  // ----- what is known of each message -----

  function Carry(r: RPC): seq<nat>
  {
    match r
    case Collect(_, carry) => carry
    case ExtendSent(carry) => carry
    case Judge(carry, _, _) => carry
    case JudgeSettling(carry, _, _) => carry
    case Mark(carry, _, _) => carry
    case InMark(carry, _, _) => carry
    case LeaveRound(carry) => carry
    case _ => []
  }

  /** The round's list has been made up as far as message x. */
  predicate Passed(r: RPC, x: nat)
  {
    match r
    case Waiting | WantRound | InRound | Exited => false
    case Collect(at, _) => x < at
    case _ => true
  }

  predicate Within(a: seq<nat>, b: seq<nat>) { forall x <- a :: x in b }

  /** What the renewer has still to judge, it carries. */
  predicate TodoIn(r: RPC)
  {
    match r
    case Judge(carry, todo, _) => Within(todo, carry)
    case JudgeSettling(carry, todo, _) => Within(todo, carry)
    case Mark(carry, todo, _) => Within(todo, carry)
    case InMark(carry, todo, _) => Within(todo, carry)
    case _ => true
  }

  /** All that the shared state says of one message. */
  datatype View = View(
    before: bool,        // the loop has gone past it
    handedBack: bool, queued: bool, held: bool, gone: bool,
    passed: bool,        // the renewer's round has come past it
    carried: bool,       // and carries it
    settled: bool, started: bool, failed: bool, atReturn: bool, leased: bool, requeue: bool,
    outs: seq<Outcome>)

  function ViewOf(c: Config, s: State, x: nat): View
    requires Shape(c, s) && x < c.n
  {
    View(x < s.next, s.handedBack, x in s.succeeded, s.held[x], s.gone[x], Passed(s.ren, x), x in Carry(s.ren),
         s.settled[x], s.started[x], s.failed[x], s.atReturn[x], c.leased[x], c.requeue, s.outs[x])
  }

  /** No renewal touches the message any more. */
  predicate Quiet(v: View) { !v.held && !v.carried }

  /** Its handler was called and had not settled it when it returned. */
  predicate Ready(v: View) { v.started && v.leased && !v.atReturn }

  /** It was never started and never will be. */
  predicate Unstarted(v: View) { !v.before && v.handedBack }

  predicate RoleFacts(v: View, role: Role)
  {
    match role
    case Absent => true
    case Fresh => !v.started && v.before
    case LostFresh => !v.started && v.before && v.gone
    case ReportFresh => !v.started && v.before && v.gone && Quiet(v)
    case Handling => v.started
    case HandledWell => v.started && v.leased && !v.failed
    case HandledBadly => v.started && v.leased && v.failed
    case Bare => v.started && !v.leased
    case BareOut => v.started && !v.leased && Quiet(v)
    case SelfSettled => v.started && v.leased && v.settled
    case SelfSettledOut => v.started && v.leased && v.settled && Quiet(v)
    case Failing => Ready(v) && v.failed
    case FailedLost => Ready(v) && v.failed && v.gone && Quiet(v)
    case FailedOut => Ready(v) && v.failed && !v.gone && Quiet(v)
    case Succeeding => Ready(v) && !v.failed
    case SucceededLost => Ready(v) && !v.failed && v.gone && Quiet(v)
    case Sending => Ready(v) && !v.failed && !v.gone && Quiet(v)
    case Rest => Unstarted(v)
    case RestLost => Unstarted(v) && v.gone && Quiet(v)
    case RestSending => Unstarted(v) && !v.gone && Quiet(v)
  }

  /** What an outcome says about its message. */
  predicate Means(v: View, o: Outcome)
  {
    match o
    case LostBeforeStart => v.before && !v.started && v.gone
    case NoLease => v.started && !v.leased
    case SettledByHandler => v.started && v.leased && v.settled
    case LostWhileRunning => Ready(v) && v.failed && v.gone
    case Failed(nacked) => Ready(v) && v.failed && !v.gone && nacked == v.requeue
    case AckAnswered(ok) => Ready(v) && !v.failed && !v.gone && (ok ==> v.settled)
    case LostBeforeAck => Ready(v) && !v.failed && v.gone
    case HandedBack(ok) => Unstarted(v) && !v.gone && (ok ==> v.settled)
    case LostUnstarted => Unstarted(v) && v.gone
  }

  /** A thread in this role has let go of the message's lease, and not because it was lost. */
  predicate LetGo(role: Role) { role.SelfSettledOut? || role.FailedOut? || role.Sending? || role.RestSending? }

  function B(b: bool): nat { if b then 1 else 0 }

  /** In how many places the message is, counting every outcome it was given. */
  function Places(v: View, mine: Role, other: Role): nat
  {
    B(!v.before && !v.handedBack) + B(v.queued) + B(mine != Absent) + B(other != Absent) + |v.outs|
  }

  /** Everything the invariant says of one message, given what the two threads
      are doing with it. */
  predicate Good(v: View, mine: Role, other: Role)
  {
    Places(v, mine, other) == 1 && RoleFacts(v, mine) && RoleFacts(v, other)
    && (v.queued ==> Ready(v) && !v.failed)
    && (v.leased && !v.gone && v.outs == [] && !LetGo(mine) && !LetGo(other) ==> v.held)
    && (v.passed && v.held && !v.settled ==> v.carried)
    && (v.outs != [] ==> Quiet(v) && Means(v, v.outs[0]))
    && (v.gone ==> !v.held)
    && (v.started ==> v.before)
    && (v.atReturn ==> v.started && v.settled)
  }

  predicate Msg(c: Config, s: State, x: nat)
    requires Shape(c, s) && x < c.n
  {
    Good(ViewOf(c, s, x), RoleOf(c, s.loop, x), RoleOf(c, s.callback, x))
  }

  predicate Typed(c: Config, s: State)
  {
    Shape(c, s) && PcOk(c, s.loop) && PcOk(c, s.callback) && RenOk(c, s.ren)
    && Below(s.succeeded, c.n) && NoDup(s.succeeded) && TodoIn(s.ren)
  }

  predicate Frame(c: Config, s: State) { Typed(c, s) && Exclusive(s) && Control(c, s) }

  predicate Inv(c: Config, s: State)
  {
    Frame(c, s) && forall x: nat :: x < c.n ==> Msg(c, s, x)
  }

  lemma InitInv(c: Config)
    requires ConfigOk(c)
    ensures Inv(c, Init(c))
  {
  }

  // ----- one message under one step of a thread -----

  lemma Swap(v: View, mine: Role, other: Role)
    requires Good(v, mine, other)
    ensures Good(v, other, mine)
  {
  }

  function After(v: View, o: Option<Outcome>): View
  {
    if o.Some? then v.(outs := v.outs + [o.value]) else v
  }

  lemma StartGood(c: Config, i: nat, x: nat, v: View, other: Role)
    requires Good(v, RoleOf(c, In(Start(i)), x), other) && (v.before <==> x < i) && !v.handedBack
    ensures Good(v.(before := x < i + 1), RoleOf(c, Want(LookLost(i)), x), other)
  {
  }

  lemma LookLostGood(c: Config, i: nat, x: nat, gone: bool, v: View, other: Role)
    requires Good(v, RoleOf(c, In(LookLost(i)), x), other) && (x == i ==> v.gone == gone)
    ensures Good(if x == i && !gone then v.(started := true) else v,
                 RoleOf(c, if gone then Want(Renewals(LostAtStart(i))) else Running(i), x), other)
  {
  }

  lemma RunGood(c: Config, i: nat, failed: bool, x: nat, v: View, other: Role)
    requires Good(v, RoleOf(c, Running(i), x), other)
    ensures var pc := if (x == i && v.leased) then Returned(i, failed) else Want(Renewals(Unleased(i)));
            Good(if x == i then v.(atReturn := v.settled, failed := failed) else v, RoleOf(c, pc, x), other)
    ensures x != i ==> Good(v, RoleOf(c, Returned(i, failed), x), other)
  {
  }

  lemma ReturnedGood(c: Config, i: nat, failed: bool, settled: bool, x: nat, v: View, other: Role)
    requires Good(v, RoleOf(c, Returned(i, failed), x), other) && (x == i ==> v.settled == settled)
    ensures var loop := if !failed && !settled then Want(Push(i)) else Want(Renewals(Ran(i, failed, settled)));
            Good(v, RoleOf(c, loop, x), other)
  {
  }

  lemma PushGood(c: Config, i: nat, x: nat, v: View, other: Role)
    requires Good(v, RoleOf(c, In(Push(i)), x), other)
    ensures Good(v.(queued := v.queued || x == i), RoleOf(c, At(i + 1), x), other)
  {
    PushRoles(c, i, x);
    if x == i {
      QueuedGood(v, other);
    } else {
      SameView(v);
    }
  }

  lemma SameView(v: View)
    ensures v.(queued := v.queued) == v
  {
  }

  lemma PushRoles(c: Config, i: nat, x: nat)
    ensures x == i ==> RoleOf(c, In(Push(i)), x) == Succeeding && RoleOf(c, At(i + 1), x) == Absent
    ensures x != i ==> RoleOf(c, In(Push(i)), x) == RoleOf(c, At(i + 1), x)
  {
  }

  lemma QueuedGood(v: View, other: Role)
    requires Good(v, Succeeding, other)
    ensures Good(v.(queued := true), Absent, other)
  {
  }

  lemma NackedGood(c: Config, i: nat, ok: bool, x: nat, v: View, other: Role)
    requires Good(v, RoleOf(c, NackSent(i), x), other) && v.requeue
    ensures var v' := if x == i then After(v, Some(Failed(true))).(settled := v.settled || ok) else v;
            Good(v', RoleOf(c, At(i + 1), x), other)
  {
  }

  lemma DropGood(c: Config, k: Task, x: nat, gone: bool, v: View, other: Role)
    requires TaskOk(c, k) && Good(v, RoleOf(c, Both(k), x), other) && !v.carried && (x == k.i ==> v.gone == gone)
    ensures Good(if x == k.i then v.(held := false) else v, RoleOf(c, Left(k, gone), x), other)
  {
    if x == k.i {
      DropSelf(c, k, gone, v, other);
    } else {
      DropOther(c, k, gone, x);
    }
  }

  lemma DropSelf(c: Config, k: Task, gone: bool, v: View, other: Role)
    requires TaskOk(c, k) && Good(v, RoleOf(c, Both(k), k.i), other) && !v.carried && v.gone == gone
    ensures Good(v.(held := false), RoleOf(c, Left(k, gone), k.i), other)
  {
  }

  lemma DropOther(c: Config, k: Task, gone: bool, x: nat)
    requires TaskOk(c, k) && x != k.i
    ensures RoleOf(c, Left(k, gone), x) == RoleOf(c, Both(k), x)
  {
  }

  lemma ReleasedRan(c: Config, k: Task, lost: bool, v: View, other: Role)
    requires k.Ran? && TaskOk(c, k) && Good(v, LeftRole(k, lost), other)
    ensures Good(After(v, ReleasedOutcome(k, lost)), RoleOf(c, ReleasedPc(k, lost), k.i), other)
  {
  }

  lemma ReleasedFlushing(c: Config, k: Task, lost: bool, v: View, other: Role)
    requires (k.Flushing? || k.HandingBack?) && TaskOk(c, k) && Good(v, LeftRole(k, lost), other)
    ensures Good(After(v, ReleasedOutcome(k, lost)), RoleOf(c, ReleasedPc(k, lost), k.i), other)
  {
  }

  lemma ReleasedAtOnce(c: Config, k: Task, lost: bool, v: View, other: Role)
    requires (k.LostAtStart? || k.Unleased?) && TaskOk(c, k) && Good(v, LeftRole(k, lost), other)
    ensures Good(After(v, ReleasedOutcome(k, lost)), RoleOf(c, ReleasedPc(k, lost), k.i), other)
  {
  }

  lemma ReleasedSelf(c: Config, k: Task, lost: bool, v: View, other: Role)
    requires TaskOk(c, k) && Good(v, LeftRole(k, lost), other)
    ensures Good(After(v, ReleasedOutcome(k, lost)), RoleOf(c, ReleasedPc(k, lost), k.i), other)
  {
    if k.Ran? {
      ReleasedRan(c, k, lost, v, other);
    } else if k.Flushing? || k.HandingBack? {
      ReleasedFlushing(c, k, lost, v, other);
    } else {
      ReleasedAtOnce(c, k, lost, v, other);
    }
  }

  /** To any other message the releasing thread stays what it was. */
  lemma ReleasedOther(c: Config, k: Task, lost: bool, x: nat)
    requires TaskOk(c, k) && x != k.i
    ensures RoleOf(c, ReleasedPc(k, lost), x) == RoleOf(c, Left(k, lost), x)
  {
  }

  lemma ReleasedGood(c: Config, k: Task, lost: bool, x: nat, v: View, other: Role)
    requires TaskOk(c, k) && Good(v, RoleOf(c, Left(k, lost), x), other)
    ensures Good(if x == k.i then After(v, ReleasedOutcome(k, lost)) else v, RoleOf(c, ReleasedPc(k, lost), x), other)
  {
    if x == k.i {
      ReleasedSelf(c, k, lost, v, other);
    } else {
      ReleasedOther(c, k, lost, x);
    }
  }

  lemma CalledFailure(c: Config, r: Call, v: View, other: Role)
    requires r.ReportFailure? && Good(v, CallRole(r, r.i), other) && v.requeue == c.requeue
    ensures Good(After(v, CalledOutcome(c, r)), RoleOf(c, CalledPc(c, r), r.i), other)
  {
  }

  lemma CalledLost(c: Config, r: Call, v: View, other: Role)
    requires CallOk(c, r) && !r.ReportFailure? && Good(v, CallRole(r, r.i), other)
    ensures Good(After(v, CalledOutcome(c, r)), RoleOf(c, CalledPc(c, r), r.i), other)
  {
  }

  lemma CalledSelf(c: Config, r: Call, v: View, other: Role)
    requires CallOk(c, r) && Good(v, CallRole(r, r.i), other) && v.requeue == c.requeue
    ensures Good(After(v, CalledOutcome(c, r)), RoleOf(c, CalledPc(c, r), r.i), other)
  {
    if r.ReportFailure? {
      CalledFailure(c, r, v, other);
    } else {
      CalledLost(c, r, v, other);
    }
  }

  lemma CalledOther(c: Config, r: Call, x: nat)
    requires CallOk(c, r) && x != r.i
    ensures RoleOf(c, CalledPc(c, r), x) == CallRole(r, x)
  {
  }

  lemma CalledGood(c: Config, r: Call, x: nat, v: View, other: Role)
    requires CallOk(c, r) && Good(v, RoleOf(c, In(Calling(r)), x), other) && v.requeue == c.requeue
    ensures Good(if x == r.i then After(v, CalledOutcome(c, r)) else v, RoleOf(c, CalledPc(c, r), x), other)
  {
    if x == r.i {
      CalledSelf(c, r, v, other);
    } else {
      CalledOther(c, r, x);
    }
  }

  lemma TakeGood(c: Config, queue: seq<nat>, x: nat, v: View, other: Role)
    requires Good(v, RoleOf(c, In(Take), x), other) && (v.queued <==> x in queue)
    ensures Good(v.(queued := false), RoleOf(c, FlushNext(queue, []), x), other)
  {
    if x in queue {
    }
  }

  lemma FlushNextGood(c: Config, todo: seq<nat>, toAck: seq<nat>, x: nat, v: View, other: Role)
    requires Good(v, RoleOf(c, FlushNext(todo, toAck), x), other)
    ensures Good(v, RoleOf(c, FlushNextPc(todo, toAck), x), other)
  {
  }

  lemma AckReportsGood(c: Config, rest: seq<nat>, x: nat, v: View, other: Role)
    requires Good(v, RoleOf(c, AckReports(rest), x), other)
    ensures Good(v, RoleOf(c, AckReportsPc(rest), x), other)
  {
  }

  lemma TakeRestGood(c: Config, at: nat, next: nat, x: nat, v: View, other: Role)
    requires Good(v, RoleOf(c, In(TakeRest), x), other) && (v.before <==> x < next) && x < c.n
    requires at == if v.handedBack then c.n else next
    ensures Good(v.(handedBack := true), RoleOf(c, HandBackNext(at, []), x), other)
  {
  }

  lemma HandBackNextGood(c: Config, t: Tid, at: nat, list: seq<nat>, x: nat, v: View, other: Role)
    requires Good(v, RoleOf(c, HandBackNext(at, list), x), other)
    ensures Good(v, RoleOf(c, HandBackNextPc(c, t, at, list), x), other)
  {
  }

  lemma LeaveView(c: Config, s: State, t: Tid, i: nat, o: Option<Outcome>, pc: PC, x: nat)
    requires Shape(c, s) && i < c.n && x < c.n
    ensures Shape(c, Leave(s, t, i, o, pc))
    ensures ViewOf(c, Leave(s, t, i, o, pc), x) == if x == i then After(ViewOf(c, s, x), o) else ViewOf(c, s, x)
  {
  }

  lemma AnswerView(c: Config, s: State, list: seq<nat>, ok: set<nat>, ack: bool, x: nat)
    requires Shape(c, s) && x < c.n
    ensures Shape(c, Answer(s, list, ok, ack))
    ensures ViewOf(c, Answer(s, list, ok, ack), x)
            == if x in list then Answered(ViewOf(c, s, x), ack, x in ok) else ViewOf(c, s, x)
  {
  }

  function Answered(v: View, ack: bool, ok: bool): View
  {
    v.(outs := v.outs + [if ack then AckAnswered(ok) else HandedBack(ok)], settled := v.settled || ok)
  }

  lemma AnsweredGood(v: View, ack: bool, ok: bool, other: Role)
    requires Good(v, if ack then Sending else RestSending, other)
    ensures Good(Answered(v, ack, ok), Absent, other)
  {
  }

  lemma AnsweredRole(v: View, ack: bool, list: seq<nat>, ok: set<nat>, x: nat, other: Role)
    requires Good(v, if x !in list then Absent else if ack then Sending else RestSending, other)
    ensures Good(if x in list then Answered(v, ack, x in ok) else v, Absent, other)
  {
    if x in list { AnsweredGood(v, ack, x in ok, other); }
  }

  // ----- the frame under the moves of a thread -----

  /** A move from one pc to another inside one phase. */
  predicate SamePhase(from: PC, to: PC)
  {
    PhaseOf(from) == PhaseOf(to) && (forall l :: Holds(to, l) ==> Holds(from, l))
    && !to.Idle? && !to.Join? && !to.JoinWait? && !to.Stop? && !to.StopWait? && !to.Finished?
    && !from.Finished? && !from.Idle?
  }

  lemma ReleasedMoves(c: Config, k: Task, lost: bool)
    requires TaskOk(c, k)
    ensures PcOk(c, ReleasedPc(k, lost)) && SamePhase(Left(k, lost), ReleasedPc(k, lost))
  {
  }

  lemma CalledMoves(c: Config, r: Call)
    requires CallOk(c, r)
    ensures PcOk(c, CalledPc(c, r)) && SamePhase(In(Calling(r)), CalledPc(c, r))
  {
  }

  lemma FlushNextMoves(c: Config, todo: seq<nat>, toAck: seq<nat>)
    requires FlushOk(c, todo, toAck)
    ensures PcOk(c, FlushNextPc(todo, toAck)) && SamePhase(FlushNext(todo, toAck), FlushNextPc(todo, toAck))
  {
  }

  lemma MoveFrame(c: Config, s: State, t: Tid, pc: PC)
    requires Frame(c, s) && t != Renewer && PcOk(c, pc) && SamePhase(Pc(s, t), pc)
    requires t == Loop ==> AtMessage(c, s.(loop := pc))
    ensures Frame(c, Goto(s, t, pc))
  {
  }

  // ----- every step of the loop and the callback keeps the invariant -----

  function OtherPc(s: State, t: Tid): PC { if t == Callback then s.loop else s.callback }

  /** A message as either thread sees it. */
  lemma Mine(c: Config, s: State, t: Tid, x: nat)
    requires Shape(c, s) && x < c.n && t != Renewer && Msg(c, s, x)
    ensures Good(ViewOf(c, s, x), RoleOf(c, Pc(s, t), x), RoleOf(c, OtherPc(s, t), x))
  {
    if t == Callback { Swap(ViewOf(c, s, x), RoleOf(c, s.loop, x), RoleOf(c, s.callback, x)); }
  }

  lemma Back(c: Config, s: State, t: Tid, x: nat)
    requires Shape(c, s) && x < c.n && t != Renewer
    requires Good(ViewOf(c, s, x), RoleOf(c, Pc(s, t), x), RoleOf(c, OtherPc(s, t), x))
    ensures Msg(c, s, x)
  {
    if t == Callback { Swap(ViewOf(c, s, x), RoleOf(c, s.callback, x), RoleOf(c, s.loop, x)); }
  }

  lemma GotoView(c: Config, s: State, t: Tid, pc: PC, x: nat)
    requires Shape(c, s) && x < c.n && t != Renewer
    ensures var s' := Goto(s, t, pc);
            Shape(c, s') && Pc(s', t) == pc && OtherPc(s', t) == OtherPc(s, t) && ViewOf(c, s', x) == ViewOf(c, s, x)
  {
    if t == Callback {
      assert ViewOf(c, s.(callback := pc), x) == ViewOf(c, s, x);
    } else {
      assert ViewOf(c, s.(loop := pc), x) == ViewOf(c, s, x);
    }
  }

  /** An outcome changes nothing that the frame speaks of. */
  lemma LeaveFrame(c: Config, s: State, t: Tid, i: nat, o: Option<Outcome>, pc: PC)
    requires i < |s.outs| && Frame(c, Goto(s, t, pc))
    ensures Frame(c, Leave(s, t, i, o, pc))
  {
  }

  lemma SettleView(c: Config, s: State, shutdown: bool, settled: seq<bool>, settling: seq<nat>, x: nat)
    requires Shape(c, s) && |settled| == |settling| == c.n && x < c.n
    ensures var s' := s.(shutdown := shutdown, settled := settled, settling := settling);
            Shape(c, s') && ViewOf(c, s', x) == ViewOf(c, s, x).(settled := settled[x])
  {
  }

  /** A move that leaves a thread in the same role for a message. */
  lemma SameRole(c: Config, s: State, t: Tid, pc: PC, x: nat)
    requires Shape(c, s) && x < c.n && t != Renewer && Msg(c, s, x) && RoleOf(c, pc, x) == RoleOf(c, Pc(s, t), x)
    ensures Shape(c, Goto(s, t, pc)) && Msg(c, Goto(s, t, pc), x)
  {
    Mine(c, s, t, x);
    GotoView(c, s, t, pc, x);
    Back(c, Goto(s, t, pc), t, x);
  }

  lemma EnterFrame(c: Config, s: State, t: Tid, sec: Section)
    requires Frame(c, s) && t != Renewer && Pc(s, t) == Want(sec) && Free(s, LockOf(sec))
    ensures Frame(c, Goto(s, t, In(sec)))
  {
  }

  lemma EnterInv(c: Config, s: State, t: Tid, sec: Section)
    requires Inv(c, s) && t != Renewer && Pc(s, t) == Want(sec) && Free(s, LockOf(sec))
    ensures Inv(c, Goto(s, t, In(sec)))
  {
    EnterFrame(c, s, t, sec);
    forall x: nat | x < c.n ensures Msg(c, Goto(s, t, In(sec)), x) { SameRole(c, s, t, In(sec), x); }
  }

  lemma EnterBothFrame(c: Config, s: State, t: Tid, k: Task)
    requires Frame(c, s) && t != Renewer && Pc(s, t) == In(Renewals(k)) && Free(s, Lmu)
    ensures Frame(c, Goto(s, t, Both(k)))
  {
  }

  lemma EnterBothInv(c: Config, s: State, t: Tid, k: Task)
    requires Inv(c, s) && t != Renewer && Pc(s, t) == In(Renewals(k)) && Free(s, Lmu)
    ensures Inv(c, Goto(s, t, Both(k)))
  {
    EnterBothFrame(c, s, t, k);
    forall x: nat | x < c.n ensures Msg(c, Goto(s, t, Both(k)), x) { SameRole(c, s, t, Both(k), x); }
  }

  lemma StartFrame(c: Config, s: State, i: nat)
    requires Frame(c, s) && s.loop == In(Start(i))
    ensures Frame(c, StartStep(s, i))
  {
  }

  lemma StartView(c: Config, s: State, i: nat, x: nat)
    requires Shape(c, s) && x < c.n && i < c.n
    ensures var s' := s.(next := i + 1, loop := Want(LookLost(i)));
            Shape(c, s') && ViewOf(c, s', x) == ViewOf(c, s, x).(before := x < i + 1)
  {
  }

  lemma GoesOnMsg(c: Config, s: State, i: nat, x: nat)
    requires Shape(c, s) && x < c.n && Msg(c, s, x) && s.loop == In(Start(i)) && s.next == i && i < c.n && !s.handedBack
    ensures var s' := s.(next := i + 1, loop := Want(LookLost(i))); Shape(c, s') && Msg(c, s', x)
  {
    StartGood(c, i, x, ViewOf(c, s, x), RoleOf(c, s.callback, x));
    StartView(c, s, i, x);
  }

  lemma StartMsg(c: Config, s: State, i: nat, x: nat)
    requires Shape(c, s) && x < c.n && Msg(c, s, x) && s.loop == In(Start(i)) && s.next == i && i < c.n
    ensures Shape(c, StartStep(s, i)) && Msg(c, StartStep(s, i), x)
  {
    if s.handedBack || s.shutdown {
      SameRole(c, s, Loop, Join, x);
    } else {
      GoesOnMsg(c, s, i, x);
    }
  }

  lemma StartInv(c: Config, s: State, i: nat)
    requires Inv(c, s) && s.loop == In(Start(i))
    ensures Inv(c, StartStep(s, i))
  {
    StartFrame(c, s, i);
    forall x: nat | x < c.n ensures Msg(c, StartStep(s, i), x) { StartMsg(c, s, i, x); }
  }

  lemma LookLostFrame(c: Config, s: State, i: nat)
    requires Frame(c, s) && i < c.n && s.loop == In(LookLost(i))
    ensures Frame(c, LookLostStep(s, i))
  {
  }

  lemma LookLostMsg(c: Config, s: State, i: nat, x: nat)
    requires Shape(c, s) && x < c.n && Msg(c, s, x) && i < c.n && s.loop == In(LookLost(i))
    requires Shape(c, LookLostStep(s, i))
    ensures Msg(c, LookLostStep(s, i), x)
  {
    LookLostGood(c, i, x, s.gone[i], ViewOf(c, s, x), RoleOf(c, s.callback, x));
  }

  lemma LookLostInv(c: Config, s: State, i: nat)
    requires Inv(c, s) && i < c.n && s.loop == In(LookLost(i))
    ensures Inv(c, LookLostStep(s, i))
  {
    LookLostFrame(c, s, i);
    forall x: nat | x < c.n ensures Msg(c, LookLostStep(s, i), x) { LookLostMsg(c, s, i, x); }
  }

  lemma RunFrame(c: Config, s: State, i: nat, failed: bool)
    requires Frame(c, s) && s.loop == Running(i)
    ensures Frame(c, RunStep(c, s, i, failed))
  {
  }

  lemma RunView(c: Config, s: State, i: nat, failed: bool, x: nat)
    requires Shape(c, s) && x < c.n && i < c.n
    ensures var s', v := RunStep(c, s, i, failed), ViewOf(c, s, x);
            Shape(c, s') && s'.callback == s.callback
            && s'.loop == (if c.leased[i] then Returned(i, failed) else Want(Renewals(Unleased(i))))
            && ViewOf(c, s', x) == if x == i then v.(atReturn := v.settled, failed := failed) else v
  {
  }

  lemma RunMsg(c: Config, s: State, i: nat, failed: bool, x: nat)
    requires Shape(c, s) && x < c.n && i < c.n && Msg(c, s, x) && s.loop == Running(i)
    requires Shape(c, RunStep(c, s, i, failed))
    ensures Msg(c, RunStep(c, s, i, failed), x)
  {
    RunGood(c, i, failed, x, ViewOf(c, s, x), RoleOf(c, s.callback, x));
    RunView(c, s, i, failed, x);
  }

  lemma RunInv(c: Config, s: State, i: nat, failed: bool)
    requires Inv(c, s) && s.loop == Running(i)
    ensures Inv(c, RunStep(c, s, i, failed))
  {
    RunFrame(c, s, i, failed);
    forall x: nat | x < c.n ensures Msg(c, RunStep(c, s, i, failed), x) { RunMsg(c, s, i, failed, x); }
  }

  lemma ReturnedFrame(c: Config, s: State, i: nat, failed: bool)
    requires Frame(c, s) && s.loop == Returned(i, failed)
    ensures Frame(c, ReturnedStep(s, i, failed))
  {
  }

  lemma ReturnedMsg(c: Config, s: State, i: nat, failed: bool, x: nat)
    requires Shape(c, s) && x < c.n && i < c.n && Msg(c, s, x) && s.loop == Returned(i, failed)
    ensures Shape(c, ReturnedStep(s, i, failed)) && Msg(c, ReturnedStep(s, i, failed), x)
  {
    ReturnedGood(c, i, failed, s.settled[i], x, ViewOf(c, s, x), RoleOf(c, s.callback, x));
    GotoView(c, s, Loop, ReturnedStep(s, i, failed).loop, x);
    Back(c, ReturnedStep(s, i, failed), Loop, x);
  }

  lemma ReturnedInv(c: Config, s: State, i: nat, failed: bool)
    requires Inv(c, s) && s.loop == Returned(i, failed)
    ensures Inv(c, ReturnedStep(s, i, failed))
  {
    ReturnedFrame(c, s, i, failed);
    forall x: nat | x < c.n ensures Msg(c, ReturnedStep(s, i, failed), x) { ReturnedMsg(c, s, i, failed, x); }
  }

  lemma PushFrame(c: Config, s: State, i: nat)
    requires Frame(c, s) && s.loop == In(Push(i)) && i !in s.succeeded
    ensures Frame(c, PushStep(s, i))
  {
  }

  lemma PushView(c: Config, s: State, i: nat, x: nat)
    requires Shape(c, s) && x < c.n
    ensures var s', v := PushStep(s, i), ViewOf(c, s, x);
            Shape(c, s') && s'.callback == s.callback && s'.loop == At(i + 1)
            && ViewOf(c, s', x) == v.(queued := v.queued || x == i)
  {
  }

  lemma PushMsg(c: Config, s: State, i: nat, x: nat)
    requires Shape(c, s) && x < c.n && Msg(c, s, x) && s.loop == In(Push(i))
    ensures Shape(c, PushStep(s, i)) && Msg(c, PushStep(s, i), x)
  {
    PushGood(c, i, x, ViewOf(c, s, x), RoleOf(c, s.callback, x));
    PushView(c, s, i, x);
  }

  lemma PushInv(c: Config, s: State, i: nat)
    requires Inv(c, s) && s.loop == In(Push(i))
    ensures Inv(c, PushStep(s, i))
  {
    assert Msg(c, s, i);
    PushFrame(c, s, i);
    forall x: nat | x < c.n ensures Msg(c, PushStep(s, i), x) { PushMsg(c, s, i, x); }
  }

  lemma NackedFrame(c: Config, s: State, i: nat, ok: bool)
    requires Frame(c, s) && s.loop == NackSent(i)
    ensures Frame(c, NackedStep(s, i, ok))
  {
  }

  lemma NackedView(c: Config, s: State, i: nat, ok: bool, x: nat)
    requires Shape(c, s) && x < c.n && i < c.n
    ensures var s', v := NackedStep(s, i, ok), ViewOf(c, s, x);
            Shape(c, s') && s'.callback == s.callback && s'.loop == At(i + 1)
            && ViewOf(c, s', x) == if x == i then After(v, Some(Failed(true))).(settled := v.settled || ok) else v
  {
    var settled := s.settled[i := s.settled[i] || ok];
    SettleView(c, s, s.shutdown, settled, s.settling, x);
    assert s.(shutdown := s.shutdown, settled := settled, settling := s.settling) == s.(settled := settled);
    LeaveView(c, s.(settled := settled), Loop, i, Some(Failed(true)), At(i + 1), x);
  }

  lemma NackedMsg(c: Config, s: State, i: nat, ok: bool, x: nat)
    requires Shape(c, s) && x < c.n && i < c.n && Msg(c, s, x) && s.loop == NackSent(i) && c.requeue
    ensures Shape(c, NackedStep(s, i, ok)) && Msg(c, NackedStep(s, i, ok), x)
  {
    NackedGood(c, i, ok, x, ViewOf(c, s, x), RoleOf(c, s.callback, x));
    NackedView(c, s, i, ok, x);
  }

  lemma NackedInv(c: Config, s: State, i: nat, ok: bool)
    requires Inv(c, s) && s.loop == NackSent(i)
    ensures Inv(c, NackedStep(s, i, ok))
  {
    NackedFrame(c, s, i, ok);
    forall x: nat | x < c.n ensures Msg(c, NackedStep(s, i, ok), x) { NackedMsg(c, s, i, ok, x); }
  }

  lemma HeldFrame(c: Config, s: State, held: seq<bool>)
    requires Frame(c, s) && |held| == c.n
    ensures Frame(c, s.(held := held))
  {
  }

  lemma DropFrame(c: Config, s: State, t: Tid, k: Task)
    requires Frame(c, s) && t != Renewer && k.i < c.n && Pc(s, t) == Both(k)
    ensures Frame(c, DropStep(s, t, k))
  {
    var held, pc := s.held[k.i := false], Left(k, s.gone[k.i]);
    HeldFrame(c, s, held);
    MoveFrame(c, s.(held := held), t, pc);
  }

  lemma HeldView(c: Config, s: State, held: seq<bool>, x: nat)
    requires Shape(c, s) && x < c.n && |held| == c.n
    ensures Shape(c, s.(held := held)) && ViewOf(c, s.(held := held), x) == ViewOf(c, s, x).(held := held[x])
  {
  }

  lemma DropView(c: Config, s: State, t: Tid, k: Task, x: nat)
    requires Shape(c, s) && x < c.n && t != Renewer && k.i < c.n
    ensures var s' := DropStep(s, t, k);
            Shape(c, s') && Pc(s', t) == Left(k, s.gone[k.i]) && OtherPc(s', t) == OtherPc(s, t)
            && ViewOf(c, s', x) == if x == k.i then ViewOf(c, s, x).(held := false) else ViewOf(c, s, x)
  {
    HeldView(c, s, s.held[k.i := false], x);
    GotoView(c, s.(held := s.held[k.i := false]), t, Left(k, s.gone[k.i]), x);
  }

  lemma DropMsg(c: Config, s: State, t: Tid, k: Task, x: nat)
    requires Shape(c, s) && x < c.n && Msg(c, s, x) && t != Renewer && k.i < c.n
    requires Pc(s, t) == Both(k) && TaskOk(c, k) && Carry(s.ren) == []
    requires Shape(c, DropStep(s, t, k))
    ensures Msg(c, DropStep(s, t, k), x)
  {
    Mine(c, s, t, x);
    DropView(c, s, t, k, x);
    DropGood(c, k, x, s.gone[k.i], ViewOf(c, s, x), RoleOf(c, OtherPc(s, t), x));
    Back(c, DropStep(s, t, k), t, x);
  }

  lemma DropInv(c: Config, s: State, t: Tid, k: Task)
    requires Inv(c, s) && t != Renewer && k.i < c.n && Pc(s, t) == Both(k)
    ensures Inv(c, DropStep(s, t, k))
  {
    assert Sole(s, Round) && Carry(s.ren) == [];
    DropFrame(c, s, t, k);
    forall x: nat | x < c.n ensures Msg(c, DropStep(s, t, k), x) { DropMsg(c, s, t, k, x); }
  }

  lemma ReleasedFrame(c: Config, s: State, t: Tid, k: Task, lost: bool)
    requires Frame(c, s) && t != Renewer && k.i < c.n && Pc(s, t) == Left(k, lost)
    ensures Frame(c, Leave(s, t, k.i, ReleasedOutcome(k, lost), ReleasedPc(k, lost)))
  {
    ReleasedMoves(c, k, lost);
    MoveFrame(c, s, t, ReleasedPc(k, lost));
    LeaveFrame(c, s, t, k.i, ReleasedOutcome(k, lost), ReleasedPc(k, lost));
  }

  lemma ReleasedMsg(c: Config, s: State, t: Tid, k: Task, lost: bool, x: nat)
    requires Shape(c, s) && x < c.n && Msg(c, s, x) && t != Renewer && k.i < c.n
    requires Pc(s, t) == Left(k, lost) && TaskOk(c, k)
    requires Shape(c, Leave(s, t, k.i, ReleasedOutcome(k, lost), ReleasedPc(k, lost)))
    ensures Msg(c, Leave(s, t, k.i, ReleasedOutcome(k, lost), ReleasedPc(k, lost)), x)
  {
    Mine(c, s, t, x);
    LeaveView(c, s, t, k.i, ReleasedOutcome(k, lost), ReleasedPc(k, lost), x);
    ReleasedGood(c, k, lost, x, ViewOf(c, s, x), RoleOf(c, OtherPc(s, t), x));
    Back(c, Leave(s, t, k.i, ReleasedOutcome(k, lost), ReleasedPc(k, lost)), t, x);
  }

  lemma ReleasedInv(c: Config, s: State, t: Tid, k: Task, lost: bool)
    requires Inv(c, s) && t != Renewer && k.i < c.n && Pc(s, t) == Left(k, lost)
    ensures Inv(c, Leave(s, t, k.i, ReleasedOutcome(k, lost), ReleasedPc(k, lost)))
  {
    ReleasedFrame(c, s, t, k, lost);
    forall x: nat | x < c.n ensures Msg(c, Leave(s, t, k.i, ReleasedOutcome(k, lost), ReleasedPc(k, lost)), x) {
      ReleasedMsg(c, s, t, k, lost, x);
    }
  }

  lemma CalledFrame(c: Config, s: State, t: Tid, r: Call)
    requires Frame(c, s) && t != Renewer && r.i < c.n && Pc(s, t) == In(Calling(r))
    ensures Frame(c, Leave(s, t, r.i, CalledOutcome(c, r), CalledPc(c, r)))
  {
    CalledMoves(c, r);
    MoveFrame(c, s, t, CalledPc(c, r));
    LeaveFrame(c, s, t, r.i, CalledOutcome(c, r), CalledPc(c, r));
  }

  lemma CalledMsg(c: Config, s: State, t: Tid, r: Call, x: nat)
    requires Shape(c, s) && x < c.n && Msg(c, s, x) && t != Renewer && r.i < c.n
    requires Pc(s, t) == In(Calling(r)) && CallOk(c, r)
    requires Shape(c, Leave(s, t, r.i, CalledOutcome(c, r), CalledPc(c, r)))
    ensures Msg(c, Leave(s, t, r.i, CalledOutcome(c, r), CalledPc(c, r)), x)
  {
    Mine(c, s, t, x);
    LeaveView(c, s, t, r.i, CalledOutcome(c, r), CalledPc(c, r), x);
    CalledGood(c, r, x, ViewOf(c, s, x), RoleOf(c, OtherPc(s, t), x));
    Back(c, Leave(s, t, r.i, CalledOutcome(c, r), CalledPc(c, r)), t, x);
  }

  lemma CalledInv(c: Config, s: State, t: Tid, r: Call)
    requires Inv(c, s) && t != Renewer && r.i < c.n && Pc(s, t) == In(Calling(r))
    ensures Inv(c, Leave(s, t, r.i, CalledOutcome(c, r), CalledPc(c, r)))
  {
    CalledFrame(c, s, t, r);
    forall x: nat | x < c.n ensures Msg(c, Leave(s, t, r.i, CalledOutcome(c, r), CalledPc(c, r)), x) {
      CalledMsg(c, s, t, r, x);
    }
  }

  lemma TakeFrame(c: Config, s: State, t: Tid)
    requires Frame(c, s) && t != Renewer && Pc(s, t) == In(Take)
    ensures Frame(c, TakeStep(s, t))
  {
    if t == Callback {
      assert TakeStep(s, t) == s.(succeeded := [], callback := FlushNext(s.succeeded, []));
    } else {
      assert TakeStep(s, t) == s.(succeeded := [], loop := FlushNext(s.succeeded, []));
    }
  }

  lemma TakeView(c: Config, s: State, t: Tid, x: nat)
    requires Shape(c, s) && x < c.n && t != Renewer
    ensures var s' := TakeStep(s, t);
            Shape(c, s') && Pc(s', t) == FlushNext(s.succeeded, []) && OtherPc(s', t) == OtherPc(s, t)
            && ViewOf(c, s', x) == ViewOf(c, s, x).(queued := false)
  {
    var s1 := s.(succeeded := []);
    assert ViewOf(c, s1, x) == ViewOf(c, s, x).(queued := false);
    GotoView(c, s1, t, FlushNext(s.succeeded, []), x);
  }

  lemma TakeMsg(c: Config, s: State, t: Tid, x: nat)
    requires Shape(c, s) && x < c.n && Msg(c, s, x) && t != Renewer && Pc(s, t) == In(Take)
    requires Shape(c, TakeStep(s, t))
    ensures Msg(c, TakeStep(s, t), x)
  {
    Mine(c, s, t, x);
    TakeView(c, s, t, x);
    TakeGood(c, s.succeeded, x, ViewOf(c, s, x), RoleOf(c, OtherPc(s, t), x));
    Back(c, TakeStep(s, t), t, x);
  }

  lemma TakeInv(c: Config, s: State, t: Tid)
    requires Inv(c, s) && t != Renewer && Pc(s, t) == In(Take)
    ensures Inv(c, TakeStep(s, t))
  {
    TakeFrame(c, s, t);
    forall x: nat | x < c.n ensures Msg(c, TakeStep(s, t), x) { TakeMsg(c, s, t, x); }
  }

  lemma FlushNextFrame(c: Config, s: State, t: Tid, todo: seq<nat>, toAck: seq<nat>)
    requires Frame(c, s) && t != Renewer && Pc(s, t) == FlushNext(todo, toAck)
    ensures Frame(c, Goto(s, t, FlushNextPc(todo, toAck)))
  {
    FlushNextMoves(c, todo, toAck);
    MoveFrame(c, s, t, FlushNextPc(todo, toAck));
  }

  lemma FlushNextMsg(c: Config, s: State, t: Tid, todo: seq<nat>, toAck: seq<nat>, x: nat)
    requires Shape(c, s) && x < c.n && Msg(c, s, x) && t != Renewer && Pc(s, t) == FlushNext(todo, toAck)
    requires Shape(c, Goto(s, t, FlushNextPc(todo, toAck)))
    ensures Msg(c, Goto(s, t, FlushNextPc(todo, toAck)), x)
  {
    Mine(c, s, t, x);
    GotoView(c, s, t, FlushNextPc(todo, toAck), x);
    FlushNextGood(c, todo, toAck, x, ViewOf(c, s, x), RoleOf(c, OtherPc(s, t), x));
    Back(c, Goto(s, t, FlushNextPc(todo, toAck)), t, x);
  }

  lemma FlushNextInv(c: Config, s: State, t: Tid, todo: seq<nat>, toAck: seq<nat>)
    requires Inv(c, s) && t != Renewer && Pc(s, t) == FlushNext(todo, toAck)
    ensures Inv(c, Goto(s, t, FlushNextPc(todo, toAck)))
  {
    FlushNextFrame(c, s, t, todo, toAck);
    forall x: nat | x < c.n ensures Msg(c, Goto(s, t, FlushNextPc(todo, toAck)), x) {
      FlushNextMsg(c, s, t, todo, toAck, x);
    }
  }

  lemma AckReportsFrame(c: Config, s: State, t: Tid, rest: seq<nat>)
    requires Frame(c, s) && t != Renewer && Pc(s, t) == AckReports(rest)
    ensures Frame(c, Goto(s, t, AckReportsPc(rest)))
  {
    if rest != [] {
      MoveFrame(c, s, t, AckReportsPc(rest));
    } else if t == Callback {
      assert Goto(s, t, AckReportsPc(rest)) == s.(callback := Want(TakeRest));
    } else {
      assert Goto(s, t, AckReportsPc(rest)) == s.(loop := Want(TakeRest));
    }
  }

  lemma AckReportsMsg(c: Config, s: State, t: Tid, rest: seq<nat>, x: nat)
    requires Shape(c, s) && x < c.n && Msg(c, s, x) && t != Renewer && Pc(s, t) == AckReports(rest)
    ensures Msg(c, Goto(s, t, AckReportsPc(rest)), x)
  {
    Mine(c, s, t, x);
    GotoView(c, s, t, AckReportsPc(rest), x);
    AckReportsGood(c, rest, x, ViewOf(c, s, x), RoleOf(c, OtherPc(s, t), x));
    Back(c, Goto(s, t, AckReportsPc(rest)), t, x);
  }

  lemma AckReportsInv(c: Config, s: State, t: Tid, rest: seq<nat>)
    requires Inv(c, s) && t != Renewer && Pc(s, t) == AckReports(rest)
    ensures Inv(c, Goto(s, t, AckReportsPc(rest)))
  {
    AckReportsFrame(c, s, t, rest);
    forall x: nat | x < c.n ensures Msg(c, Goto(s, t, AckReportsPc(rest)), x) { AckReportsMsg(c, s, t, rest, x); }
  }

  lemma TakeRestFrame(c: Config, s: State, t: Tid)
    requires Frame(c, s) && t != Renewer && Pc(s, t) == In(TakeRest)
    ensures Frame(c, TakeRestStep(c, s, t))
  {
    var pc := HandBackNext(if s.handedBack then c.n else s.next, []);
    if t == Callback {
      assert TakeRestStep(c, s, t) == s.(handedBack := true, callback := pc);
    } else {
      assert TakeRestStep(c, s, t) == s.(handedBack := true, loop := pc);
    }
  }

  function RestFrom(c: Config, s: State): nat { if s.handedBack then c.n else s.next }

  lemma TakeRestView(c: Config, s: State, t: Tid, x: nat)
    requires Shape(c, s) && x < c.n && t != Renewer
    ensures var s', v := TakeRestStep(c, s, t), ViewOf(c, s, x);
            Shape(c, s') && Pc(s', t) == HandBackNext(RestFrom(c, s), []) && OtherPc(s', t) == OtherPc(s, t)
            && ViewOf(c, s', x) == v.(handedBack := true) && (v.before <==> x < s.next) && v.handedBack == s.handedBack
  {
    var s1 := s.(handedBack := true);
    assert ViewOf(c, s1, x) == ViewOf(c, s, x).(handedBack := true);
    GotoView(c, s1, t, HandBackNext(RestFrom(c, s), []), x);
  }

  lemma TakeRestMsg(c: Config, s: State, t: Tid, x: nat)
    requires Shape(c, s) && x < c.n && Msg(c, s, x) && t != Renewer && Pc(s, t) == In(TakeRest)
    requires Shape(c, TakeRestStep(c, s, t))
    ensures Msg(c, TakeRestStep(c, s, t), x)
  {
    var s', v, other := TakeRestStep(c, s, t), ViewOf(c, s, x), RoleOf(c, OtherPc(s, t), x);
    Mine(c, s, t, x);
    TakeRestView(c, s, t, x);
    TakeRestGood(c, RestFrom(c, s), s.next, x, v, other);
    Back(c, s', t, x);
  }

  lemma TakeRestInv(c: Config, s: State, t: Tid)
    requires Inv(c, s) && t != Renewer && Pc(s, t) == In(TakeRest)
    ensures Inv(c, TakeRestStep(c, s, t))
  {
    TakeRestFrame(c, s, t);
    forall x: nat | x < c.n ensures Msg(c, TakeRestStep(c, s, t), x) { TakeRestMsg(c, s, t, x); }
  }

  lemma HandBackNextMoves(c: Config, t: Tid, at: nat, list: seq<nat>)
    requires at <= c.n && NoDup(list) && Below(list, at) && (at < c.n || list != [])
    ensures var pc := HandBackNextPc(c, t, at, list); PcOk(c, pc) && SamePhase(HandBackNext(at, list), pc)
  {
  }

  lemma HandBackNextFrame(c: Config, s: State, t: Tid, at: nat, list: seq<nat>)
    requires Frame(c, s) && t != Renewer && Pc(s, t) == HandBackNext(at, list)
    ensures Frame(c, Goto(s, t, HandBackNextPc(c, t, at, list)))
  {
    if at == c.n && list == [] {
      EndFrame(c, s, t);
    } else {
      HandBackNextMoves(c, t, at, list);
      MoveFrame(c, s, t, HandBackNextPc(c, t, at, list));
    }
  }

  lemma HandBackNextMsg(c: Config, s: State, t: Tid, at: nat, list: seq<nat>, x: nat)
    requires Shape(c, s) && x < c.n && Msg(c, s, x) && t != Renewer && Pc(s, t) == HandBackNext(at, list)
    requires Shape(c, Goto(s, t, HandBackNextPc(c, t, at, list)))
    ensures Msg(c, Goto(s, t, HandBackNextPc(c, t, at, list)), x)
  {
    Mine(c, s, t, x);
    GotoView(c, s, t, HandBackNextPc(c, t, at, list), x);
    HandBackNextGood(c, t, at, list, x, ViewOf(c, s, x), RoleOf(c, OtherPc(s, t), x));
    Back(c, Goto(s, t, HandBackNextPc(c, t, at, list)), t, x);
  }

  lemma HandBackNextInv(c: Config, s: State, t: Tid, at: nat, list: seq<nat>)
    requires Inv(c, s) && t != Renewer && Pc(s, t) == HandBackNext(at, list)
    ensures Inv(c, Goto(s, t, HandBackNextPc(c, t, at, list)))
  {
    HandBackNextFrame(c, s, t, at, list);
    forall x: nat | x < c.n ensures Msg(c, Goto(s, t, HandBackNextPc(c, t, at, list)), x) {
      HandBackNextMsg(c, s, t, at, list, x);
    }
  }

  lemma RefusedBelow(list: seq<nat>, ok: set<nat>, n: nat)
    requires Below(list, n)
    ensures Below(Refused(list, ok), n)
  {
  }

  lemma AnswerFrame(c: Config, s: State, list: seq<nat>, ok: set<nat>, ack: bool)
    requires Frame(c, s)
    ensures Frame(c, Answer(s, list, ok, ack))
  {
  }

  lemma AckedFrame(c: Config, s: State, t: Tid, list: seq<nat>, ok: set<nat>)
    requires Frame(c, s) && t != Renewer && Pc(s, t) == AckSent(list)
    ensures Frame(c, AckedStep(s, t, list, ok))
  {
    RefusedBelow(list, ok, c.n);
    AnswerFrame(c, s, list, ok, true);
    MoveFrame(c, Answer(s, list, ok, true), t, AckReports(Refused(list, ok)));
  }

  lemma AckedView(c: Config, s: State, t: Tid, list: seq<nat>, ok: set<nat>, x: nat)
    requires Shape(c, s) && x < c.n && t != Renewer
    ensures var s' := AckedStep(s, t, list, ok);
            Shape(c, s') && RoleOf(c, Pc(s', t), x) == Absent && OtherPc(s', t) == OtherPc(s, t)
            && ViewOf(c, s', x) == if x in list then Answered(ViewOf(c, s, x), true, x in ok) else ViewOf(c, s, x)
  {
    AnswerView(c, s, list, ok, true, x);
    GotoView(c, Answer(s, list, ok, true), t, AckReports(Refused(list, ok)), x);
  }

  lemma AckedMsg(c: Config, s: State, t: Tid, list: seq<nat>, ok: set<nat>, x: nat)
    requires Shape(c, s) && x < c.n && Msg(c, s, x) && t != Renewer && Pc(s, t) == AckSent(list)
    requires Shape(c, AckedStep(s, t, list, ok))
    ensures Msg(c, AckedStep(s, t, list, ok), x)
  {
    Mine(c, s, t, x);
    AckedView(c, s, t, list, ok, x);
    AnsweredRole(ViewOf(c, s, x), true, list, ok, x, RoleOf(c, OtherPc(s, t), x));
    Back(c, AckedStep(s, t, list, ok), t, x);
  }

  lemma AckedInv(c: Config, s: State, t: Tid, list: seq<nat>, ok: set<nat>)
    requires Inv(c, s) && t != Renewer && Pc(s, t) == AckSent(list)
    ensures Inv(c, AckedStep(s, t, list, ok))
  {
    AckedFrame(c, s, t, list, ok);
    forall x: nat | x < c.n ensures Msg(c, AckedStep(s, t, list, ok), x) { AckedMsg(c, s, t, list, ok, x); }
  }

  /** The callback ends, or the loop goes on to stop the leases. */
  lemma EndFrame(c: Config, s: State, t: Tid)
    requires Frame(c, s) && t != Renewer && (Pc(s, t).NackBatchSent? || Pc(s, t).HandBackNext?)
    ensures Frame(c, Goto(s, t, AfterHandBack(t)))
  {
    if t == Callback {
      assert Goto(s, t, AfterHandBack(t)) == s.(callback := Finished);
    } else {
      assert Goto(s, t, AfterHandBack(t)) == s.(loop := Stop);
    }
  }

  lemma NackedBatchFrame(c: Config, s: State, t: Tid, list: seq<nat>, ok: set<nat>)
    requires Frame(c, s) && t != Renewer && Pc(s, t) == NackBatchSent(list)
    ensures Frame(c, NackedBatchStep(s, t, list, ok))
  {
    AnswerFrame(c, s, list, ok, false);
    EndFrame(c, Answer(s, list, ok, false), t);
  }

  lemma NackedBatchView(c: Config, s: State, t: Tid, list: seq<nat>, ok: set<nat>, x: nat)
    requires Shape(c, s) && x < c.n && t != Renewer
    ensures var s' := NackedBatchStep(s, t, list, ok);
            Shape(c, s') && RoleOf(c, Pc(s', t), x) == Absent && OtherPc(s', t) == OtherPc(s, t)
            && ViewOf(c, s', x) == if x in list then Answered(ViewOf(c, s, x), false, x in ok) else ViewOf(c, s, x)
  {
    AnswerView(c, s, list, ok, false, x);
    GotoView(c, Answer(s, list, ok, false), t, AfterHandBack(t), x);
  }

  lemma NackedBatchMsg(c: Config, s: State, t: Tid, list: seq<nat>, ok: set<nat>, x: nat)
    requires Shape(c, s) && x < c.n && Msg(c, s, x) && t != Renewer && Pc(s, t) == NackBatchSent(list)
    requires Shape(c, NackedBatchStep(s, t, list, ok))
    ensures Msg(c, NackedBatchStep(s, t, list, ok), x)
  {
    Mine(c, s, t, x);
    NackedBatchView(c, s, t, list, ok, x);
    AnsweredRole(ViewOf(c, s, x), false, list, ok, x, RoleOf(c, OtherPc(s, t), x));
    Back(c, NackedBatchStep(s, t, list, ok), t, x);
  }

  lemma NackedBatchInv(c: Config, s: State, t: Tid, list: seq<nat>, ok: set<nat>)
    requires Inv(c, s) && t != Renewer && Pc(s, t) == NackBatchSent(list)
    ensures Inv(c, NackedBatchStep(s, t, list, ok))
  {
    NackedBatchFrame(c, s, t, list, ok);
    forall x: nat | x < c.n ensures Msg(c, NackedBatchStep(s, t, list, ok), x) { NackedBatchMsg(c, s, t, list, ok, x); }
  }
}

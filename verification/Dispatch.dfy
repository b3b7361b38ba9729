/** The dispatch of one message: its handler and the renewer of its lease, as a
    transition system with a step for every shared read, request and reply. */
module Dispatch {
  import opened Common

  /** Whether the message carries a receipt, whether leases are renewed, and whether a
      failed message is handed back at once. */
  datatype Config = Config(leased: bool, autoExtend: bool, requeue: bool)

  datatype Outcome =
    | NoLease | LostWhileRunning | SettledByHandler | Failed(nacked: bool) | AckAnswered(ok: bool)

  /** Where dispatch is: in the handler, in stop, deciding what to do, with a nack or
      an ack on its way, or finished. */
  datatype Main = Handling | Stopping(failed: bool) | Deciding(failed: bool) | Nacking | Acking | Finished

  /** Where the renewer is: between ticks, about to read isSettled, with an extend on
      its way, about to read isSettled and then isSettling after a 410, about to say
      that the lease is gone, or no more. */
  datatype Keeper = NoKeeper | Waiting | Ticked | Extending | Refused | RefusedUnsettled | Marking | Exited

  datatype State = State(
    main: Main, keeper: Keeper,
    stopped: bool,             // k.done is closed
    ended: bool,               // the handler's context has ended
    gone: bool,                // k.gone is closed
    settled: bool, settling: nat,
    // history: whether the handler returned an error, whether the message was settled
    // when it returned, and what became of the message
    failed: bool, atReturn: bool, outs: seq<Outcome>)

  function Init(c: Config): State
  {
    var keeper := if c.autoExtend && c.leased then Waiting else NoKeeper;
    State(Handling, keeper, false, false, false, false, 0, false, false, [])
  }

  datatype Action =
    | Shutdown                     // the caller's context ends
    | MainStep(yes: bool)          // dispatch: yes says that the handler failed, or that the settle succeeded
    | KeeperStep(gone: bool)       // the renewer: gone says that the extend was answered 410
    | Tick                         // its ticker fires
    | UserSettles | UserRecorded | UserReturns   // a handler's own Ack or Nack

  function End(s: State, o: Outcome): State { s.(main := Finished, outs := s.outs + [o]) }

  function Decide(c: Config, s: State, failed: bool): State
  {
    if !c.leased then End(s, NoLease)
    else if !s.settled && !s.keeper.NoKeeper? && s.gone then End(s, LostWhileRunning)
    else if failed then
      if c.requeue && !s.settled then s.(main := Nacking)
      else End(s, if s.settled then SettledByHandler else Failed(false))
    else if s.settled then End(s, SettledByHandler)
    else s.(main := Acking)
  }

  function StepMain(c: Config, s: State, yes: bool): Option<State>
  {
    match s.main
    case Handling =>
      Some(s.(failed := yes, atReturn := s.settled, stopped := s.stopped || !s.keeper.NoKeeper?,
              main := if s.keeper.NoKeeper? then Deciding(yes) else Stopping(yes)))
    case Stopping(failed) => if s.keeper.Exited? then Some(s.(main := Deciding(failed))) else None
    case Deciding(failed) => Some(Decide(c, s, failed))
    case Nacking => Some(End(s, Failed(true)).(settled := s.settled || yes))
    case Acking => Some(End(s, AckAnswered(yes)).(settled := s.settled || yes))
    case Finished => None
  }

  function StepKeeper(s: State, gone: bool): Option<State>
  {
    match s.keeper
    case NoKeeper | Exited => None
    case Waiting => if s.stopped || s.ended then Some(s.(keeper := Exited)) else None
    case Ticked => Some(s.(keeper := if s.settled then Exited else Extending))
    case Extending => Some(s.(keeper := if gone then Refused else Waiting))
    case Refused => Some(s.(keeper := if s.settled then Waiting else RefusedUnsettled))
    case RefusedUnsettled => Some(s.(keeper := if s.settling > 0 then Waiting else Marking))
    case Marking => Some(s.(keeper := Exited, gone := true, ended := true))
  }

  function Apply(c: Config, s: State, a: Action): Option<State>
  {
    match a
    case Shutdown => Some(s.(ended := true))
    case MainStep(yes) => StepMain(c, s, yes)
    case KeeperStep(gone) => StepKeeper(s, gone)
    case Tick => if s.keeper.Waiting? then Some(s.(keeper := Ticked)) else None
    case UserSettles => Some(s.(settling := s.settling + 1))
    case UserRecorded => if s.settling > 0 then Some(s.(settled := true)) else None
    case UserReturns => if s.settling > 0 then Some(s.(settling := s.settling - 1)) else None
  }

  ghost predicate Leads(c: Config, s: State, run: seq<Action>, s': State)
    decreases |run|
  {
    if run == [] then s == s'
    else Apply(c, s, run[0]).Some? && Leads(c, Apply(c, s, run[0]).value, run[1..], s')
  }

  /** What every step keeps. */
  predicate Inv(c: Config, s: State)
  {
    (s.keeper.NoKeeper? <==> !(c.autoExtend && c.leased))
    && (s.gone ==> s.keeper.Exited?)
    && (s.main.Handling? ==> !s.stopped) && (!s.main.Handling? ==> s.stopped || s.keeper.NoKeeper?)
    && (!s.main.Handling? && !s.main.Stopping? ==> s.keeper.Exited? || s.keeper.NoKeeper?)
    && (s.main.Nacking? || s.main.Acking? ==> c.leased && !s.gone)
    && (s.main.Stopping? || s.main.Deciding? ==> s.main.failed == s.failed)
    && (s.main.Nacking? ==> s.failed) && (s.main.Acking? ==> !s.failed)
    && (s.main.Nacking? ==> c.requeue) && (s.main.Nacking? || s.main.Acking? ==> !s.atReturn)
    && (s.main.Stopping? ==> !s.keeper.NoKeeper?)
    && (s.atReturn ==> s.settled)
    && (if s.main.Finished? then |s.outs| == 1 && Fits(c, s, s.outs[0]) else s.outs == [])
  }

  /** The outcome the message must have.  Unless it had no lease or its handler settled
      it, what its handler returned decides: success has it acked, failure has it handed
      back if the consumer wants that, and if its lease is gone it is neither, but
      reported lost. */
  predicate Fits(c: Config, s: State, o: Outcome)
  {
    if !c.leased then o.NoLease?
    else if o.SettledByHandler? then s.settled
    else
      !s.atReturn
      && if s.gone then o.LostWhileRunning?
         else if s.failed then o == Failed(c.requeue)
         else o.AckAnswered? && (o.ok ==> s.settled)
  }

  lemma DecideInv(c: Config, s: State, failed: bool)
    requires Inv(c, s) && s.main == Deciding(failed)
    ensures Inv(c, Decide(c, s, failed))
  {
  }

  lemma MainInv(c: Config, s: State, yes: bool)
    requires Inv(c, s) && StepMain(c, s, yes).Some?
    ensures Inv(c, StepMain(c, s, yes).value)
  {
    if s.main.Deciding? { DecideInv(c, s, s.main.failed); }
  }

  lemma KeeperInv(c: Config, s: State, gone: bool)
    requires Inv(c, s) && StepKeeper(s, gone).Some?
    ensures Inv(c, StepKeeper(s, gone).value)
  {
  }

  lemma StepInv(c: Config, s: State, a: Action)
    requires Inv(c, s) && Apply(c, s, a).Some?
    ensures Inv(c, Apply(c, s, a).value)
  {
    if a.MainStep? {
      MainInv(c, s, a.yes);
    } else if a.KeeperStep? {
      KeeperInv(c, s, a.gone);
    }
  }

  lemma {:induction false} RunInv(c: Config, s: State, run: seq<Action>, s': State)
    requires Inv(c, s) && Leads(c, s, run, s')
    ensures Inv(c, s')
    decreases |run|
  {
    if run != [] {
      StepInv(c, s, run[0]);
      RunInv(c, Apply(c, s, run[0]).value, run[1..], s');
    }
  }

  /** Over every run, dispatch has given the message exactly one outcome when it is
      finished and none before, and it is the one that its history calls for. */
  lemma OneOutcome(c: Config, run: seq<Action>, s: State)
    requires Leads(c, Init(c), run, s)
    ensures if s.main.Finished? then |s.outs| == 1 && Fits(c, s, s.outs[0]) else s.outs == []
  {
    RunInv(c, Init(c), run, s);
  }

  /** When dispatch sends an ack or a nack of its own, the renewer is gone, so no
      renewal meets it, and it has not found the lease lost. */
  lemma SettlesAlone(c: Config, run: seq<Action>, s: State)
    requires Leads(c, Init(c), run, s) && (s.main.Nacking? || s.main.Acking?)
    ensures c.leased && !s.gone && (forall gone :: StepKeeper(s, gone).None?) && !s.keeper.Waiting?
  {
    RunInv(c, Init(c), run, s);
  }

  /** Until it is finished, dispatch or the renewer it waits for can take a step. */
  lemma NeverStuck(c: Config, run: seq<Action>, s: State, yes: bool)
    requires Leads(c, Init(c), run, s) && !s.main.Finished?
    ensures StepMain(c, s, yes).Some? || StepKeeper(s, yes).Some?
  {
    RunInv(c, Init(c), run, s);
  }

  /** The renewer's two reads after a 410 are two steps: a settle that finishes in
      between is seen by neither, and the handler is told to stop although its
      message is settled. */
  lemma RenewalCanCancelASettledHandler(c: Config)
    requires c.leased && c.autoExtend
    ensures exists run, s :: Leads(c, Init(c), run, s) && s.main.Handling? && s.settled && s.gone && s.ended
  {
    var s0 := Init(c);
    var s1 := s0.(keeper := Extending, settling := 1);
    var s2 := s1.(keeper := RefusedUnsettled);
    var s3 := s2.(settled := true);
    var s4 := s3.(settling := 0, keeper := Exited, gone := true, ended := true);
    var run := Before(c, s3.(settling := 0, keeper := Marking), KeeperStep(true), [], s4);
    run := Before(c, s3.(settling := 0), KeeperStep(true), run, s4);
    run := Before(c, s3, UserReturns, run, s4);
    run := Before(c, s2, UserRecorded, run, s4);
    run := Before(c, s1.(keeper := Refused), KeeperStep(true), run, s4);
    run := Before(c, s1, KeeperStep(true), run, s4);
    run := Before(c, s0.(keeper := Extending), UserSettles, run, s4);
    run := Before(c, s0.(keeper := Ticked), KeeperStep(false), run, s4);
    run := Before(c, s0, Tick, run, s4);
  }

  lemma Before(c: Config, s: State, a: Action, rest: seq<Action>, s': State) returns (run: seq<Action>)
    requires Apply(c, s, a).Some? && Leads(c, Apply(c, s, a).value, rest, s')
    ensures Leads(c, s, run, s')
  {
    run := [a] + rest;
    assert run[1..] == rest;
  }

  // ----- when a renewal overrides a settle, exactly -----

  /** The renewer has read, after a 410, that the message is unsettled, and has not yet
      done with it. */
  predicate Judges(k: Keeper) { k.RefusedUnsettled? || k.Marking? }

  /** Step a is the renewer's read that finds the message unsettled, */
  predicate ReadsUnsettled(s: State, a: Action) { a.KeeperStep? && s.keeper.Refused? && !s.settled }

  /** and this one its read that finds no settle in flight. */
  predicate ReadsIdle(s: State, a: Action) { a.KeeperStep? && s.keeper.RefusedUnsettled? && s.settling == 0 }

  /** Dispatch reads that the message is unsettled and reports it lost. */
  predicate DecidesLost(s: State, a: Action) { a.MainStep? && s.main.Deciding? && !s.settled && s.gone }

  /** A run with the states it goes through. */
  ghost predicate Trace(c: Config, run: seq<Action>, states: seq<State>)
  {
    |states| == |run| + 1 && states[0] == Init(c) && forall i: nat :: i < |run| ==> StepAt(c, run, states, i)
  }

  predicate StepAt(c: Config, run: seq<Action>, states: seq<State>, i: nat)
    requires |states| == |run| + 1 && i < |run|
  {
    Apply(c, states[i], run[i]) == Some(states[i + 1])
  }

  lemma {:induction false} TraceInv(c: Config, run: seq<Action>, states: seq<State>, j: nat)
    requires Trace(c, run, states) && j <= |run|
    ensures Inv(c, states[j])
  {
    if j > 0 {
      TraceInv(c, run, states, j - 1);
      assert StepAt(c, run, states, j - 1);
      StepInv(c, states[j - 1], run[j - 1]);
    }
  }

  lemma DecideFrame(c: Config, s: State, failed: bool)
    ensures var s' := Decide(c, s, failed); s'.keeper == s.keeper && s'.gone == s.gone && s'.settled == s.settled
  {
  }

  /** Dispatch itself leaves the renewer and its verdict alone, and unsettles nothing. */
  lemma MainFrame(c: Config, s: State, yes: bool)
    requires StepMain(c, s, yes).Some?
    ensures var s' := StepMain(c, s, yes).value;
            s'.keeper == s.keeper && s'.gone == s.gone && (s.settled ==> s'.settled)
  {
    if s.main.Deciding? { DecideFrame(c, s, s.main.failed); }
  }

  /** What a step means for the message: the renewer comes to judge it only by reading
      that it is unsettled, and to mark it only by reading that no settle is in flight;
      it is reported lost only by such a read of dispatch; and in all three cases only
      its handler settles it from then on. */
  predicate Judged(s: State, a: Action, s': State)
  {
    (Judges(s'.keeper) ==> Judges(s.keeper) || ReadsUnsettled(s, a))
    && (s'.keeper.Marking? ==> s.keeper.Marking? || ReadsIdle(s, a))
    && (Judges(s.keeper) || Lost(s) ==> s'.settled == (s.settled || a == UserRecorded))
    && (ReadsUnsettled(s, a) || DecidesLost(s, a) ==> !s'.settled)
  }

  predicate Lost(s: State) { |s.outs| == 1 && s.outs[0].LostWhileRunning? }

  predicate Reported(s: State, a: Action, s': State) { Lost(s') ==> Lost(s) || DecidesLost(s, a) }

  lemma DecideReports(c: Config, s: State, failed: bool)
    requires s.outs == []
    ensures Lost(Decide(c, s, failed)) ==> !s.settled && s.gone
  {
  }

  lemma StepReports(c: Config, s: State, a: Action)
    requires Inv(c, s) && Apply(c, s, a).Some?
    ensures Reported(s, a, Apply(c, s, a).value)
  {
    if a.MainStep? {
      if s.main.Deciding? { DecideReports(c, s, s.main.failed); }
    } else if a.KeeperStep? {
      assert StepKeeper(s, a.gone).Some?;
    }
  }

  lemma MainJudges(c: Config, s: State, yes: bool)
    requires Inv(c, s) && StepMain(c, s, yes).Some?
    ensures Judged(s, MainStep(yes), StepMain(c, s, yes).value)
  {
    MainFrame(c, s, yes);
    if s.main.Deciding? { DecideFrame(c, s, s.main.failed); }
  }

  lemma StepJudges(c: Config, s: State, a: Action)
    requires Inv(c, s) && Apply(c, s, a).Some?
    ensures Judged(s, a, Apply(c, s, a).value)
  {
    if a.MainStep? {
      MainJudges(c, s, a.yes);
    } else if a.KeeperStep? {
      assert StepKeeper(s, a.gone).Some?;
    }
  }

  predicate JudgedAt(run: seq<Action>, states: seq<State>, i: nat)
    requires |states| == |run| + 1 && i < |run|
  {
    Judged(states[i], run[i], states[i + 1]) && Reported(states[i], run[i], states[i + 1])
  }

  ghost predicate JudgedThroughout(run: seq<Action>, states: seq<State>)
  {
    |states| == |run| + 1 && !Judges(states[0].keeper) && !Lost(states[0])
    && forall i: nat :: i < |run| ==> JudgedAt(run, states, i)
  }

  lemma TraceJudged(c: Config, run: seq<Action>, states: seq<State>)
    requires Trace(c, run, states)
    ensures JudgedThroughout(run, states)
  {
    forall i: nat | i < |run| ensures JudgedAt(run, states, i) {
      TraceInv(c, run, states, i);
      assert StepAt(c, run, states, i);
      StepJudges(c, states[i], run[i]);
      StepReports(c, states[i], run[i]);
    }
  }

  /** At step k the renewer reads that the message is unsettled, and up to step j it has
      not done with it. */
  predicate ReadAt(run: seq<Action>, states: seq<State>, k: nat, j: nat)
    requires |states| == |run| + 1 && j <= |run|
  {
    k < j && ReadsUnsettled(states[k], run[k]) && forall i :: k < i <= j ==> Judges(states[i].keeper)
  }

  lemma {:induction false} EveryJudgementReads(run: seq<Action>, states: seq<State>, j: nat) returns (k: nat)
    requires JudgedThroughout(run, states) && j <= |run| && Judges(states[j].keeper)
    ensures ReadAt(run, states, k, j)
  {
    assert JudgedAt(run, states, j - 1);
    if Judges(states[j - 1].keeper) {
      k := EveryJudgementReads(run, states, j - 1);
    } else {
      k := j - 1;
    }
  }

  lemma {:induction false} SettledSince(run: seq<Action>, states: seq<State>, k: nat, j: nat)
    requires JudgedThroughout(run, states) && j <= |run| && ReadAt(run, states, k, j)
    ensures states[j].settled <==> UserRecorded in run[k + 1..j]
  {
    assert JudgedAt(run, states, j - 1);
    if j > k + 1 {
      SettledSince(run, states, k, j - 1);
      assert run[k + 1..j] == run[k + 1..j - 1] + [run[j - 1]];
    }
  }

  /** In every run, when step j says that the lease is gone, the renewer has read the
      message unsettled at some step k before, and the message is settled by now if and
      only if a settle of its handler's own has been recorded since. */
  lemma MarksSettledExactlyWhenRecordedSince(c: Config, run: seq<Action>, states: seq<State>, j: nat) returns (k: nat)
    requires Trace(c, run, states) && j < |run| && !states[j].gone && states[j + 1].gone
    ensures ReadAt(run, states, k, j)
    ensures states[j + 1].settled <==> UserRecorded in run[k + 1..j]
  {
    assert StepAt(c, run, states, j);
    OnlyTheRenewerMarks(c, states[j], run[j]);
    TraceJudged(c, run, states);
    k := EveryJudgementReads(run, states, j);
    SettledSince(run, states, k, j);
  }

  lemma OnlyTheRenewerMarks(c: Config, s: State, a: Action)
    requires Apply(c, s, a).Some? && !s.gone && Apply(c, s, a).value.gone
    ensures s.keeper.Marking? && Apply(c, s, a).value.settled == s.settled
  {
    if a.MainStep? {
      MainFrame(c, s, a.yes);
    } else if a.KeeperStep? {
      assert StepKeeper(s, a.gone).Some?;
    }
  }

  lemma StepSpares(c: Config, s: State, a: Action)
    requires s.settled && !Judges(s.keeper) && Apply(c, s, a).Some?
    ensures var s' := Apply(c, s, a).value; s'.settled && s'.gone == s.gone && !Judges(s'.keeper)
  {
    if a.MainStep? {
      MainFrame(c, s, a.yes);
    } else if a.KeeperStep? {
      assert StepKeeper(s, a.gone).Some?;
    }
  }

  /** A settle recorded before that read is never overridden: unless the renewer is past
      the read already, it never says that the lease of a settled message is gone. */
  lemma {:induction false} SettledIsSpared(c: Config, s: State, run: seq<Action>, s': State)
    requires s.settled && !Judges(s.keeper) && Leads(c, s, run, s')
    ensures s'.settled && s'.gone == s.gone
    decreases |run|
  {
    if run != [] {
      StepSpares(c, s, run[0]);
      SettledIsSpared(c, Apply(c, s, run[0]).value, run[1..], s');
    }
  }

  /** Nor is one in flight at the second read: in every run, when step j says that the
      lease is gone, the renewer has found no settle in flight at some step m before, and
      has read nothing since. */
  lemma SettlingIsSpared(c: Config, run: seq<Action>, states: seq<State>, j: nat) returns (m: nat)
    requires Trace(c, run, states) && j < |run| && !states[j].gone && states[j + 1].gone
    ensures m < j && ReadsIdle(states[m], run[m]) && forall i :: m < i <= j ==> states[i].keeper.Marking?
  {
    assert StepAt(c, run, states, j);
    OnlyTheRenewerMarks(c, states[j], run[j]);
    TraceJudged(c, run, states);
    m := EveryMarkReads(run, states, j);
  }

  lemma {:induction false} EveryMarkReads(run: seq<Action>, states: seq<State>, j: nat) returns (m: nat)
    requires JudgedThroughout(run, states) && j <= |run| && states[j].keeper.Marking?
    ensures m < j && ReadsIdle(states[m], run[m]) && forall i :: m < i <= j ==> states[i].keeper.Marking?
  {
    assert JudgedAt(run, states, j - 1);
    m := j - 1;
    if states[j - 1].keeper.Marking? { m := EveryMarkReads(run, states, j - 1); }
  }

  /** In every run, a message that has been reported lost was unsettled when dispatch
      decided so, at some step r, and is settled by now if and only if a settle of its
      handler's own has been recorded since. */
  lemma LostButSettledExactlyWhenRecordedSince(c: Config, run: seq<Action>, states: seq<State>, j: nat)
    returns (r: nat)
    requires Trace(c, run, states) && j <= |run| && Lost(states[j])
    ensures r < j && DecidesLost(states[r], run[r])
    ensures states[j].settled <==> UserRecorded in run[r + 1..j]
  {
    TraceJudged(c, run, states);
    r := LostSince(run, states, j);
  }

  lemma {:induction false} LostSince(run: seq<Action>, states: seq<State>, j: nat) returns (r: nat)
    requires JudgedThroughout(run, states) && j <= |run| && Lost(states[j])
    ensures r < j && DecidesLost(states[r], run[r])
    ensures states[j].settled <==> UserRecorded in run[r + 1..j]
  {
    assert JudgedAt(run, states, j - 1);
    r := j - 1;
    if Lost(states[j - 1]) {
      r := LostSince(run, states, j - 1);
      assert run[r + 1..j] == run[r + 1..j - 1] + [run[j - 1]];
    }
  }

  // ----- renewals go on -----

  /** The renewer leaves only once it has been stopped, its context has ended, or the
      message is settled or its lease gone. */
  predicate Leaves(s: State, s': State)
  {
    (s'.keeper.Exited? ==> s.keeper.Exited? || Done(s')) && (Done(s) ==> Done(s'))
    && (s'.keeper.NoKeeper? <==> s.keeper.NoKeeper?)
  }

  predicate Done(s: State) { s.stopped || s.ended || s.settled || s.gone }

  lemma DecideLeaves(c: Config, s: State, failed: bool)
    ensures var s' := Decide(c, s, failed); s'.stopped == s.stopped && s'.ended == s.ended
  {
  }

  lemma StepLeaves(c: Config, s: State, a: Action)
    requires Apply(c, s, a).Some?
    ensures Leaves(s, Apply(c, s, a).value)
  {
    if a.MainStep? {
      MainFrame(c, s, a.yes);
      if s.main.Deciding? { DecideLeaves(c, s, s.main.failed); }
    } else if a.KeeperStep? {
      assert StepKeeper(s, a.gone).Some?;
    }
  }

  /** In every run there is a renewer exactly for a leased message whose lease is to be
      renewed, and it goes on until then. */
  lemma {:induction false} RenewsUntilDone(c: Config, run: seq<Action>, states: seq<State>, j: nat)
    requires Trace(c, run, states) && j <= |run|
    ensures states[j].keeper.NoKeeper? <==> !(c.autoExtend && c.leased)
    ensures states[j].keeper.Exited? ==> Done(states[j])
  {
    if j > 0 {
      RenewsUntilDone(c, run, states, j - 1);
      assert StepAt(c, run, states, j - 1);
      StepLeaves(c, states[j - 1], run[j - 1]);
    }
  }

  /** Step e brings the 410 to a renewal. */
  predicate Answered410(s: State, a: Action) { s.keeper.Extending? && a == KeeperStep(true) }

  /** Step a is a read that excuses it: the message is settled, or being settled. */
  predicate Excuses(s: State, a: Action)
  {
    a.KeeperStep? && if s.keeper.Refused? then s.settled else s.keeper.RefusedUnsettled? && s.settling > 0
  }

  predicate Sifts(k: Keeper) { k.Refused? || k.RefusedUnsettled? || k.Marking? }

  lemma StepSifts(c: Config, s: State, a: Action)
    requires Apply(c, s, a).Some? && Sifts(s.keeper)
    ensures var s' := Apply(c, s, a).value; Sifts(s'.keeper) || s'.gone || Excuses(s, a)
  {
    if a.MainStep? {
      MainFrame(c, s, a.yes);
    } else if a.KeeperStep? {
      assert StepKeeper(s, a.gone).Some?;
    }
  }

  lemma StepStaysGone(c: Config, s: State, a: Action)
    requires Apply(c, s, a).Some? && s.gone
    ensures Apply(c, s, a).value.gone
  {
    if a.MainStep? {
      MainFrame(c, s, a.yes);
    } else if a.KeeperStep? {
      assert StepKeeper(s, a.gone).Some?;
    }
  }

  /** In every run, a renewal that is answered 410 ends with the lease found gone, unless
      the renewer has read since that the message is settled or being settled. */
  lemma {:induction false} Every410IsJudged(c: Config, run: seq<Action>, states: seq<State>, e: nat, j: nat)
    requires Trace(c, run, states) && e < j <= |run| && Answered410(states[e], run[e])
    ensures Sifts(states[j].keeper) || states[j].gone || exists i :: e < i < j && Excuses(states[i], run[i])
  {
    assert StepAt(c, run, states, j - 1);
    if j > e + 1 {
      Every410IsJudged(c, run, states, e, j - 1);
      if states[j - 1].gone {
        StepStaysGone(c, states[j - 1], run[j - 1]);
      } else if Sifts(states[j - 1].keeper) {
        StepSifts(c, states[j - 1], run[j - 1]);
      }
    }
  }

  /** In every run a renewal is sent only for a message that is not settled when the
      renewer's ticker has fired. */
  lemma RenewsOnlyTheUnsettled(c: Config, s: State, a: Action)
    requires Apply(c, s, a).Some? && !s.keeper.Extending? && Apply(c, s, a).value.keeper.Extending?
    ensures a.KeeperStep? && s.keeper.Ticked? && !s.settled
  {
    if a.MainStep? {
      MainFrame(c, s, a.yes);
    } else if a.KeeperStep? {
      assert StepKeeper(s, a.gone).Some?;
    }
  }

  /** Between renewals a tick is always taken, and then an unsettled message is renewed. */
  lemma EveryTickRenews(c: Config, s: State, gone: bool)
    ensures s.keeper.Waiting? ==> Apply(c, s, Tick) == Some(s.(keeper := Ticked))
    ensures s.keeper.Ticked? && !s.settled ==> Apply(c, s, KeeperStep(gone)) == Some(s.(keeper := Extending))
    ensures s.keeper.Extending? && !gone ==> Apply(c, s, KeeperStep(gone)) == Some(s.(keeper := Waiting))
  {
  }
}

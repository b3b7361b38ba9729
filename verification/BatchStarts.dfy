/** What a batch goes through: which handlers run, exactly those whose lease had not been
    lost when the loop looked, and how long leases are renewed. */
module BatchStarts {
  import opened Common
  import opened BatchDispatch
  import opened BatchInvariant
  import opened BatchSteps
  import opened BatchTheorems
  import opened BatchRenewals
  import opened BatchReports

  /** In every reachable state, a step that starts the handler of a message does so on a
      lease that has not been found gone, and that is still being renewed if there is one. */
  lemma StartsOnlyOnALease(c: Config, s: State, a: Action, s': State, x: nat)
    requires Inv(c, s) && x < c.n && IsNext(c, s, a, s') && Shape(c, s')
    requires !s.started[x] && s'.started[x]
    ensures !s.gone[x] && (c.leased[x] ==> s.held[x]) && s'.loop == Running(x)
  {
    StepTells(c, s, a, s', x);
    assert Msg(c, s, x);
  }

  // ----- every message the loop takes is looked at -----

  predicate AboutToLook(pc: PC, x: nat) { pc == Want(LookLost(x)) || pc == In(LookLost(x)) }

  /** The loop takes the messages one after the other, and looks at each. */
  ghost predicate Takes(s: State, a: Action, s': State)
  {
    s'.next >= s.next
    && (forall x: nat :: s.next <= x < s'.next ==> AboutToLook(s'.loop, x))
    && (forall x: nat :: AboutToLook(s.loop, x) && !Looks(s, a, x) ==> AboutToLook(s'.loop, x))
  }

  predicate SameLoop(s: State, s': State) { s'.loop == s.loop && s'.next == s.next }

  lemma EnvironmentLeavesLoop(c: Config, s: State, a: Action)
    requires Typed(c, s) && !a.Step? && Apply(c, s, a).Some?
    ensures SameLoop(s, Apply(c, s, a).value)
  {
  }

  lemma RenewerLeavesLoop(c: Config, s: State, ch: Choice)
    requires Typed(c, s) && StepRenewer(c, s, ch).Some?
    ensures SameLoop(s, StepRenewer(c, s, ch).value)
  {
  }

  /** Outside the section that takes the next message, next stays. */
  lemma NextStays(c: Config, s: State, t: Tid, ch: Choice)
    requires Shape(c, s) && PcOk(c, Pc(s, t)) && StepPc(c, s, t, ch).Some? && ItsOwn(s, t)
    requires !(Pc(s, t).In? && Pc(s, t).sec.Start?)
    ensures StepPc(c, s, t, ch).value.next == s.next
  {
  }

  lemma CallbackLeavesLoop(c: Config, s: State, ch: Choice)
    requires Typed(c, s) && ItsOwn(s, Callback) && StepPc(c, s, Callback, ch).Some?
    ensures SameLoop(s, StepPc(c, s, Callback, ch).value)
  {
    NextStays(c, s, Callback, ch);
  }

  lemma LoopTakes(c: Config, s: State, ch: Choice)
    requires Typed(c, s) && Control(c, s) && StepPc(c, s, Loop, ch).Some?
    ensures Takes(s, Step(Loop, ch), StepPc(c, s, Loop, ch).value)
  {
    if s.loop.In? && s.loop.sec.Start? {
      assert s.loop.sec.i == s.next;
    } else {
      NextStays(c, s, Loop, ch);
    }
  }

  lemma StepTakes(c: Config, s: State, a: Action, s': State)
    requires Inv(c, s) && IsNext(c, s, a, s')
    ensures Takes(s, a, s')
  {
    if !a.Step? {
      EnvironmentLeavesLoop(c, s, a);
    } else if a.t == Renewer {
      RenewerLeavesLoop(c, s, a.choice);
    } else if a.t == Callback {
      CallbackLeavesLoop(c, s, a.choice);
    } else {
      LoopTakes(c, s, a.choice);
    }
  }

  ghost predicate TakesAt(run: seq<Action>, states: seq<State>, i: nat)
    requires |states| == |run| + 1 && i < |run|
  {
    Takes(states[i], run[i], states[i + 1])
  }

  /** What a run keeps to about leases and the loop. */
  ghost predicate LooksThroughout(c: Config, run: seq<Action>, states: seq<State>, x: nat)
  {
    |states| == |run| + 1 && states[0].next == 0 && ToldThroughout(c, run, states, x)
    && (forall i: nat :: i < |run| ==> TakesAt(run, states, i))
    && forall i: nat :: i < |run| ==> StaysGone(states, i, x)
  }

  predicate StaysGone(states: seq<State>, i: nat, x: nat)
    requires i + 1 < |states|
  {
    x < |states[i].gone| && x < |states[i + 1].gone| && (states[i].gone[x] ==> states[i + 1].gone[x])
  }

  lemma TraceLooks(c: Config, run: seq<Action>, states: seq<State>, x: nat)
    requires ConfigOk(c) && Trace(c, run, states) && x < c.n
    ensures LooksThroughout(c, run, states, x)
  {
    TraceTold(c, run, states, x);
    forall i: nat | i < |run| ensures TakesAt(run, states, i) && StaysGone(states, i, x) {
      TraceInv(c, run, states, i);
      assert StepAt(c, run, states, i);
      StepTakes(c, states[i], run[i], states[i + 1]);
      OnlyTheRenewerMarks(c, states[i], run[i], states[i + 1], x);
    }
  }

  lemma {:induction false} TakenIsLookedAt(c: Config, run: seq<Action>, states: seq<State>, j: nat, x: nat)
    returns (r: nat)
    requires LooksThroughout(c, run, states, x) && j <= |run|
    requires x < states[j].next && !AboutToLook(states[j].loop, x)
    ensures r < j && Looks(states[r], run[r], x)
  {
    assert TakesAt(run, states, j - 1);
    r := j - 1;
    if !Looks(states[j - 1], run[j - 1], x) {
      r := TakenIsLookedAt(c, run, states, j - 1, x);
    }
  }

  /** A handler that was started stays so, and one whose lease was gone at the look is
      never started. */
  lemma {:induction false} LookDecides(c: Config, run: seq<Action>, states: seq<State>, r: nat, j: nat, x: nat)
    requires LooksThroughout(c, run, states, x) && r < j <= |run| && Looks(states[r], run[r], x)
    requires Sized(c, states[r], x) && !states[r].started[x]
    ensures Sized(c, states[j], x) && (states[j].started[x] <==> !states[r].gone[x])
    ensures states[r].gone[x] ==> states[j].gone[x]
  {
    assert ToldAt(c, run, states, j - 1, x) && StaysGone(states, j - 1, x);
    if j > r + 1 { LookDecides(c, run, states, r, j - 1, x); }
  }

  /** Over every finished run, the loop looked at the lease of each message it took, at
      some step r.  The handler was started if and only if that lease was not gone at
      that step, and otherwise the message was reported lost before it was started. */
  lemma StartedExactlyWhenNotGone(c: Config, run: seq<Action>, states: seq<State>, x: nat) returns (r: nat)
    requires ConfigOk(c) && Trace(c, run, states) && states[|run|].loop.Finished?
    requires x < c.n && x < states[|run|].next
    ensures r < |run| && Looks(states[r], run[r], x)
    ensures Sized(c, states[r], x) && Sized(c, states[|run|], x)
    ensures states[|run|].started[x] <==> !states[r].gone[x]
    ensures states[|run|].outs[x] == [LostBeforeStart] <==> states[r].gone[x]
  {
    TraceLooks(c, run, states, x);
    r := TakenIsLookedAt(c, run, states, |run|, x);
    TraceInv(c, run, states, r);
    assert Msg(c, states[r], x);
    LookDecides(c, run, states, r, |run|, x);
    TraceInv(c, run, states, |run|);
    FinishedFits(c, states[|run|], x);
  }

  lemma FinishedFits(c: Config, s: State, x: nat)
    requires Inv(c, s) && s.loop.Finished? && x < c.n && x < s.next
    ensures |s.outs[x]| == 1 && (s.outs[x] == [LostBeforeStart] <==> !s.started[x])
  {
    assert Msg(c, s, x);
    assert RoleOf(c, s.loop, x) == Absent && RoleOf(c, s.callback, x) == Absent;
    assert s.outs[x] == [s.outs[x][0]];
  }

  // ----- shutdown -----

  lemma TakesUnlessStopping(c: Config, s: State, ch: Choice)
    requires Typed(c, s) && Control(c, s) && StepPc(c, s, Loop, ch).Some?
    ensures var s' := StepPc(c, s, Loop, ch).value;
            s'.next == if s.loop.In? && s.loop.sec.Start? && !s.shutdown && !s.handedBack then s.next + 1 else s.next
  {
    if !(s.loop.In? && s.loop.sec.Start?) { NextStays(c, s, Loop, ch); }
  }

  /** In every reachable state, a step takes the next message exactly if it is the loop's
      at the place where it decides so and neither has shutdown begun nor has what is left
      been handed back. */
  lemma TakesExactlyUntilShutdown(c: Config, s: State, a: Action, s': State)
    requires Inv(c, s) && IsNext(c, s, a, s')
    ensures s'.next == if a.Step? && a.t == Loop && s.loop == In(Start(s.next)) && !s.shutdown && !s.handedBack
                       then s.next + 1 else s.next
  {
    if !a.Step? {
      EnvironmentLeavesLoop(c, s, a);
    } else if a.t == Renewer {
      RenewerLeavesLoop(c, s, a.choice);
    } else if a.t == Callback {
      CallbackLeavesLoop(c, s, a.choice);
    } else {
      TakesUnlessStopping(c, s, a.choice);
    }
  }

  // ----- the renewer does not leave early -----

  predicate Over(s: State) { s.shutdown || s.loop.StopWait? || s.loop.Finished? }

  predicate Leaves(s: State, s': State)
  {
    (s'.ren.Exited? ==> s.ren.Exited? || Over(s)) && (Over(s) ==> Over(s'))
  }

  lemma ThreadKeepsShutdown(c: Config, s: State, t: Tid, ch: Choice)
    requires Shape(c, s) && PcOk(c, Pc(s, t)) && StepPc(c, s, t, ch).Some? && ItsOwn(s, t)
    ensures StepPc(c, s, t, ch).value.shutdown == s.shutdown
  {
  }

  lemma RenewerLeaves(c: Config, s: State, ch: Choice)
    requires Typed(c, s) && StepRenewer(c, s, ch).Some?
    ensures Leaves(s, StepRenewer(c, s, ch).value)
  {
  }

  lemma EnvironmentLeaves(c: Config, s: State, a: Action)
    requires Typed(c, s) && !a.Step? && Apply(c, s, a).Some?
    ensures Leaves(s, Apply(c, s, a).value)
  {
  }

  lemma LoopEnds(c: Config, s: State, ch: Choice)
    requires Typed(c, s) && StepPc(c, s, Loop, ch).Some? && s.loop.StopWait?
    ensures StepPc(c, s, Loop, ch).value.loop.Finished?
  {
  }

  lemma StepLeaves(c: Config, s: State, a: Action, s': State)
    requires Inv(c, s) && IsNext(c, s, a, s')
    ensures Leaves(s, s')
  {
    if !a.Step? {
      EnvironmentLeaves(c, s, a);
    } else if a.t == Renewer {
      RenewerLeaves(c, s, a.choice);
    } else {
      RenewerStays(c, s, a.t, a.choice);
      ThreadKeepsShutdown(c, s, a.t, a.choice);
      if a.t == Callback {
        CallbackLeavesLoop(c, s, a.choice);
      } else if s.loop.StopWait? {
        LoopEnds(c, s, a.choice);
      }
    }
  }

  /** In every run, the renewer is there until shutdown begins or the batch is over, so
      every tick until then starts a round. */
  lemma {:induction false} RenewsUntilTheEnd(c: Config, run: seq<Action>, states: seq<State>, j: nat)
    requires ConfigOk(c) && Trace(c, run, states) && j <= |run| && states[j].ren.Exited?
    ensures states[j].shutdown || states[j].loop.StopWait? || states[j].loop.Finished?
  {
    if j > 0 {
      TraceInv(c, run, states, j - 1);
      assert StepAt(c, run, states, j - 1);
      StepLeaves(c, states[j - 1], run[j - 1], states[j]);
      if states[j - 1].ren.Exited? { RenewsUntilTheEnd(c, run, states, j - 1); }
    }
  }

  // ----- every tick renews -----

  /** A round has begun and is still making up its list. */
  predicate Gathers(r: RPC) { r.WantRound? || r.InRound? || r.Collect? }

  /** The list goes out as one request, unless there is nothing to ask for. */
  predicate Sends(s: State, s': State)
  {
    Gathers(s.ren) ==>
      Gathers(s'.ren)
      || (s.ren.Collect? && s.ren.at == |s.held|
          && s'.ren == if Carry(s.ren) == [] then LeaveRound([]) else ExtendSent(Carry(s.ren)))
  }

  lemma RenewerSends(c: Config, s: State, ch: Choice)
    requires Typed(c, s) && StepRenewer(c, s, ch).Some?
    ensures Sends(s, StepRenewer(c, s, ch).value)
  {
  }

  lemma StepSends(c: Config, s: State, a: Action, s': State)
    requires Inv(c, s) && IsNext(c, s, a, s')
    ensures Sends(s, s')
  {
    if !a.Step? {
      EnvironmentLeavesRound(c, s, a);
    } else if a.t == Renewer {
      RenewerSends(c, s, a.choice);
    } else {
      RenewerStays(c, s, a.t, a.choice);
    }
  }

  lemma EnvironmentLeavesRound(c: Config, s: State, a: Action)
    requires Typed(c, s) && !a.Step? && Apply(c, s, a).Some?
    ensures Gathers(s.ren) ==> Apply(c, s, a).value.ren == s.ren
  {
  }

  /** The renewal of message x has been asked for since step e. */
  ghost predicate AskedFor(states: seq<State>, e: nat, j: nat, x: nat)
    requires j < |states|
  {
    exists i :: e < i <= j && states[i].ren.ExtendSent? && x in states[i].ren.carry
  }

  /** In every state in which the renewer waits for its ticker, a tick starts a round. */
  lemma TickStartsARound(c: Config, s: State) returns (s': State)
    requires Inv(c, s) && s.ren.Waiting?
    ensures IsNext(c, s, Tick, s') && s'.ren.WantRound?
  {
    s' := s.(ren := WantRound);
  }

  /** And over every run, a round that a tick has started at step e asks for the renewal of
      every message that is held and unsettled until the round is over. */
  lemma {:induction false} EveryRoundAsks(c: Config, run: seq<Action>, states: seq<State>, e: nat, j: nat, x: nat)
    requires ConfigOk(c) && Trace(c, run, states) && e < j <= |run| && run[e] == Tick && x < c.n
    requires forall i: nat :: e < i <= j ==> HeldAt(states, i, x)
    ensures Gathers(states[j].ren) || AskedFor(states, e, j, x)
    decreases j
  {
    TraceInv(c, run, states, j - 1);
    assert StepAt(c, run, states, j - 1);
    StepSends(c, states[j - 1], run[j - 1], states[j]);
    if j > e + 1 {
      EveryRoundAsks(c, run, states, e, j - 1, x);
      assert HeldAt(states, j - 1, x) && Msg(c, states[j - 1], x);
      if AskedFor(states, e, j - 1, x) {
        assert AskedFor(states, e, j, x);
      } else {
        GathersAll(c, states[j - 1], states[j], x);
      }
    } else {
      TickGathers(c, states[e], states[j]);
    }
  }

  predicate HeldAt(states: seq<State>, i: nat, x: nat)
    requires i < |states|
  {
    x < |states[i].held| == |states[i].settled| && states[i].held[x] && !states[i].settled[x]
  }

  lemma TickGathers(c: Config, s: State, s': State)
    requires IsNext(c, s, Tick, s')
    ensures s'.ren.WantRound?
  {
  }

  lemma GathersAll(c: Config, s: State, s': State, x: nat)
    requires Typed(c, s) && x < c.n && Msg(c, s, x) && Gathers(s.ren) && Sends(s, s') && s.held[x] && !s.settled[x]
    ensures Gathers(s'.ren) || (s'.ren.ExtendSent? && x in s'.ren.carry)
  {
  }
}

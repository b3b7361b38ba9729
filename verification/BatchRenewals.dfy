/** When a renewal marks a lease gone, exactly.  After a 410 the renewer reads whether
    the message is settled and then whether it is being settled. */
module BatchRenewals {
  import opened Common
  import opened BatchDispatch
  import opened BatchInvariant
  import opened BatchSteps
  import opened BatchTheorems

  /** The renewer has read that message x is unsettled and has not yet done with it. */
  predicate Judges(r: RPC, x: nat) { (r.JudgeSettling? || r.Mark? || r.InMark?) && r.todo != [] && r.todo[0] == x }

  /** Step a is the renewer's read that finds message x, answered 410, unsettled. */
  predicate ReadsUnsettled(s: State, a: Action, x: nat)
  {
    a.Step? && a.t == Renewer && s.ren.Judge? && s.ren.todo != [] && s.ren.todo[0] == x && x in s.ren.lost
    && x < |s.settled| && !s.settled[x]
  }

  /** It has read besides that no settle of message x is in flight. */
  predicate Marks(r: RPC, x: nat) { (r.Mark? || r.InMark?) && r.todo != [] && r.todo[0] == x }

  /** Step a is that read. */
  predicate ReadsIdle(s: State, a: Action, x: nat)
  {
    a.Step? && a.t == Renewer && s.ren.JudgeSettling? && s.ren.todo != [] && s.ren.todo[0] == x
    && x < |s.settling| && s.settling[x] == 0
  }

  /** A run with the states it goes through. */
  ghost predicate Trace(c: Config, run: seq<Action>, states: seq<State>)
    requires ConfigOk(c)
  {
    |states| == |run| + 1 && states[0] == Init(c) && forall i: nat :: i < |run| ==> StepAt(c, run, states, i)
  }

  ghost predicate StepAt(c: Config, run: seq<Action>, states: seq<State>, i: nat)
    requires |states| == |run| + 1 && i < |run|
  {
    IsNext(c, states[i], run[i], states[i + 1])
  }

  /** The renewer has read that message x is unsettled at step k and has not done with
      it before step j. */
  predicate ReadAt(run: seq<Action>, states: seq<State>, k: nat, j: nat, x: nat)
    requires |states| == |run| + 1 && j <= |run|
  {
    k < j && ReadsUnsettled(states[k], run[k], x) && forall i :: k < i <= j ==> Judges(states[i].ren, x)
  }

  // ----- who settles a message that a round carries -----

  predicate Answers(pc: PC) { pc.NackSent? || pc.AckSent? || pc.NackBatchSent? }

  lemma InKeepsSettled(c: Config, s: State, t: Tid, sec: Section)
    requires Shape(c, s) && SectionOk(c, sec) && InStep(c, s, t, sec).Some?
    ensures InStep(c, s, t, sec).value.settled == s.settled
  {
  }

  lemma OthersKeepSettled(c: Config, s: State, t: Tid, ch: Choice)
    requires Shape(c, s) && PcOk(c, Pc(s, t)) && StepPc(c, s, t, ch).Some? && !Pc(s, t).In? && !Answers(Pc(s, t))
    ensures StepPc(c, s, t, ch).value.settled == s.settled
  {
  }

  lemma AnswersSettle(c: Config, s: State, t: Tid, ch: Choice, x: nat)
    requires Shape(c, s) && PcOk(c, Pc(s, t)) && x < c.n && Answers(Pc(s, t)) && !Sends(Pc(s, t), x)
    ensures var s' := StepPc(c, s, t, ch).value; |s'.settled| == c.n && s'.settled[x] == s.settled[x]
  {
  }

  lemma ThreadSettles(c: Config, s: State, t: Tid, ch: Choice, x: nat)
    requires Typed(c, s) && t != Renewer && x < c.n && StepPc(c, s, t, ch).Some? && !Sends(Pc(s, t), x)
    ensures var s' := StepPc(c, s, t, ch).value; |s'.settled| == c.n && s'.settled[x] == s.settled[x]
  {
    if Pc(s, t).In? {
      InKeepsSettled(c, s, t, Pc(s, t).sec);
    } else if Answers(Pc(s, t)) {
      AnswersSettle(c, s, t, ch, x);
    } else {
      OthersKeepSettled(c, s, t, ch);
    }
  }

  /** A message that a round carries is not being settled by the dispatcher. */
  lemma CarriedNotSent(c: Config, s: State, t: Tid, x: nat)
    requires Typed(c, s) && x < c.n && Msg(c, s, x) && t != Renewer && x in Carry(s.ren)
    ensures !Sends(Pc(s, t), x)
  {
  }

  lemma RenewerKeepsSettled(c: Config, s: State, ch: Choice)
    requires Typed(c, s) && StepRenewer(c, s, ch).Some?
    ensures StepRenewer(c, s, ch).value.settled == s.settled
  {
  }

  lemma HandlerSettles(c: Config, s: State, a: Action, x: nat)
    requires Typed(c, s) && x < c.n && !a.Step? && Apply(c, s, a).Some?
    ensures var s' := Apply(c, s, a).value;
            |s'.settled| == c.n && s'.settled[x] == (s.settled[x] || a == UserRecorded(x))
  {
  }

  /** While a round carries a message, only a settle of its handler's own settles it. */
  lemma OnlyTheHandlerSettles(c: Config, s: State, a: Action, s': State, x: nat)
    requires Inv(c, s) && x < c.n && IsNext(c, s, a, s') && x in Carry(s.ren)
    ensures |s'.settled| == c.n && s'.settled[x] == (s.settled[x] || a == UserRecorded(x))
  {
    if !a.Step? {
      HandlerSettles(c, s, a, x);
    } else if a.t == Renewer {
      RenewerKeepsSettled(c, s, a.choice);
    } else {
      assert Msg(c, s, x);
      CarriedNotSent(c, s, a.t, x);
      ThreadSettles(c, s, a.t, a.choice, x);
    }
  }

  lemma JudgedIsCarried(c: Config, s: State, x: nat)
    requires Typed(c, s) && Judges(s.ren, x)
    ensures x < c.n && x in Carry(s.ren)
  {
    assert s.ren.todo[0] in s.ren.todo;
  }

  lemma SettledByStep(c: Config, s: State, a: Action, s': State, x: nat)
    requires Inv(c, s) && x < c.n && IsNext(c, s, a, s') && Judges(s.ren, x)
    ensures Inv(c, s') && s'.settled[x] == (s.settled[x] || a == UserRecorded(x))
  {
    JudgedIsCarried(c, s, x);
    NextInv(c, s, a, s');
    OnlyTheHandlerSettles(c, s, a, s', x);
  }

  lemma {:induction false} TraceInv(c: Config, run: seq<Action>, states: seq<State>, j: nat)
    requires ConfigOk(c) && Trace(c, run, states) && j <= |run|
    ensures Inv(c, states[j])
  {
    if j == 0 {
      InitInv(c);
    } else {
      TraceInv(c, run, states, j - 1);
      assert StepAt(c, run, states, j - 1);
      NextInv(c, states[j - 1], run[j - 1], states[j]);
    }
  }

  // ----- every mark follows such a read -----

  lemma RenewerComesToJudge(c: Config, s: State, ch: Choice, x: nat)
    requires Typed(c, s) && StepRenewer(c, s, ch).Some?
    requires !Judges(s.ren, x) && Judges(StepRenewer(c, s, ch).value.ren, x)
    ensures ReadsUnsettled(s, Step(Renewer, ch), x)
  {
  }

  lemma EnvironmentJudgesNothing(c: Config, s: State, a: Action, x: nat)
    requires Typed(c, s) && !a.Step? && Apply(c, s, a).Some?
    ensures Judges(Apply(c, s, a).value.ren, x) ==> Judges(s.ren, x)
    ensures Marks(Apply(c, s, a).value.ren, x) ==> Marks(s.ren, x)
  {
  }

  /** The renewer only comes to judge a message by reading that it is unsettled. */
  lemma ComesToJudge(c: Config, s: State, a: Action, s': State, x: nat)
    requires IsNext(c, s, a, s') && !Judges(s.ren, x) && Judges(s'.ren, x)
    ensures ReadsUnsettled(s, a, x)
  {
    if !a.Step? {
      EnvironmentJudgesNothing(c, s, a, x);
    } else if a.t == Renewer {
      RenewerComesToJudge(c, s, a.choice, x);
    } else {
      RenewerStays(c, s, a.t, a.choice);
    }
  }

  lemma RenewerComesToMark(c: Config, s: State, ch: Choice, x: nat)
    requires Typed(c, s) && StepRenewer(c, s, ch).Some?
    requires !Marks(s.ren, x) && Marks(StepRenewer(c, s, ch).value.ren, x)
    ensures ReadsIdle(s, Step(Renewer, ch), x)
  {
  }

  /** It only comes to mark one by reading that no settle of it is in flight. */
  lemma ComesToMark(c: Config, s: State, a: Action, s': State, x: nat)
    requires IsNext(c, s, a, s') && !Marks(s.ren, x) && Marks(s'.ren, x)
    ensures ReadsIdle(s, a, x)
  {
    if !a.Step? {
      EnvironmentJudgesNothing(c, s, a, x);
    } else if a.t == Renewer {
      RenewerComesToMark(c, s, a.choice, x);
    } else {
      RenewerStays(c, s, a.t, a.choice);
    }
  }

  /** What step i of a run means for message x: the renewer comes to judge it only by
      reading that it is unsettled, and to mark it only by reading that no settle of it is
      in flight, and meanwhile only a settle of the handler's own settles it. */
  predicate JudgedAt(c: Config, run: seq<Action>, states: seq<State>, i: nat, x: nat)
    requires |states| == |run| + 1 && i < |run|
  {
    var s, s' := states[i], states[i + 1];
    x < |s.settled| == |s'.settled|
    && (Judges(s'.ren, x) ==> Judges(s.ren, x) || ReadsUnsettled(s, run[i], x))
    && (Marks(s'.ren, x) ==> Marks(s.ren, x) || ReadsIdle(s, run[i], x))
    && (Judges(s.ren, x) ==> s'.settled[x] == (s.settled[x] || run[i] == UserRecorded(x)))
    && (ReadsUnsettled(s, run[i], x) ==> !s'.settled[x])
  }

  lemma JudgedByStep(c: Config, run: seq<Action>, states: seq<State>, i: nat, x: nat)
    requires |states| == |run| + 1 && i < |run| && x < c.n && Inv(c, states[i]) && Inv(c, states[i + 1])
    requires StepAt(c, run, states, i)
    ensures JudgedAt(c, run, states, i, x)
  {
    var s, s' := states[i], states[i + 1];
    if Judges(s.ren, x) {
      SettledByStep(c, s, run[i], s', x);
    } else if Judges(s'.ren, x) {
      ComesToJudge(c, s, run[i], s', x);
    }
    if ReadsUnsettled(s, run[i], x) { RenewerKeepsSettled(c, s, run[i].choice); }
    if Marks(s'.ren, x) && !Marks(s.ren, x) { ComesToMark(c, s, run[i], s', x); }
  }

  ghost predicate JudgedThroughout(c: Config, run: seq<Action>, states: seq<State>, x: nat)
    requires |states| == |run| + 1
  {
    !Judges(states[0].ren, x) && forall i: nat :: i < |run| ==> JudgedAt(c, run, states, i, x)
  }

  lemma TraceJudged(c: Config, run: seq<Action>, states: seq<State>, x: nat)
    requires ConfigOk(c) && Trace(c, run, states) && x < c.n
    ensures JudgedThroughout(c, run, states, x)
  {
    forall i: nat | i < |run| ensures JudgedAt(c, run, states, i, x) {
      TraceInv(c, run, states, i);
      TraceInv(c, run, states, i + 1);
      assert StepAt(c, run, states, i);
      JudgedByStep(c, run, states, i, x);
    }
  }

  /** Whenever the renewer judges a message, it has read it unsettled. */
  lemma {:induction false} EveryJudgementReads(c: Config, run: seq<Action>, states: seq<State>, j: nat, x: nat)
    returns (k: nat)
    requires |states| == |run| + 1 && JudgedThroughout(c, run, states, x) && j <= |run| && Judges(states[j].ren, x)
    ensures ReadAt(run, states, k, j, x)
  {
    assert JudgedAt(c, run, states, j - 1, x);
    if Judges(states[j - 1].ren, x) {
      k := EveryJudgementReads(c, run, states, j - 1, x);
    } else {
      k := j - 1;
    }
  }

  /** From that read until the renewer has done with it, the message becomes settled
      exactly by a settle of its handler's being recorded. */
  lemma {:induction false} SettledSince(c: Config, run: seq<Action>, states: seq<State>, k: nat, j: nat, x: nat)
    requires |states| == |run| + 1 && JudgedThroughout(c, run, states, x) && j <= |run| && ReadAt(run, states, k, j, x)
    ensures x < |states[j].settled| && (states[j].settled[x] <==> UserRecorded(x) in run[k + 1..j])
  {
    assert JudgedAt(c, run, states, j - 1, x);
    if j > k + 1 {
      SettledSince(c, run, states, k, j - 1, x);
      assert run[k + 1..j] == run[k + 1..j - 1] + [run[j - 1]];
    }
  }

  // ----- the exact condition -----

  lemma RenewerMarks(c: Config, s: State, ch: Choice, x: nat)
    requires Typed(c, s) && x < c.n && StepRenewer(c, s, ch).Some?
    ensures var s' := StepRenewer(c, s, ch).value;
            |s'.gone| == c.n && s'.settled == s.settled
            && s'.gone[x] == (s.gone[x] || (s.ren.InMark? && Judges(s.ren, x)))
  {
  }

  lemma EnvironmentMarksNothing(c: Config, s: State, a: Action)
    requires Typed(c, s) && !a.Step? && Apply(c, s, a).Some?
    ensures Apply(c, s, a).value.gone == s.gone
  {
  }

  /** Only the renewer, done judging a message, marks its lease gone. */
  lemma OnlyTheRenewerMarks(c: Config, s: State, a: Action, s': State, x: nat)
    requires Typed(c, s) && x < c.n && IsNext(c, s, a, s')
    ensures |s'.gone| == c.n && (s.gone[x] ==> s'.gone[x])
    ensures s'.gone[x] && !s.gone[x] ==>
              a.Step? && a.t == Renewer && s.ren.InMark? && Judges(s.ren, x) && s'.settled == s.settled
  {
    if !a.Step? {
      EnvironmentMarksNothing(c, s, a);
    } else if a.t == Renewer {
      RenewerMarks(c, s, a.choice, x);
    } else {
      LeasesOnlyDrop(c, s, a.t, a.choice, x);
    }
  }

  /** In every run, when step j marks the lease of a message gone, the renewer has read
      the message unsettled at some step k before, and the message is settled by now if
      and only if a settle of its handler's own has been recorded since. */
  lemma MarksSettledExactlyWhenRecordedSince(c: Config, run: seq<Action>, states: seq<State>, j: nat, x: nat)
    returns (k: nat)
    requires ConfigOk(c) && Trace(c, run, states) && j < |run| && x < c.n
    requires Shape(c, states[j]) && Shape(c, states[j + 1]) && !states[j].gone[x] && states[j + 1].gone[x]
    ensures ReadAt(run, states, k, j, x)
    ensures states[j + 1].settled[x] <==> UserRecorded(x) in run[k + 1..j]
  {
    assert StepAt(c, run, states, j);
    OnlyTheRenewerMarks(c, states[j], run[j], states[j + 1], x);
    TraceJudged(c, run, states, x);
    k := EveryJudgementReads(c, run, states, j, x);
    SettledSince(c, run, states, k, j, x);
  }

  /** A settle recorded before that read is never overridden: unless the renewer is past
      the read already, no renewal ever marks the lease of a settled message gone. */
  lemma {:induction false} SettledIsSpared(c: Config, s: State, run: seq<Action>, s': State, x: nat)
    requires Inv(c, s) && x < c.n && s.settled[x] && !Judges(s.ren, x) && Leads(c, s, run, s')
    ensures Shape(c, s') && s'.settled[x] && s'.gone[x] == s.gone[x]
    decreases |run|
  {
    if run != [] {
      var m :| IsNext(c, s, run[0], m) && Leads(c, m, run[1..], s');
      NextInv(c, s, run[0], m);
      OnlyTheRenewerMarks(c, s, run[0], m, x);
      SettledStays(c, s, run[0], m, x);
      if Judges(m.ren, x) { ComesToJudge(c, s, run[0], m, x); }
      SettledIsSpared(c, m, run[1..], s', x);
    }
  }

  /** Nor is one in flight at the second read: in every run, when step j marks the lease
      of a message gone, the renewer has found no settle of it in flight at some step m
      before, and has read nothing since. */
  lemma SettlingIsSpared(c: Config, run: seq<Action>, states: seq<State>, j: nat, x: nat) returns (m: nat)
    requires ConfigOk(c) && Trace(c, run, states) && j < |run| && x < c.n
    requires Shape(c, states[j]) && Shape(c, states[j + 1]) && !states[j].gone[x] && states[j + 1].gone[x]
    ensures m < j && ReadsIdle(states[m], run[m], x) && forall i :: m < i <= j ==> Marks(states[i].ren, x)
  {
    assert StepAt(c, run, states, j);
    OnlyTheRenewerMarks(c, states[j], run[j], states[j + 1], x);
    TraceJudged(c, run, states, x);
    m := EveryMarkReads(c, run, states, j, x);
  }

  lemma {:induction false} EveryMarkReads(c: Config, run: seq<Action>, states: seq<State>, j: nat, x: nat)
    returns (m: nat)
    requires |states| == |run| + 1 && JudgedThroughout(c, run, states, x) && j <= |run| && Marks(states[j].ren, x)
    ensures m < j && ReadsIdle(states[m], run[m], x) && forall i :: m < i <= j ==> Marks(states[i].ren, x)
  {
    assert JudgedAt(c, run, states, j - 1, x);
    m := j - 1;
    if Marks(states[j - 1].ren, x) { m := EveryMarkReads(c, run, states, j - 1, x); }
  }

  lemma SettledStays(c: Config, s: State, a: Action, s': State, x: nat)
    requires Typed(c, s) && x < c.n && IsNext(c, s, a, s') && s.settled[x]
    ensures |s'.settled| == c.n && s'.settled[x]
  {
    if !a.Step? {
      HandlerSettles(c, s, a, x);
    } else if a.t == Renewer {
      RenewerKeepsSettled(c, s, a.choice);
    } else if Pc(s, a.t).In? {
      InKeepsSettled(c, s, a.t, Pc(s, a.t).sec);
    } else if Answers(Pc(s, a.t)) {
      AnswersKeepSettled(c, s, a.t, a.choice, x);
    } else {
      OthersKeepSettled(c, s, a.t, a.choice);
    }
  }

  lemma AnswersKeepSettled(c: Config, s: State, t: Tid, ch: Choice, x: nat)
    requires Shape(c, s) && PcOk(c, Pc(s, t)) && x < c.n && Answers(Pc(s, t)) && s.settled[x]
    ensures var s' := StepPc(c, s, t, ch).value; |s'.settled| == c.n && s'.settled[x]
  {
  }

  // ----- what a round carries -----

  lemma RenewerCarries(c: Config, s: State, ch: Choice, x: nat)
    requires Typed(c, s) && x < c.n && StepRenewer(c, s, ch).Some?
    requires x !in Carry(s.ren) && x in Carry(StepRenewer(c, s, ch).value.ren)
    ensures s.ren.Collect? && s.held[x] && !s.settled[x]
  {
  }

  /** In every run, a message gets into a round only while its lease is held and it is not
      settled. */
  lemma CarriesOnlyWhatIsHeld(c: Config, s: State, a: Action, s': State, x: nat)
    requires Inv(c, s) && x < c.n && IsNext(c, s, a, s') && x !in Carry(s.ren) && x in Carry(s'.ren)
    ensures a.Step? && a.t == Renewer && s.ren.Collect? && s.held[x] && !s.settled[x]
  {
    if !a.Step? {
      EnvironmentCarriesNothing(c, s, a);
    } else if a.t == Renewer {
      RenewerCarries(c, s, a.choice, x);
    } else {
      RenewerStays(c, s, a.t, a.choice);
    }
  }

  lemma EnvironmentCarriesNothing(c: Config, s: State, a: Action)
    requires Typed(c, s) && !a.Step? && Apply(c, s, a).Some?
    ensures Carry(Apply(c, s, a).value.ren) == Carry(s.ren)
  {
  }

  // ----- every 410 is judged -----

  /** The renewer goes through the messages of its round, x among those answered 410. */
  predicate Sifts(r: RPC, x: nat)
  {
    (r.Judge? || r.JudgeSettling? || r.Mark? || r.InMark?) && x in r.lost
  }

  /** Step a is a read that excuses message x: it is settled, or being settled. */
  predicate Excuses(s: State, a: Action, x: nat)
  {
    a.Step? && a.t == Renewer && (s.ren.Judge? || s.ren.JudgeSettling?) && s.ren.todo != [] && s.ren.todo[0] == x
    && x < |s.settled| == |s.settling|
    && if s.ren.Judge? then s.settled[x] else s.settling[x] > 0
  }

  /** A message that is still to be judged stays so until it is marked gone or excused. */
  predicate Sifted(s: State, a: Action, s': State, x: nat)
  {
    x < |s.gone| == |s'.gone| && (s.gone[x] ==> s'.gone[x])
    && (Sifts(s.ren, x) ==>
          (Sifts(s'.ren, x) || s'.ren.LeaveRound?)
          && (x in s.ren.todo ==> (Sifts(s'.ren, x) && x in s'.ren.todo) || s'.gone[x] || Excuses(s, a, x)))
  }

  lemma RenewerSifts(c: Config, s: State, ch: Choice, x: nat)
    requires Typed(c, s) && x < c.n && StepRenewer(c, s, ch).Some?
    ensures Sifted(s, Step(Renewer, ch), StepRenewer(c, s, ch).value, x)
  {
    if Sifts(s.ren, x) && s.ren.todo != [] {
      assert s.ren.todo == [s.ren.todo[0]] + s.ren.todo[1..];
    }
  }

  lemma EnvironmentSifts(c: Config, s: State, a: Action, x: nat)
    requires Typed(c, s) && x < c.n && !a.Step? && Apply(c, s, a).Some?
    ensures Sifted(s, a, Apply(c, s, a).value, x)
  {
  }

  lemma StepSifts(c: Config, s: State, a: Action, s': State, x: nat)
    requires Inv(c, s) && x < c.n && IsNext(c, s, a, s')
    ensures Sifted(s, a, s', x)
  {
    if !a.Step? {
      EnvironmentSifts(c, s, a, x);
    } else if a.t == Renewer {
      RenewerSifts(c, s, a.choice, x);
    } else {
      LeasesOnlyDrop(c, s, a.t, a.choice, x);
    }
  }

  predicate SiftedAt(run: seq<Action>, states: seq<State>, i: nat, x: nat)
    requires |states| == |run| + 1 && i < |run|
  {
    Sifted(states[i], run[i], states[i + 1], x)
  }

  /** Step e brings the answer of a renewal: message x was carried, and its lease is gone. */
  predicate Answered410(s: State, a: Action, x: nat)
  {
    a.Step? && a.t == Renewer && s.ren.ExtendSent? && x in s.ren.carry && x in a.choice.answered
  }

  /** In every run, a message whose renewal is answered 410 is marked gone by the end of
      that round, unless the renewer has read at some step that it is settled or being
      settled. */
  lemma Every410IsJudged(c: Config, run: seq<Action>, states: seq<State>, e: nat, j: nat, x: nat)
    requires ConfigOk(c) && Trace(c, run, states) && e < j <= |run| && x < c.n
    requires Answered410(states[e], run[e], x) && states[j].ren.LeaveRound?
    requires forall i :: e < i < j ==> !states[i].ren.LeaveRound?
    ensures x < |states[j].gone|
    ensures states[j].gone[x] || exists i :: e < i < j && Excuses(states[i], run[i], x)
  {
    forall i: nat | i < |run| ensures SiftedAt(run, states, i, x) {
      TraceInv(c, run, states, i);
      assert StepAt(c, run, states, i);
      StepSifts(c, states[i], run[i], states[i + 1], x);
    }
    assert StepAt(c, run, states, e);
    SiftsFrom(states[e], run[e], states[e + 1], c, x);
    assert SiftedAt(run, states, e, x);
    SiftedUpTo(run, states, e, j, x);
  }

  lemma SiftsFrom(s: State, a: Action, s': State, c: Config, x: nat)
    requires IsNext(c, s, a, s') && Answered410(s, a, x)
    ensures Sifts(s'.ren, x) && x in s'.ren.todo
  {
  }

  lemma {:induction false} SiftedUpTo(run: seq<Action>, states: seq<State>, e: nat, j: nat, x: nat)
    requires |states| == |run| + 1 && e < j <= |run| && forall i: nat :: i < |run| ==> SiftedAt(run, states, i, x)
    requires Sifts(states[e + 1].ren, x) && x in states[e + 1].ren.todo
    requires forall i :: e < i < j ==> !states[i].ren.LeaveRound?
    ensures x < |states[j].gone| && (Sifts(states[j].ren, x) || states[j].ren.LeaveRound?)
    ensures (Sifts(states[j].ren, x) && x in states[j].ren.todo)
            || states[j].gone[x] || exists i :: e < i < j && Excuses(states[i], run[i], x)
  {
    assert SiftedAt(run, states, j - 1, x);
    if j > e + 1 { SiftedUpTo(run, states, e, j - 1, x); }
  }
}

/** The circuit breaker that each node of the cluster has. */
module Breaker {
  import opened Common
  import opened Errors

  datatype BreakerState = Closed | Open | HalfOpen

  /** How many failures in a row open a breaker, zero or less for a client that
      has none, and how long it stays open. */
  datatype Policy = Policy(failAfter: int, openFor: int)

  datatype Health = Health(state: BreakerState, failures: nat, openedAt: int)

  const HEALTHY := Health(Closed, 0, 0)

  function MoveTo(h: Health, next: BreakerState): Health
  {
    if h.state == next then h
    else if next.Closed? then h.(state := next, failures := 0)
    else h.(state := next)
  }

  /** Whether a node would take a request now. */
  predicate Admits(p: Policy, h: Health, now: int)
  {
    p.failAfter <= 0 || h.state.Closed? || (h.state.Open? && now - h.openedAt >= p.openFor)
  }

  /** The node after it has been asked: a cooled down one waits for its probe. */
  function Asked(p: Policy, h: Health, now: int): Health
  {
    if p.failAfter > 0 && h.state.Open? && Admits(p, h, now) then h.(state := HalfOpen) else h
  }

  predicate Fault(err: Option<Failure>) { err.Some? && NodeFault(err.value) }

  /** The node after a request to it has turned out this way. */
  function Observed(p: Policy, h: Health, err: Option<Failure>, now: int): Health
  {
    if p.failAfter <= 0 then h
    else if !Fault(err) then Health(Closed, 0, h.openedAt)
    else if h.state.HalfOpen? then Health(Open, h.failures, now)
    else if h.failures + 1 >= p.failAfter then Health(Open, h.failures + 1, now)
    else h.(failures := h.failures + 1)
  }

  /** The node after the caller of a request to it has stopped waiting. */
  function Abandoned(p: Policy, h: Health, now: int): Health
  {
    if p.failAfter > 0 && h.state.HalfOpen? then Health(Open, h.failures, now - p.openFor) else h
  }

  class Node {
    const address: string
    const policy: Policy
    var state: BreakerState
    var failures: nat
    var openedAt: int

    constructor (address: string, policy: Policy)
      ensures this.address == address && this.policy == policy && Value() == HEALTHY
    {
      this.address, this.policy := address, policy;
      state, failures, openedAt := Closed, 0, 0;
    }

    function Value(): Health
      reads this
    {
      Health(state, failures, openedAt)
    }

    method Ready(now: int) returns (ok: bool)
      modifies this
      ensures ok == Admits(policy, old(Value()), now) && Value() == Asked(policy, old(Value()), now)
    {
      if policy.failAfter <= 0 { return true; }
      match state
      case Closed => return true;
      case Open =>
        if now - openedAt < policy.openFor { return false; }
        SetState(HalfOpen);
        return true;
      case HalfOpen => return false;
    }

    method Observe(err: Option<Failure>, now: int)
      modifies this
      ensures Value() == Observed(policy, old(Value()), err, now)
    {
      if policy.failAfter <= 0 { return; }
      if err.None? || !NodeFault(err.value) {
        Succeed();
      } else {
        Fail(now);
      }
    }

    method Abandon(now: int)
      modifies this
      ensures Value() == Abandoned(policy, old(Value()), now)
    {
      if policy.failAfter <= 0 { return; }
      if state == HalfOpen {
        openedAt := now - policy.openFor;
        SetState(Open);
      }
    }

    method Succeed()
      modifies this
      ensures Value() == Health(Closed, 0, old(openedAt))
    {
      failures := 0;
      SetState(Closed);
    }

    method Fail(now: int)
      requires policy.failAfter > 0
      modifies this
      ensures Value() ==
              if old(state).HalfOpen? then Health(Open, old(failures), now)
              else if old(failures) + 1 >= policy.failAfter then Health(Open, old(failures) + 1, now)
              else Health(old(state), old(failures) + 1, old(openedAt))
    {
      if state == HalfOpen {
        openedAt := now;
        SetState(Open);
        return;
      }
      failures := failures + 1;
      if failures >= policy.failAfter {
        openedAt := now;
        SetState(Open);
      }
    }

    method SetState(next: BreakerState)
      modifies this
      ensures Value() == MoveTo(old(Value()), next)
    {
      if state == next { return; }
      state := next;
      if next == Closed { failures := 0; }
    }
  }

  // ----- histories of one node -----

  /** One call on a node, atomic under its lock: asked for a request, told how one
      turned out, or told that one was given up. */
  datatype Event = Ask(at: int) | Saw(err: Option<Failure>, at: int) | GaveUp(at: int)

  function Next(p: Policy, h: Health, e: Event): Health
  {
    match e
    case Ask(at) => Asked(p, h, at)
    case Saw(err, at) => Observed(p, h, err, at)
    case GaveUp(at) => Abandoned(p, h, at)
  }

  function After(p: Policy, events: seq<Event>): Health
  {
    if events == [] then HEALTHY
    else Next(p, After(p, events[..|events| - 1]), events[|events| - 1])
  }

  /** How many node faults have been seen since the last answer that was none. */
  function Streak(events: seq<Event>): nat
  {
    if events == [] then 0
    else
      var front, e := events[..|events| - 1], events[|events| - 1];
      if !e.Saw? then Streak(front) else if Fault(e.err) then Streak(front) + 1 else 0
  }

  /** Over any history, a breaker is closed exactly when its trailing streak of
      faults is shorter than the threshold, and then it has counted all of them. */
  lemma {:induction false} ClosedByStreak(p: Policy, events: seq<Event>)
    requires p.failAfter > 0
    ensures var h := After(p, events);
            (h.state.Closed? <==> Streak(events) < p.failAfter)
            && (if h.state.Closed? then h.failures == Streak(events) else h.failures >= p.failAfter)
  {
    if events != [] {
      ClosedByStreak(p, events[..|events| - 1]);
    }
  }

  /** The clock of a history does not run backwards. */
  predicate Timely(events: seq<Event>) { forall j, k :: 0 <= j < k < |events| ==> events[j].at <= events[k].at }

  /** Fault j opened the breaker or kept it open, and nothing since has closed it. */
  predicate Opens(p: Policy, events: seq<Event>, j: nat)
    requires j < |events|
  {
    events[j].Saw? && Fault(events[j].err) && Streak(events[..j + 1]) >= p.failAfter
    && forall k :: j < k < |events| && events[k].Saw? ==> Fault(events[k].err)
  }

  lemma {:induction false} CooldownFrom(p: Policy, events: seq<Event>, j: nat, now: int)
    requires p.failAfter > 0 && Timely(events) && j < |events| && Opens(p, events, j)
    requires events[|events| - 1].at <= now
    ensures var h := After(p, events);
            (h.state.Open? && h.openedAt >= events[j].at) || (h.state.HalfOpen? && now - events[j].at >= p.openFor)
  {
    var last := |events| - 1;
    var front := events[..last];
    ClosedByStreak(p, events);
    if j < last {
      assert front[..j + 1] == events[..j + 1];
      CooldownFrom(p, front, j, events[last].at);
    } else {
      assert events[..j + 1] == events;
    }
  }

  /** Nothing is admitted while a breaker is open and still cooling down: every
      request it takes after a fault that opened it comes at least the cooldown
      later, unless an answer that was no fault came in between. */
  lemma NothingAdmittedEarly(p: Policy, events: seq<Event>, j: nat, now: int)
    requires p.failAfter > 0 && Timely(events) && j < |events| && Opens(p, events, j)
    requires events[|events| - 1].at <= now && Admits(p, After(p, events), now)
    ensures now - events[j].at >= p.openFor
  {
    CooldownFrom(p, events, j, now);
  }

  /** Over any history, a node without a breaker takes every request, and so does one
      whose trailing streak of faults is shorter than the threshold. */
  lemma HealthyAlwaysAdmits(p: Policy, events: seq<Event>, now: int)
    requires p.failAfter <= 0 || Streak(events) < p.failAfter
    ensures Admits(p, After(p, events), now)
  {
    if p.failAfter > 0 { ClosedByStreak(p, events); }
  }

  /** Event j is the last that says how a request turned out. */
  predicate LastSeen(events: seq<Event>, j: nat)
  {
    j < |events| && events[j].Saw? && forall k :: j < k < |events| ==> !events[k].Saw?
  }

  /** Since event j the node has been asked once the cooldown had passed, and that
      request has not been given up. */
  predicate ProbeOut(p: Policy, events: seq<Event>, j: nat)
    requires j < |events|
  {
    exists a :: j < a < |events| && Cooled(p, events, j, a) && forall g :: a < g < |events| ==> !events[g].GaveUp?
  }

  predicate Cooled(p: Policy, events: seq<Event>, j: nat, a: nat)
    requires j < |events| && a < |events|
  {
    events[a].Ask? && events[a].at - events[j].at >= p.openFor
  }

  /** Over any history of a breaker that is not closed, a request is admitted if and only
      if the cooldown since the last fault has passed and no probe is out. */
  lemma AdmitsExactlyAfterCooldown(p: Policy, events: seq<Event>, j: nat, now: int)
    requires p.failAfter > 0 && Timely(events) && Streak(events) >= p.failAfter && LastSeen(events, j)
    requires events[|events| - 1].at <= now
    ensures Admits(p, After(p, events), now) <==> now - events[j].at >= p.openFor && !ProbeOut(p, events, j)
  {
    ProbeState(p, events, j);
  }

  lemma {:induction false} ProbeState(p: Policy, events: seq<Event>, j: nat)
    requires p.failAfter > 0 && Timely(events) && Streak(events) >= p.failAfter && LastSeen(events, j)
    ensures var h, start, end := After(p, events), events[j].at, events[|events| - 1].at;
            if ProbeOut(p, events, j) then h.state.HalfOpen? && end - start >= p.openFor
            else
              h.state.Open?
              && (h.openedAt == start || (h.openedAt + p.openFor <= end && end - start >= p.openFor))
  {
    var last := |events| - 1;
    var front := events[..last];
    ClosedByStreak(p, events);
    if j < last {
      ProbeState(p, front, j);
      ProbeNext(p, events, j);
    } else {
      ClosedByStreak(p, front);
    }
  }

  lemma ProbeNext(p: Policy, events: seq<Event>, j: nat)
    requires LastSeen(events, j) && j < |events| - 1
    ensures var last := |events| - 1;
            ProbeOut(p, events, j)
            <==> Cooled(p, events, j, last) || (ProbeOut(p, events[..last], j) && !events[last].GaveUp?)
  {
    var last := |events| - 1;
    var front := events[..last];
    forall a: nat | a < last ensures Cooled(p, front, j, a) <==> Cooled(p, events, j, a) {}
    if ProbeOut(p, front, j) && !events[last].GaveUp? {
      var a :| j < a < last && Cooled(p, front, j, a) && forall g :: a < g < last ==> !front[g].GaveUp?;
      assert Cooled(p, events, j, a);
      forall g | a < g < |events| ensures !events[g].GaveUp? {
        if g < last { assert !front[g].GaveUp?; }
      }
    }
    if ProbeOut(p, events, j) && !Cooled(p, events, j, last) {
      var a :| j < a < |events| && Cooled(p, events, j, a) && forall g :: a < g < |events| ==> !events[g].GaveUp?;
      assert Cooled(p, front, j, a);
    }
  }

  /** A probe that is given up is handed back: the node takes the next request at
      once.  Giving up any other request says nothing about the node. */
  lemma AbandonHandsBack(p: Policy, h: Health, now: int, later: int)
    requires p.failAfter > 0 && now <= later
    ensures h.state.HalfOpen? ==> Admits(p, Abandoned(p, h, now), later)
    ensures !h.state.HalfOpen? ==> Abandoned(p, h, now) == h
  {
  }

  // ----- probes -----

  /** A node with its requests in flight.  Each open to half-open transition starts
      an episode; a request admitted by one is a probe tagged with its number, any
      other is tagged 0. */
  datatype Traffic = Traffic(h: Health, episode: nat, flying: multiset<nat>)

  const IDLE := Traffic(HEALTHY, 0, multiset{})

  /** What callers do with one node.  Test is the node's part in the driver's check
      for an untried node, which asks it without sending it anything. */
  datatype Move =
    | Send(at: int) | Answer(tag: nat, err: Option<Failure>, at: int) | Cancel(tag: nat, at: int) | Test(at: int)

  predicate Allowed(p: Policy, t: Traffic, m: Move)
  {
    match m
    case Send(at) => Admits(p, t.h, at)
    case Answer(tag, _, _) => tag in t.flying
    case Cancel(tag, _) => tag in t.flying
    case Test(_) => true
  }

  function Moved(p: Policy, t: Traffic, m: Move): Traffic
    requires Allowed(p, t, m)
  {
    match m
    case Send(at) =>
      var h := Asked(p, t.h, at);
      if h == t.h then t.(flying := t.flying + multiset{0})
      else Traffic(h, t.episode + 1, t.flying + multiset{t.episode + 1})
    case Answer(tag, err, at) => Traffic(Observed(p, t.h, err, at), t.episode, t.flying - multiset{tag})
    case Cancel(tag, at) => Traffic(Abandoned(p, t.h, at), t.episode, t.flying - multiset{tag})
    case Test(at) =>
      var h := Asked(p, t.h, at);
      if h == t.h then t else t.(h := h, episode := t.episode + 1)
  }

  ghost predicate Run(p: Policy, from: Traffic, moves: seq<Move>, to: Traffic)
    decreases |moves|
  {
    if moves == [] then from == to
    else Allowed(p, from, moves[0]) && Run(p, Moved(p, from, moves[0]), moves[1..], to)
  }

  /** A half-open node has its episode's one probe in flight, and no episode has
      more than one. */
  ghost predicate Probed(t: Traffic)
  {
    (forall tag <- t.flying :: tag <= t.episode && (tag > 0 ==> t.flying[tag] == 1))
    && (t.h.state.HalfOpen? ==> t.episode > 0 && t.flying[t.episode] == 1)
  }

  /** Whether a test of the node would be nothing but a test. */
  predicate TestIsPure(p: Policy, t: Traffic, at: int) { Asked(p, t.h, at) == t.h }

  /** Every step of pick, observe and abandon keeps that, and a test of a node keeps
      it exactly when the node is not one that has cooled down. */
  lemma ProbedStep(p: Policy, t: Traffic, m: Move)
    requires p.failAfter > 0 && Allowed(p, t, m) && Probed(t)
    ensures Probed(Moved(p, t, m)) <==> (m.Test? ==> TestIsPure(p, t, m.at))
  {
    if m.Test? && !TestIsPure(p, t, m.at) {
      assert t.episode + 1 !in t.flying;
    }
  }

  /** In every run without such a test, a half-open node has exactly one probe of
      the current episode in flight, it admits nothing else until it is answered or
      given up, and the end of any request at all takes the node out of half-open:
      its probe is still in flight until then, so it cannot stay half-open for good. */
  lemma {:induction false} OneProbeAnEpisode(p: Policy, from: Traffic, moves: seq<Move>, to: Traffic)
    requires p.failAfter > 0 && Run(p, from, moves, to) && Probed(from) && forall m <- moves :: !m.Test?
    ensures Probed(to)
    ensures to.h.state.HalfOpen? ==>
              (forall at :: !Admits(p, to.h, at)) && to.flying[to.episode] == 1
              && (forall m: Move :: Allowed(p, to, m) && !m.Send? && !m.Test? ==> !Moved(p, to, m).h.state.HalfOpen?)
    decreases |moves|
  {
    if moves != [] {
      ProbedStep(p, from, moves[0]);
      OneProbeAnEpisode(p, Moved(p, from, moves[0]), moves[1..], to);
    }
  }

  /** A half-open node with nothing in flight is lost for good: no run ever sends it
      a request again. */
  lemma {:induction false} WedgedForGood(p: Policy, from: Traffic, moves: seq<Move>, to: Traffic)
    requires p.failAfter > 0 && from.h.state.HalfOpen? && from.flying == multiset{} && Run(p, from, moves, to)
    ensures to == from && forall m <- moves :: m.Test?
    decreases |moves|
  {
    if moves != [] {
      assert Moved(p, from, moves[0]) == from;
      WedgedForGood(p, from, moves[1..], to);
    }
  }

  /** And a client gets there: its requests to the node fail, the cooldown passes,
      and the driver tests the node for another request. */
  lemma TestWedges(p: Policy, e: Failure)
    requires p.failAfter == 1 && p.openFor >= 0 && NodeFault(e)
    ensures exists moves: seq<Move>, to: Traffic ::
              Run(p, IDLE, moves, to) && to.h.state.HalfOpen? && to.flying == multiset{}
  {
    var moves := [Send(0), Answer(0, Some(e), 0), Test(p.openFor)];
    var t1 := Moved(p, IDLE, moves[0]);
    var t2 := Moved(p, t1, moves[1]);
    var t3 := Moved(p, t2, moves[2]);
    assert moves[1..][1..] == [moves[2]];
    assert Run(p, t2, [moves[2]], t3) by { assert Run(p, t3, [], t3); }
    assert Run(p, IDLE, moves, t3);
  }
}

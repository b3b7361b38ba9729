/** The retry loop behind every call of the client. */
module Driver {
  import opened Common
  import opened Errors
  import opened Breaker
  import opened Nodes

  /** What the world does to one attempt: when a node is picked and what becomes of
      the request, whether the caller's context had ended then, when that is
      recorded, whether the context has ended between that and the decision to go on,
      when the nodes are checked, the backoff drawn, and whether the wait finishes. */
  datatype Attempt = Attempt(
    pickAt: int, err: Option<Failure>, ended: bool, doneAt: int, endedSince: bool,
    checkAt: int, backoff: int, waited: bool)

  /** One request sent: the nodes and the addresses tried before the pick, the node,
      the nodes once it is over, the wait after it if there is one, and the nodes
      that a next pick would find. */
  datatype Sent = Sent(peers: seq<Peer>, tried: set<string>, start: nat, node: nat, a: Attempt, after: seq<Peer>,
                       delay: Option<int>, left: seq<Peer>)

  datatype Rules = Rules(limit: nat, cautious: bool)

  /** The larger of one and the number configured, or one for a call that is not repeated. */
  function Limit(configured: int, once: bool): (limit: nat)
    ensures limit >= 1 && (once ==> limit == 1)
    ensures !once ==> limit >= configured && (limit == 1 || limit == configured)
  {
    if configured < 1 || once then 1 else configured
  }

  /** The node is told how its request went, or that nobody waited for it. */
  function Answered(p: Policy, h: Health, a: Attempt): Health
  {
    if a.err.Some? && a.ended then Abandoned(p, h, a.doneAt) else Observed(p, h, a.err, a.doneAt)
  }

  function Told(peer: Peer, a: Attempt): Peer
  {
    peer.(h := Answered(peer.policy, Asked(peer.policy, peer.h, a.pickAt), a))
  }

  /** Whether another attempt may follow this one. */
  predicate GoesOn(r: Rules, a: Attempt)
  {
    a.err.Some? && Retryable(a.err.value) && !(r.cautious && Uncertain(a.err.value)) && !a.ended && !a.endedSince
  }

  /** The wait after an attempt: what the server asked for, unless its answer was
      about itself and an untried node would take the request. */
  function Delay(a: Attempt, otherReady: bool): int
    requires a.err.Some?
  {
    if MovesOn(a.err.value) && otherReady then a.backoff else RetryDelay(a.err.value, a.backoff)
  }

  /** A request went to the node pick chose, that node alone was told how it went,
      and the wait is the right one. */
  predicate SentOk(s: Sent)
  {
    Choice(s.peers, s.tried, s.start, s.a.pickAt) == Some(s.node) && s.node < |s.peers|
    && s.after == s.peers[s.node := Told(s.peers[s.node], s.a)]
    && (s.delay.Some? ==> s.a.err.Some? && s.delay.value == Delay(s.a, SomeFresh(s.after, Tried(s), s.a.checkAt)))
    && s.left == if s.delay.Some? && MovesOn(s.a.err.value) then Tested(s.after, Tried(s), s.a.checkAt) else s.after
  }

  function Tried(s: Sent): set<string>
    requires s.node < |s.peers|
  {
    s.tried + {s.peers[s.node].address}
  }

  /** Request t comes next after s. */
  predicate Follows(r: Rules, s: Sent, t: Sent)
  {
    s.node < |s.peers| && GoesOn(r, s.a) && s.a.waited && s.delay.Some?
    && t.tried == Tried(s) && t.peers == s.left && t.start == s.start + 1
  }

  /** The requests are in order: each is as it should be and follows the one before,
      the first with nothing tried. */
  predicate InOrder(r: Rules, sent: seq<Sent>)
  {
    sent == []
    || (var front, s := sent[..|sent| - 1], sent[|sent| - 1];
        InOrder(r, front) && SentOk(s) && if front == [] then s.tried == {} else Follows(r, front[|front| - 1], s))
  }

  predicate Proper(r: Rules, sent: seq<Sent>) { |sent| <= r.limit && InOrder(r, sent) }

  lemma {:induction false} ProperAt(r: Rules, sent: seq<Sent>, k: nat)
    requires InOrder(r, sent) && k < |sent|
    ensures SentOk(sent[k]) && if k == 0 then sent[k].tried == {} else Follows(r, sent[k - 1], sent[k])
  {
    if k < |sent| - 1 { ProperAt(r, sent[..|sent| - 1], k); }
  }

  /** What a call returns after these requests, given the node choice that would
      have come next. */
  predicate Returns(r: Rules, sent: seq<Sent>, nobody: bool, err: Option<Failure>)
  {
    if sent == [] then nobody && err == Some(Own(NoNodes))
    else
      var a := sent[|sent| - 1].a;
      if a.err.None? then err == None && !nobody
      else if |sent| == r.limit || !GoesOn(r, a) then err == a.err && !nobody
      else if !a.waited then err == Some(ContextEnded) && !nobody
      else nobody && err == a.err
  }

  /** A call with these rules on nodes that start as peers0, in this world. */
  datatype Call = Call(r: Rules, peers0: seq<Peer>, world: seq<Attempt>)

  /** What has been sent so far is as it should be. */
  predicate SoFar(c: Call, sent: seq<Sent>)
  {
    Proper(c.r, sent) && (sent != [] ==> sent[0].peers == c.peers0) && |sent| <= |c.world|
    && forall k :: 0 <= k < |sent| ==> sent[k].a == c.world[k]
  }

  /** And the loop is ready for the next attempt. */
  predicate Onward(c: Call, sent: seq<Sent>, tried: set<string>, peers: seq<Peer>, start: nat, last: Option<Failure>)
  {
    SoFar(c, sent)
    && if sent == [] then tried == {} && last == None && peers == c.peers0
       else
         var s := sent[|sent| - 1];
         GoesOn(c.r, s.a) && s.a.waited && s.delay.Some? && last == s.a.err
         && tried == Tried(s) && peers == s.left && start == s.start + 1
  }

  lemma OrderGrows(r: Rules, sent: seq<Sent>, s: Sent)
    requires InOrder(r, sent) && SentOk(s)
    requires if sent == [] then s.tried == {} else Follows(r, sent[|sent| - 1], s)
    ensures InOrder(r, sent + [s])
  {
    assert (sent + [s])[..|sent|] == sent;
  }

  lemma SendsMore(c: Call, sent: seq<Sent>, s: Sent, last: Option<Failure>)
    requires Onward(c, sent, s.tried, s.peers, s.start, last) && |sent| < c.r.limit <= |c.world|
    requires SentOk(s) && s.a == c.world[|sent|]
    ensures SoFar(c, sent + [s])
  {
    OrderGrows(c.r, sent, s);
  }

  lemma SendsNext(c: Call, sent: seq<Sent>, s: Sent, last: Option<Failure>)
    requires Onward(c, sent, s.tried, s.peers, s.start, last) && |sent| < c.r.limit <= |c.world|
    requires SentOk(s) && s.a == c.world[|sent|]
    ensures SoFar(c, sent + [s])
    ensures GoesOn(c.r, s.a) && s.a.waited && s.delay.Some? ==>
              Onward(c, sent + [s], Tried(s), s.left, s.start + 1, s.a.err)
    ensures |sent| == c.r.limit - 1 || !GoesOn(c.r, s.a) ==> Returns(c.r, sent + [s], false, s.a.err)
    ensures |sent| < c.r.limit - 1 && GoesOn(c.r, s.a) && !s.a.waited ==>
              Returns(c.r, sent + [s], false, Some(ContextEnded))
  {
    SendsMore(c, sent, s, last);
  }

  method Tell(nodes: NodeSet, i: nat, a: Attempt)
    requires nodes.Distinct() && i < |nodes.all|
    modifies nodes.all
    ensures var peer := old(nodes.Peers())[i];
            nodes.Peers() == old(nodes.Peers())[i := peer.(h := Answered(peer.policy, peer.h, a))]
  {
    if a.err.Some? && a.ended {
      nodes.all[i].Abandon(a.doneAt);
    } else {
      nodes.all[i].Observe(a.err, a.doneAt);
    }
  }

  lemma NobodyLeft(c: Call, sent: seq<Sent>, tried: set<string>, peers: seq<Peer>, start: nat, last: Option<Failure>)
    requires Onward(c, sent, tried, peers, start, last) && |sent| < c.r.limit
    ensures Returns(c.r, sent, true, if last.None? then Some(Own(NoNodes)) else last)
  {
  }

  /** One attempt: a pick, the request, and what its outcome says about the node
      and about going on.  node is None if no node would take the request. */
  method TryOnce(nodes: NodeSet, r: Rules, tried: set<string>, final: bool, a: Attempt)
    returns (node: Option<nat>, goesOn: bool, ghost s: Sent)
    requires nodes.Distinct()
    modifies nodes, nodes.all
    ensures if node.None? then nodes.Peers() == old(nodes.Peers()) && forall p <- nodes.Peers() :: !Takes(p, a.pickAt)
            else
              SentOk(s) && s.a == a && s.tried == tried && s.peers == old(nodes.Peers()) && s.start == old(nodes.next)
              && node.value == s.node < |nodes.all| && nodes.all[s.node].address == s.peers[s.node].address
              && goesOn == (!final && GoesOn(r, a))
              && (goesOn ==> nodes.next == s.start + 1)
              && nodes.Peers() == s.left && (s.delay.Some? <==> goesOn)
  {
    ghost var peers, start := nodes.Peers(), nodes.next;
    ChoicePrefersUntried(peers, tried, start, a.pickAt);
    node := nodes.Pick(tried, a.pickAt);
    goesOn := false;
    s := Sent(peers, tried, start, 0, a, [], None, []);
    if node.None? { return; }
    var i := node.value;
    Tell(nodes, i, a);
    ghost var after := nodes.Peers();
    assert after == peers[i := Told(peers[i], a)];
    s := s.(node := i, after := after, left := after);
    if a.err.None? || final || !Retryable(a.err.value) || (r.cautious && Uncertain(a.err.value)) { return; }
    if a.ended || a.endedSince { return; }
    goesOn := true;
    var delay := RetryDelay(a.err.value, a.backoff);
    if MovesOn(a.err.value) {
      var found := nodes.Untried(tried + {nodes.all[i].address}, a.checkAt);
      if found { delay := a.backoff; }
    }
    s := s.(delay := Some(delay), left := nodes.Peers());
  }

  method Do(nodes: NodeSet, shut: bool, configured: int, once: bool, cautious: bool, world: seq<Attempt>)
    returns (err: Option<Failure>, ghost sent: seq<Sent>, ghost nobody: bool)
    requires nodes.Distinct() && |world| >= Limit(configured, once)
    modifies nodes, nodes.all
    ensures shut ==> err == Some(Own(ClientClosed)) && sent == [] && nodes.Peers() == old(nodes.Peers())
    ensures var r := Rules(Limit(configured, once), cautious);
            var c := Call(r, old(nodes.Peers()), world);
            !shut ==>
              SoFar(c, sent) && Returns(r, sent, nobody, err)
              && nodes.Peers() == if sent == [] then old(nodes.Peers()) else sent[|sent| - 1].left
    ensures nobody ==> |sent| < |world| && forall p <- nodes.Peers() :: !Takes(p, world[|sent|].pickAt)
  {
    if shut { return Some(Own(ClientClosed)), [], false; }
    err, sent, nobody := Loop(nodes, Rules(Limit(configured, once), cautious), world);
  }

  method Loop(nodes: NodeSet, r: Rules, world: seq<Attempt>)
    returns (err: Option<Failure>, ghost sent: seq<Sent>, ghost nobody: bool)
    requires nodes.Distinct() && |world| >= r.limit >= 1
    modifies nodes, nodes.all
    ensures var c := Call(r, old(nodes.Peers()), world);
            SoFar(c, sent) && Returns(r, sent, nobody, err)
            && nodes.Peers() == if sent == [] then old(nodes.Peers()) else sent[|sent| - 1].left
    ensures nobody ==> |sent| < |world| && forall p <- nodes.Peers() :: !Takes(p, world[|sent|].pickAt)
  {
    ghost var c := Call(r, nodes.Peers(), world);
    sent, nobody, err := [], false, None;
    var tried: set<string> := {};
    for attempt := 0 to r.limit
      invariant |sent| == attempt && Onward(c, sent, tried, nodes.Peers(), nodes.next, err) && !nobody
    {
      ghost var peers, start := nodes.Peers(), nodes.next;
      var node, goesOn, s := TryOnce(nodes, r, tried, attempt == r.limit - 1, world[attempt]);
      if node.None? {
        NobodyLeft(c, sent, tried, peers, start, err);
        nobody := true;
        if err.None? { err := Some(Own(NoNodes)); }
        break;
      }
      SendsNext(c, sent, s, err);
      sent := sent + [s];
      err := world[attempt].err;
      if !goesOn {
        assert Returns(r, sent, nobody, err);
        break;
      }
      if !world[attempt].waited {
        err := Some(ContextEnded);
        assert Returns(r, sent, nobody, err);
        break;
      }
      tried := tried + {nodes.all[node.value].address};
    }
  }

  // ----- what every call keeps to -----

  /** Each request changes the breaker of its own node only, and leaves none of its
      probes unanswered. */
  lemma AnswersItsProbe(s: Sent)
    requires SentOk(s)
    ensures forall i :: 0 <= i < |s.peers| && i != s.node ==> s.after[i] == s.peers[i]
    ensures s.peers[s.node].policy.failAfter > 0 ==> !s.after[s.node].h.state.HalfOpen?
  {
  }

  /** Request k has the address of the one before it among those tried. */
  predicate AddedAt(sent: seq<Sent>, k: int)
    requires 0 < k < |sent|
  {
    sent[k - 1].node < |sent[k - 1].peers| && sent[k].tried == Tried(sent[k - 1])
  }

  predicate AddsUp(sent: seq<Sent>) { forall k :: 0 < k < |sent| ==> AddedAt(sent, k) }

  lemma ProperAddsUp(r: Rules, sent: seq<Sent>)
    requires Proper(r, sent)
    ensures AddsUp(sent)
  {
    forall k | 0 < k < |sent| ensures AddedAt(sent, k) {
      ProperAt(r, sent, k);
      ProperAt(r, sent, k - 1);
    }
  }

  lemma {:induction false} TriedSoFar(sent: seq<Sent>, j: nat, k: nat)
    requires AddsUp(sent) && j < k < |sent|
    ensures sent[j].node < |sent[j].peers| && sent[j].peers[sent[j].node].address in sent[k].tried
  {
    assert AddedAt(sent, k);
    if j < k - 1 {
      TriedSoFar(sent, j, k - 1);
    }
  }

  /** The address a request went to. */
  function Address(s: Sent): string { if s.node < |s.peers| then s.peers[s.node].address else "" }

  /** No address gets a second request while an address without one would take it. */
  lemma NoNodeTwice(r: Rules, sent: seq<Sent>, j: nat, k: nat)
    requires Proper(r, sent) && j < k < |sent|
    requires Address(sent[j]) == Address(sent[k])
    ensures !SomeFresh(sent[k].peers, sent[k].tried, sent[k].a.pickAt)
  {
    ProperAddsUp(r, sent);
    TriedSoFar(sent, j, k);
    ProperAt(r, sent, k);
    ChoicePrefersUntried(sent[k].peers, sent[k].tried, sent[k].start, sent[k].a.pickAt);
  }

  /** A call with two nodes: the near one is healthy, the far one has cooled down.
      The first request goes to the near one, which refuses it as about itself. */
  function Refusal(p: Policy, e: Failure): Sent
    requires MovesOn(e)
  {
    var near, far := Peer("near", p, HEALTHY), Peer("far", p, Health(Open, 1, 0));
    var a := Attempt(p.openFor, Some(e), false, p.openFor, false, p.openFor, 0, true);
    Sent([near, far], {}, 0, 0, a, [near.(h := Health(Closed, 1, 0)), far], Some(0), BackAgain(p).peers)
  }

  /** The second one. */
  function BackAgain(p: Policy): Sent
  {
    var near, far := Peer("near", p, HEALTHY), Peer("far", p, Health(HalfOpen, 1, 0));
    var a := Attempt(p.openFor, None, false, p.openFor, false, p.openFor, 0, true);
    Sent([near.(h := Health(Closed, 1, 0)), far], {"near"}, 1, 0, a, [near, far], None, [near, far])
  }

  lemma RefusalOk(p: Policy, e: Failure)
    requires p.failAfter > 1 && MovesOn(e)
    ensures var s := Refusal(p, e);
            SentOk(s) && FirstFresh(s.after, Tried(s), s.a.checkAt, 1)
  {
    var s := Refusal(p, e);
    assert Turn(0, 0, 2) == 0 && FirstReady(s.peers, {}, false, 0, 0, p.openFor) == 0;
    assert FirstFresh(s.after, Tried(s), s.a.checkAt, 1);
    TestedFirst(s.after, Tried(s), s.a.checkAt, 1);
  }

  lemma BackAgainOk(p: Policy)
    requires p.failAfter > 1
    ensures var t := BackAgain(p); SentOk(t) && !SomeFresh(t.peers, t.tried, t.a.pickAt)
  {
    var t := BackAgain(p);
    ChoicePrefersUntried(t.peers, t.tried, 1, p.openFor);
    assert Takes(t.peers[0], p.openFor) && !Takes(t.peers[1], p.openFor);
  }

  lemma PairInOrder(r: Rules, s: Sent, t: Sent)
    requires SentOk(s) && SentOk(t) && s.tried == {} && Follows(r, s, t) && r.limit >= 2
    ensures Proper(r, [s, t])
  {
    assert [s, t][..1] == [s] && [s][..0] == [];
  }

  /** The check for an untried node hides the node it finds: the far node would take
      the second request, and the call goes back to the near one all the same. */
  lemma CheckHidesANode(p: Policy, e: Failure)
    requires p.failAfter > 1 && MovesOn(e)
    ensures var s, t := Refusal(p, e), BackAgain(p);
            Proper(Rules(2, false), [s, t]) && SomeFresh(s.after, Tried(s), t.a.pickAt) && t.node == s.node
  {
    RefusalOk(p, e);
    BackAgainOk(p);
    var s, t := Refusal(p, e), BackAgain(p);
    PairInOrder(Rules(2, false), s, t);
  }

  /** Node i has had its probe let go and takes no request until that one is answered. */
  predicate AwaitsProbe(peers: seq<Peer>, i: nat)
  {
    i < |peers| && peers[i].policy.failAfter > 0 && peers[i].h.state.HalfOpen?
  }

  /** The check for an untried node after request s uses up the probe of node i, the
      first it finds to be ready, although it sends nothing there. */
  predicate TakesProbe(s: Sent, i: nat)
  {
    s.delay.Some? && s.a.err.Some? && MovesOn(s.a.err.value) && s.node < |s.peers|
    && FirstFresh(s.after, Tried(s), s.a.checkAt, i)
    && s.after[i].policy.failAfter > 0 && s.after[i].h.state.Open?
  }

  /** Over every call, a node is left waiting for its probe exactly when it was before,
      or a check for an untried node used that probe up. */
  lemma LeavesNoProbe(r: Rules, sent: seq<Sent>, i: nat)
    requires Proper(r, sent) && sent != []
    ensures AwaitsProbe(sent[|sent| - 1].left, i)
            <==> AwaitsProbe(sent[0].peers, i) || exists k: nat :: k < |sent| && TakesProbe(sent[k], i)
  {
    ProbesSoFar(r, sent, i, |sent| - 1);
  }

  lemma {:induction false} ProbesSoFar(r: Rules, sent: seq<Sent>, i: nat, k: nat)
    requires Proper(r, sent) && k < |sent|
    ensures AwaitsProbe(sent[k].left, i)
            <==> AwaitsProbe(sent[0].peers, i) || exists j: nat :: j <= k && TakesProbe(sent[j], i)
  {
    ProperAt(r, sent, k);
    ProbesOf(sent[k], i);
    if k > 0 {
      ProbesSoFar(r, sent, i, k - 1);
    }
  }

  /** One request: the pick lets a probe go and its answer, or its end, brings it back. */
  lemma ProbesOf(s: Sent, i: nat)
    requires SentOk(s)
    ensures AwaitsProbe(s.left, i) <==> AwaitsProbe(s.peers, i) || TakesProbe(s, i)
  {
    ChoicePrefersUntried(s.peers, s.tried, s.start, s.a.pickAt);
    AnswersItsProbe(s);
    if s.delay.Some? && MovesOn(s.a.err.value) {
      ProbesTested(s.after, Tried(s), s.a.checkAt, i);
    }
  }

  lemma ProbesTested(peers: seq<Peer>, tried: set<string>, now: int, i: nat)
    ensures AwaitsProbe(Tested(peers, tried, now), i)
            <==> AwaitsProbe(peers, i)
                 || (FirstFresh(peers, tried, now, i) && peers[i].policy.failAfter > 0 && peers[i].h.state.Open?)
  {
    if SomeFresh(peers, tried, now) {
      var e := Earliest(peers, tried, now);
      TestedFirst(peers, tried, now, e);
    } else {
      TestedNone(peers, tried, now);
    }
  }

  /** Request k of a call goes to an address that it has tried, although without the
      check before it a node with another one would take it. */
  predicate PassesOver(sent: seq<Sent>, k: nat)
  {
    0 < k < |sent|
    && Address(sent[k]) in sent[k].tried && SomeFresh(sent[k - 1].after, sent[k].tried, sent[k].a.pickAt)
  }

  /** Node i is the only untried one that would take a request. */
  predicate OnlyFresh(peers: seq<Peer>, tried: set<string>, now: int, i: nat)
  {
    i < |peers| && forall j :: 0 <= j < |peers| ==> (Fresh(peers[j], tried, now) <==> j == i)
  }

  /** The check before request k has used up the probe of node i, the only such node. */
  predicate Hides(sent: seq<Sent>, k: nat, i: nat)
  {
    0 < k < |sent|
    && TakesProbe(sent[k - 1], i) && OnlyFresh(sent[k - 1].after, sent[k].tried, sent[k].a.pickAt, i)
  }

  /** Over every call, that happens exactly when the check has hidden such a node. */
  lemma PassesOverIff(r: Rules, sent: seq<Sent>, k: nat)
    requires Proper(r, sent) && 0 < k < |sent|
    ensures PassesOver(sent, k) <==> exists i: nat :: Hides(sent, k, i)
  {
    var s, t := sent[k - 1], sent[k];
    ProperAt(r, sent, k - 1);
    ProperAt(r, sent, k);
    ChoicePrefersUntried(t.peers, t.tried, t.start, t.a.pickAt);
    if i: nat :| Hides(sent, k, i) {
      HiddenByCheck(s, t.a.pickAt, i);
    }
    if PassesOver(sent, k) {
      var i := HidingCheck(s, t.a.pickAt);
      assert Hides(sent, k, i);
    }
  }

  lemma HiddenByCheck(s: Sent, now: int, i: nat)
    requires SentOk(s) && TakesProbe(s, i) && OnlyFresh(s.after, Tried(s), now, i)
    ensures SomeFresh(s.after, Tried(s), now) && !SomeFresh(s.left, Tried(s), now)
  {
    TestedFirst(s.after, Tried(s), s.a.checkAt, i);
    assert Fresh(s.after[i], Tried(s), now);
  }

  lemma HidingCheck(s: Sent, now: int) returns (i: nat)
    requires SentOk(s) && SomeFresh(s.after, Tried(s), now) && !SomeFresh(s.left, Tried(s), now)
    ensures TakesProbe(s, i) && OnlyFresh(s.after, Tried(s), now, i)
  {
    if !SomeFresh(s.after, Tried(s), s.a.checkAt) { TestedNone(s.after, Tried(s), s.a.checkAt); }
    assert s.left != s.after;
    i := Earliest(s.after, Tried(s), s.a.checkAt);
    TestedFirst(s.after, Tried(s), s.a.checkAt, i);
    forall j | 0 <= j < |s.after| && j != i ensures !Fresh(s.after[j], Tried(s), now) {
      assert s.left[j] == s.after[j];
    }
  }

  /** The same check can make a call give up.  Over every call that finds no node for its
      next request, an untried one would have taken it but for the check if and only if
      the check used up the probe of the only such node. */
  lemma GivesUpIff(c: Call, sent: seq<Sent>)
    requires SoFar(c, sent) && sent != [] && |sent| < |c.world|
    requires forall p <- sent[|sent| - 1].left :: !Takes(p, c.world[|sent|].pickAt)
    ensures var s, now := sent[|sent| - 1], c.world[|sent|].pickAt;
            s.node < |s.peers|
            && (SomeFresh(s.after, Tried(s), now)
                <==> exists i: nat :: TakesProbe(s, i) && OnlyFresh(s.after, Tried(s), now, i))
  {
    var s, now := sent[|sent| - 1], c.world[|sent|].pickAt;
    ProperAt(c.r, sent, |sent| - 1);
    if SomeFresh(s.after, Tried(s), now) {
      var i := HidingCheck(s, now);
    }
    if i: nat :| TakesProbe(s, i) && OnlyFresh(s.after, Tried(s), now, i) {
      HiddenByCheck(s, now, i);
    }
  }

  /** Such a call: the near node refuses the request and its breaker opens, the check
      uses up the probe of the far one, and the call returns the refusal. */
  function Stranding(p: Policy, e: Failure): Sent
    requires MovesOn(e)
  {
    var s, tripped := Refusal(p, e), Health(Open, 1, p.openFor);
    s.(after := [s.peers[0].(h := tripped), s.peers[1]],
       left := [s.peers[0].(h := tripped), s.peers[1].(h := Health(HalfOpen, 1, 0))])
  }

  lemma CheckStrandsACall(p: Policy, e: Failure)
    requires p.failAfter == 1 && p.openFor > 0 && MovesOn(e)
    ensures var s, r := Stranding(p, e), Rules(2, false);
            Proper(r, [s]) && Returns(r, [s], true, Some(e)) && (forall q <- s.left :: !Takes(q, p.openFor))
            && s.node < |s.peers| && SomeFresh(s.after, Tried(s), p.openFor)
  {
    var s := Stranding(p, e);
    assert Turn(0, 0, 2) == 0 && FirstReady(s.peers, {}, false, 0, 0, p.openFor) == 0;
    assert FirstFresh(s.after, Tried(s), s.a.checkAt, 1);
    TestedFirst(s.after, Tried(s), s.a.checkAt, 1);
    assert s.after == s.peers[0 := Told(s.peers[0], s.a)];
    assert [s][..0] == [] && InOrder(Rules(2, false), []);
  }

  /** Over every call, another request follows exactly after a failure that may be tried
      again, that is not an uncertain one under cautious retries, and that the caller has
      waited out, as long as there are attempts and nodes left; and what the call returns
      is the error of its last request, unless the caller stopped waiting for the next. */
  lemma TriesAgainExactly(c: Call, sent: seq<Sent>, nobody: bool, err: Option<Failure>)
    requires SoFar(c, sent) && Returns(c.r, sent, nobody, err)
    ensures sent == [] ==> nobody && err == Some(Own(NoNodes))
    ensures forall k: nat :: k < |sent| - 1 ==>
              var a := sent[k].a;
              a.err.Some? && Retryable(a.err.value) && !(c.r.cautious && Uncertain(a.err.value))
              && !a.ended && !a.endedSince && a.waited
    ensures sent != [] ==>
              var a := sent[|sent| - 1].a;
              (err.None? <==> a.err.None?)
              && (a.err.Some? && |sent| < c.r.limit && !nobody ==>
                    !Retryable(a.err.value) || (c.r.cautious && Uncertain(a.err.value))
                    || a.ended || a.endedSince || !a.waited)
              && (a.err.Some? && nobody ==> err == a.err)
              && (a.err.Some? && !nobody ==>
                    err == if |sent| < c.r.limit && Retryable(a.err.value) && !(c.r.cautious && Uncertain(a.err.value))
                              && !a.ended && !a.endedSince
                           then Some(ContextEnded) else a.err)
  {
    forall k: nat | k < |sent| - 1
      ensures var a := sent[k].a;
              a.err.Some? && Retryable(a.err.value) && !(c.r.cautious && Uncertain(a.err.value))
              && !a.ended && !a.endedSince && a.waited
    {
      ProperAt(c.r, sent, k + 1);
    }
  }

  /** A node is told of exactly one request what became of it, after it was asked for it. */
  lemma ToldWhatBecameOfIt(s: Sent)
    requires SentOk(s)
    ensures var peer, a := s.peers[s.node], s.a;
            var seen := if a.err.Some? && a.ended then GaveUp(a.doneAt) else Saw(a.err, a.doneAt);
            s.after[s.node] == peer.(h := Next(peer.policy, Next(peer.policy, peer.h, Ask(a.pickAt)), seen))
  {
  }

  /** Which of the requests were carried out: only one that succeeds, or fails in a
      way that is classed uncertain, can be. */
  predicate CertainFailuresNotApplied(sent: seq<Sent>, landed: seq<bool>)
  {
    |landed| == |sent|
    && forall k :: 0 <= k < |sent| && landed[k] ==> sent[k].a.err.None? || Uncertain(sent[k].a.err.value)
  }

  /** Under cautious retries nothing is sent after a request that may have been
      carried out, so a change lands at most once. */
  lemma CautiousLandsOnce(r: Rules, sent: seq<Sent>, landed: seq<bool>, j: nat, k: nat)
    requires Proper(r, sent) && r.cautious && CertainFailuresNotApplied(sent, landed) && j < k < |sent|
    ensures !landed[j] && sent[j].a.err.Some? && !Uncertain(sent[j].a.err.value)
  {
    ProperAt(r, sent, j + 1);
  }

  /** Without them a call that ends well can land its change twice exactly when a
      failure that is tried again is an uncertain one. */
  lemma LandsTwiceOnlyAfterUncertain(r: Rules, sent: seq<Sent>)
    requires Proper(r, sent) && sent != [] && sent[|sent| - 1].a.err.None?
    ensures (exists landed: seq<bool> :: LandsTwice(sent, landed))
            <==> exists j: nat :: j < |sent| - 1 && sent[j].a.err.Some? && Uncertain(sent[j].a.err.value)
  {
    forall j: nat | j < |sent| - 1 ensures sent[j].a.err.Some? { ProperAt(r, sent, j + 1); }
    LandsTwiceIff(sent);
  }

  predicate LandsTwice(sent: seq<Sent>, landed: seq<bool>)
  {
    CertainFailuresNotApplied(sent, landed) && exists j: nat, k: nat :: j < k < |sent| && landed[j] && landed[k]
  }

  lemma LandsTwiceIff(sent: seq<Sent>)
    requires sent != [] && sent[|sent| - 1].a.err.None? && forall j: nat | j < |sent| - 1 :: sent[j].a.err.Some?
    ensures (exists landed: seq<bool> :: LandsTwice(sent, landed))
            <==> exists j: nat :: j < |sent| - 1 && sent[j].a.err.Some? && Uncertain(sent[j].a.err.value)
  {
    if j: nat :| j < |sent| - 1 && sent[j].a.err.Some? && Uncertain(sent[j].a.err.value) {
      var landed := seq(|sent|, i => i == j || i == |sent| - 1);
      assert landed[j] && landed[|sent| - 1];
      assert LandsTwice(sent, landed);
    }
  }

  /** A server that asks for a delay gets it, unless its answer was a certain 503 and
      an untried node is there to try: never is an uncertain failure hurried. */
  lemma RetryAfterIsHonoured(s: Sent)
    requires SentOk(s) && s.delay.Some? && s.a.err.value.Api? && s.a.err.value.retryAfter > 0
    ensures s.delay.value == s.a.err.value.retryAfter || s.delay.value == s.a.backoff
    ensures Uncertain(s.a.err.value) || s.a.err.value.status != 503 || !SomeFresh(s.after, Tried(s), s.a.checkAt) ==>
              s.delay.value == s.a.err.value.retryAfter
    ensures s.a.err.value.status == 503 && !Uncertain(s.a.err.value) && SomeFresh(s.after, Tried(s), s.a.checkAt) ==>
              s.delay.value == s.a.backoff
  {
  }

  /** Anything else is tried again after the backoff. */
  lemma BackoffOtherwise(s: Sent)
    requires SentOk(s) && s.delay.Some? && !(s.a.err.value.Api? && s.a.err.value.retryAfter > 0)
    ensures s.delay.value == s.a.backoff
  {
  }
}

/** Choosing a node for each attempt of a call. */
module Nodes {
  import opened Common
  import opened Breaker

  /** A node as a value: its address, its breaker's policy and its health. */
  datatype Peer = Peer(address: string, policy: Policy, h: Health)

  predicate Takes(peer: Peer, now: int) { Admits(peer.policy, peer.h, now) }

  predicate Fresh(peer: Peer, tried: set<string>, now: int) { peer.address !in tried && Takes(peer, now) }

  predicate SomeFresh(peers: seq<Peer>, tried: set<string>, now: int)
  {
    exists i :: 0 <= i < |peers| && Fresh(peers[i], tried, now)
  }

  /** The node of peers with its readiness asked. */
  function AskedAt(peers: seq<Peer>, i: nat, now: int): seq<Peer>
    requires i < |peers|
  {
    peers[i := peers[i].(h := Asked(peers[i].policy, peers[i].h, now))]
  }

  /** Position k of the round that starts at start. */
  function Turn(start: nat, k: nat, count: nat): nat
    requires count > 0
  {
    (start + k) % count
  }

  /** The first position from k on whose node would take the request, among those
      not tried unless any will do; the number of nodes if there is none. */
  function FirstReady(peers: seq<Peer>, tried: set<string>, any: bool, start: nat, k: nat, now: int): (r: nat)
    requires k <= |peers|
    ensures k <= r <= |peers|
    decreases |peers| - k
  {
    if k == |peers| then k
    else
      var peer := peers[Turn(start, k, |peers|)];
      if (any || peer.address !in tried) && Takes(peer, now) then k
      else FirstReady(peers, tried, any, start, k + 1, now)
  }

  /** The node that pick returns. */
  function Choice(peers: seq<Peer>, tried: set<string>, start: nat, now: int): Option<nat>
  {
    if peers == [] then None
    else
      var k := FirstReady(peers, tried, false, start, 0, now);
      if k < |peers| then Some(Turn(start, k, |peers|))
      else
        var j := FirstReady(peers, tried, true, start, 0, now);
        if j < |peers| then Some(Turn(start, j, |peers|)) else None
  }

  lemma {:induction false} FirstReadyIsFirst(peers: seq<Peer>, tried: set<string>, any: bool,
                                             start: nat, k: nat, now: int)
    requires k <= |peers| && peers != []
    ensures var r := FirstReady(peers, tried, any, start, k, now);
            (r < |peers| ==>
               var peer := peers[Turn(start, r, |peers|)]; (any || peer.address !in tried) && Takes(peer, now))
            && forall j {:trigger Turn(start, j, |peers|)} :: k <= j < r ==>
              var peer := peers[Turn(start, j, |peers|)]; !((any || peer.address !in tried) && Takes(peer, now))
    decreases |peers| - k
  {
    if k < |peers| {
      FirstReadyIsFirst(peers, tried, any, start, k + 1, now);
    }
  }

  /** A round visits every node. */
  lemma RoundVisits(start: nat, i: nat, count: nat) returns (k: nat)
    requires i < count
    ensures k < count && Turn(start, k, count) == i
  {
    var q, s := start / count, start % count;
    assert start == count * q + s;
    Remainder(q, i, count);
    Remainder(q + 1, i, count);
    OneMoreTime(count, q);
    if s <= i {
      k := i - s;
      assert start + k == count * q + i;
    } else {
      k := i + count - s;
      assert start + k == count * (q + 1) + i;
    }
  }

  lemma Remainder(q: nat, i: nat, count: nat)
    requires i < count
    ensures (count * q + i) % count == i
  {
    var x := count * q + i;
    var d := x / count;
    if d < q {
      TimesOrder(count, d + 1, q);
    } else if d > q {
      TimesOrder(count, q + 1, d);
    }
  }

  /** pick fails only when no node at all would take the request, returns a node
      that would, and one already tried only when none of the others would. */
  lemma ChoicePrefersUntried(peers: seq<Peer>, tried: set<string>, start: nat, now: int)
    ensures match Choice(peers, tried, start, now)
            case None => forall i :: 0 <= i < |peers| ==> !Takes(peers[i], now)
            case Some(i) =>
              i < |peers| && Takes(peers[i], now) && (Fresh(peers[i], tried, now) <==> SomeFresh(peers, tried, now))
  {
    if peers != [] {
      FirstReadyIsFirst(peers, tried, false, start, 0, now);
      FirstReadyIsFirst(peers, tried, true, start, 0, now);
      forall i | 0 <= i < |peers|
        ensures Fresh(peers[i], tried, now) ==> FirstReady(peers, tried, false, start, 0, now) < |peers|
        ensures Takes(peers[i], now) ==> FirstReady(peers, tried, true, start, 0, now) < |peers|
      {
        var k := RoundVisits(start, i, |peers|);
      }
    }
  }

  /** Of the nodes it may choose from, the untried ones unless none of those would take
      the request, pick returns the first in the round that starts at start. */
  lemma ChoiceIsFirstInTheRound(peers: seq<Peer>, tried: set<string>, start: nat, now: int) returns (k: nat)
    requires peers != [] && exists i :: 0 <= i < |peers| && Takes(peers[i], now)
    ensures k < |peers| && Choice(peers, tried, start, now) == Some((start + k) % |peers|)
    ensures var all := !SomeFresh(peers, tried, now);
            forall j {:trigger Turn(start, j, |peers|)} :: 0 <= j < k ==>
              var peer := peers[Turn(start, j, |peers|)];
              !(Takes(peer, now) && (all || peer.address !in tried))
  {
    ChoicePrefersUntried(peers, tried, start, now);
    FirstReadyIsFirst(peers, tried, false, start, 0, now);
    FirstReadyIsFirst(peers, tried, true, start, 0, now);
    k := FirstReady(peers, tried, false, start, 0, now);
    if k == |peers| { k := FirstReady(peers, tried, true, start, 0, now); }
    assert (start + k) % |peers| == Turn(start, k, |peers|);
    if !SomeFresh(peers, tried, now) { NoneFresh(peers, tried, start, now); }
  }

  lemma NoneFresh(peers: seq<Peer>, tried: set<string>, start: nat, now: int)
    requires peers != [] && !SomeFresh(peers, tried, now)
    ensures FirstReady(peers, tried, false, start, 0, now) == |peers|
  {
    FirstReadyIsFirst(peers, tried, false, start, 0, now);
    var r := FirstReady(peers, tried, false, start, 0, now);
    if r < |peers| { assert Fresh(peers[Turn(start, r, |peers|)], tried, now); }
  }

  /** As long as every node takes requests, picks for new calls go round the nodes in turn. */
  lemma RoundRobin(peers: seq<Peer>, start: nat, now: int)
    requires peers != [] && forall i :: 0 <= i < |peers| ==> Takes(peers[i], now)
    ensures Choice(peers, {}, start, now) == Some(start % |peers|)
  {
    assert Turn(start, 0, |peers|) == start % |peers|;
  }

  /** The nodes after a check for an untried one: the first of them that would take
      a request has been asked as if it were to get one. */
  function Tested(peers: seq<Peer>, tried: set<string>, now: int): (after: seq<Peer>)
    ensures |after| == |peers|
  {
    if peers == [] then []
    else if Fresh(peers[0], tried, now) then AskedAt(peers, 0, now)
    else [peers[0]] + Tested(peers[1..], tried, now)
  }

  /** Node i is the first untried one that would take a request. */
  predicate FirstFresh(peers: seq<Peer>, tried: set<string>, now: int, i: nat)
  {
    i < |peers| && Fresh(peers[i], tried, now) && forall j :: 0 <= j < i ==> !Fresh(peers[j], tried, now)
  }

  lemma {:induction false} TestedFirst(peers: seq<Peer>, tried: set<string>, now: int, i: nat)
    requires FirstFresh(peers, tried, now, i)
    ensures Tested(peers, tried, now) == AskedAt(peers, i, now)
  {
    if i > 0 {
      assert forall j :: 0 <= j < i - 1 ==> peers[1..][j] == peers[j + 1];
      TestedFirst(peers[1..], tried, now, i - 1);
    }
  }

  lemma {:induction false} TestedNone(peers: seq<Peer>, tried: set<string>, now: int)
    requires !SomeFresh(peers, tried, now)
    ensures Tested(peers, tried, now) == peers
  {
    if peers != [] {
      assert forall j :: 0 <= j < |peers| - 1 ==> peers[1..][j] == peers[j + 1];
      TestedNone(peers[1..], tried, now);
    }
  }

  /** The check for an untried node is nothing but a check exactly when the first
      one it finds is not a cooled down node. */
  lemma TestIsPureIff(peers: seq<Peer>, tried: set<string>, now: int)
    ensures Tested(peers, tried, now) == peers
            <==> forall i: nat :: FirstFresh(peers, tried, now, i) ==>
                   peers[i].policy.failAfter <= 0 || peers[i].h.state.Closed?
  {
    if SomeFresh(peers, tried, now) {
      var i := Earliest(peers, tried, now);
      TestedFirst(peers, tried, now, i);
      assert Tested(peers, tried, now)[i] == AskedAt(peers, i, now)[i];
    } else {
      TestedNone(peers, tried, now);
    }
  }

  lemma {:induction false} Earliest(peers: seq<Peer>, tried: set<string>, now: int) returns (i: nat)
    requires SomeFresh(peers, tried, now)
    ensures FirstFresh(peers, tried, now, i)
  {
    i := 0;
    while !Fresh(peers[i], tried, now)
      invariant i < |peers| && forall j :: 0 <= j < i ==> !Fresh(peers[j], tried, now)
      decreases |peers| - i
    {
      i := i + 1;
    }
  }

  class NodeSet {
    const all: seq<Node>
    var next: nat

    constructor (all: seq<Node>)
      ensures this.all == all && next == 0
    {
      this.all, next := all, 0;
    }

    ghost predicate Distinct() { forall j, k :: 0 <= j < k < |all| ==> all[j] != all[k] }

    ghost function Peers(): (peers: seq<Peer>)
      reads all
      ensures |peers| == |all|
      ensures forall i :: 0 <= i < |all| ==> peers[i] == Peer(all[i].address, all[i].policy, all[i].Value())
    {
      seq(|all|, i requires 0 <= i < |all| reads all => Peer(all[i].address, all[i].policy, all[i].Value()))
    }

    method Pick(tried: set<string>, now: int) returns (r: Option<nat>)
      requires Distinct()
      modifies this, all
      ensures r == Choice(old(Peers()), tried, old(next), now)
      ensures r.Some? ==> r.value < |all|
      ensures Peers() == if r.Some? then AskedAt(old(Peers()), r.value, now) else old(Peers())
      ensures next == old(next) + (if |all| == 0 then 0 else 1)
    {
      var count := |all|;
      if count == 0 { return None; }
      var start := next;
      next := next + 1;
      r := Look(tried, false, start, now);
      if r.None? { r := Look(tried, true, start, now); }
    }

    /** One round over the nodes, asking each that may be chosen. */
    method Look(tried: set<string>, any: bool, start: nat, now: int) returns (r: Option<nat>)
      requires Distinct() && |all| > 0
      modifies all
      ensures var k := FirstReady(old(Peers()), tried, any, start, 0, now);
              if k == |all| then r == None && Peers() == old(Peers())
              else r == Some(Turn(start, k, |all|)) && Peers() == AskedAt(old(Peers()), r.value, now)
    {
      ghost var peers := Peers();
      for k := 0 to |all|
        invariant Peers() == peers
        invariant FirstReady(peers, tried, any, start, 0, now) == FirstReady(peers, tried, any, start, k, now)
      {
        var i := Turn(start, k, |all|);
        if any || all[i].address !in tried {
          var ok := all[i].Ready(now);
          if ok {
            assert Peers() == AskedAt(peers, i, now);
            return Some(i);
          }
          assert Peers() == peers;
        }
      }
      return None;
    }

    method Untried(tried: set<string>, now: int) returns (found: bool)
      requires Distinct()
      modifies all
      ensures found == SomeFresh(old(Peers()), tried, now)
      ensures Peers() == Tested(old(Peers()), tried, now)
    {
      ghost var peers := Peers();
      for i := 0 to |all|
        invariant Peers() == peers && forall j :: 0 <= j < i ==> !Fresh(peers[j], tried, now)
      {
        if all[i].address !in tried {
          var ok := all[i].Ready(now);
          if ok {
            TestedFirst(peers, tried, now, i);
            assert Peers() == AskedAt(peers, i, now);
            return true;
          }
          assert Peers() == peers;
        }
      }
      TestedNone(peers, tried, now);
      return false;
    }
  }
}

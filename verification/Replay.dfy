/** Reading a partition's log back, and waiting out the failures that clear by
    themselves. */
module Replay {
  import opened Common
  import opened Errors

  // ----- patience -----

  /** How long one unbroken run of failures may last, and the backoff's base. */
  datatype Bounds = Bounds(limit: int, base: int)

  /** A run of failures: when it began, none while there is none, and how many waits
      it has been granted. */
  datatype Streak = Streak(start: Option<int>, tries: nat)

  const CALM := Streak(None, 0)

  /** One call of wait: whether the caller's context had ended, the clock, the
      backoff drawn, and whether the sleep finishes. */
  datatype Moment = Moment(ended: bool, now: int, backoff: int, slept: bool)

  function Floor(b: Bounds): int { if b.base <= 0 then 50_000_000 else b.base }

  /** The sleep that wait asks for after e. */
  function Sleep(b: Bounds, e: Failure, m: Moment): int
  {
    var d := RetryDelay(e, m.backoff);
    if d < Floor(b) then Floor(b) else d
  }

  predicate Considers(e: Failure, m: Moment) { !m.ended && Retryable(e) }

  function StartOf(s: Streak, m: Moment): int { if s.start.None? then m.now else s.start.value }

  /** Whether wait sleeps at all. */
  predicate Grants(b: Bounds, s: Streak, e: Failure, m: Moment)
  {
    Considers(e, m) && m.now - StartOf(s, m) + Sleep(b, e, m) <= b.limit
  }

  function AfterWait(b: Bounds, s: Streak, e: Failure, m: Moment): Streak
  {
    if !Considers(e, m) then s else Streak(Some(StartOf(s, m)), if Grants(b, s, e, m) then s.tries + 1 else s.tries)
  }

  class Patience {
    const bounds: Bounds
    var start: Option<int>
    var tries: nat

    constructor (bounds: Bounds)
      ensures this.bounds == bounds && Value() == CALM
    {
      this.bounds, start, tries := bounds, None, 0;
    }

    function Value(): Streak
      reads this
    {
      Streak(start, tries)
    }

    method Wait(e: Failure, m: Moment) returns (again: bool)
      modifies this
      ensures again == (Grants(bounds, old(Value()), e, m) && m.slept)
      ensures Value() == AfterWait(bounds, old(Value()), e, m)
    {
      if m.ended || !Retryable(e) { return false; }
      if start.None? { start := Some(m.now); }
      var d := RetryDelay(e, m.backoff);
      var floor := if bounds.base <= 0 then 50_000_000 else bounds.base;
      if d < floor { d := floor; }
      if m.now - start.value + d > bounds.limit { return false; }
      tries := tries + 1;
      return m.slept;
    }

    method Reset()
      modifies this
      ensures Value() == CALM
    {
      start, tries := None, 0;
    }
  }

  /** A run of failures, each with the wait it asks for.  A sleep that finishes took
      at least as long as it was meant to. */
  datatype Wish = Wish(e: Failure, m: Moment)

  predicate Elapses(b: Bounds, wishes: seq<Wish>)
  {
    forall k :: 0 < k < |wishes| ==> wishes[k].m.now >= wishes[k - 1].m.now + Sleep(b, wishes[k - 1].e, wishes[k - 1].m)
  }

  function Waiting(b: Bounds, wishes: seq<Wish>): Streak
  {
    if wishes == [] then CALM
    else
      var w := wishes[|wishes| - 1];
      AfterWait(b, Waiting(b, wishes[..|wishes| - 1]), w.e, w.m)
  }

  /** Every wish of the run is granted. */
  predicate AllGranted(b: Bounds, wishes: seq<Wish>)
  {
    wishes == []
    || (var w, front := wishes[|wishes| - 1], wishes[..|wishes| - 1];
        AllGranted(b, front) && Grants(b, Waiting(b, front), w.e, w.m))
  }

  function Total(b: Bounds, wishes: seq<Wish>): int
  {
    if wishes == [] then 0
    else
      var w := wishes[|wishes| - 1];
      Total(b, wishes[..|wishes| - 1]) + Sleep(b, w.e, w.m)
  }

  lemma {:induction false} PatienceRuns(b: Bounds, wishes: seq<Wish>)
    requires Elapses(b, wishes) && AllGranted(b, wishes) && wishes != []
    ensures var w := wishes[|wishes| - 1];
            Waiting(b, wishes) == Streak(Some(wishes[0].m.now), |wishes|)
            && Total(b, wishes) <= w.m.now - wishes[0].m.now + Sleep(b, w.e, w.m) <= b.limit
  {
    if |wishes| > 1 {
      var front := wishes[..|wishes| - 1];
      PatienceRuns(b, front);
      assert front[|front| - 1] == wishes[|wishes| - 2];
    }
  }

  lemma {:induction false} WaitsAddUp(b: Bounds, wishes: seq<Wish>)
    ensures |wishes| * Floor(b) <= Total(b, wishes)
  {
    if wishes != [] {
      var n := |wishes| - 1;
      WaitsAddUp(b, wishes[..n]);
      assert |wishes| * Floor(b) == n * Floor(b) + Floor(b);
    }
  }

  /** The waits granted in one run of failures sum to at most the limit, so their
      number times the floor is at most the limit too. */
  lemma PatienceIsBounded(b: Bounds, wishes: seq<Wish>)
    requires Elapses(b, wishes) && AllGranted(b, wishes) && wishes != []
    ensures Total(b, wishes) <= b.limit && |wishes| * Floor(b) <= b.limit
  {
    PatienceRuns(b, wishes);
    WaitsAddUp(b, wishes);
  }

  // ----- reading a partition -----

  /** What a read of an offset gives: it has aged out or cannot be read, it fails, it
      has not been written, or its record, with the offset the record carries. */
  datatype Reading = Gone | Failed(e: Failure) | End | Record(offset: int)

  /** One turn of the loop: whether the context had ended at its top, what the read
      gives, the wait after it should it fail, and whether the handler fails. */
  datatype Turn = Turn(ended: bool, reading: Reading, m: Moment, refused: bool)

  datatype Outcome = Going | CaughtUp | Ended | GaveUp(e: Failure) | Refused

  /** Where a read stands: the offset it is at, its run of failures unless it waits
      for nothing, and the offsets of the records it has handed over. */
  datatype Progress = Progress(offset: int, streak: Option<Streak>, handed: seq<int>, outcome: Outcome)

  function Start(offset: int, patient: bool): Progress
  {
    Progress(offset, if patient then Some(CALM) else None, [], Going)
  }

  function Calm(s: Progress): Progress { if s.streak.Some? then s.(streak := Some(CALM)) else s }

  /** A negative offset is refused before it is sent. */
  function ReadAt(offset: int, r: Reading): Reading { if offset < 0 then Failed(Own(BadRequest)) else r }

  function Step(b: Bounds, s: Progress, t: Turn): Progress
  {
    if t.ended then s.(outcome := Ended)
    else
      match ReadAt(s.offset, t.reading)
      case Gone => Calm(s).(offset := s.offset + 1)
      case Failed(e) =>
        if s.streak.None? then s.(outcome := GaveUp(e))
        else
          var s' := s.(streak := Some(AfterWait(b, s.streak.value, e, t.m)));
          if Grants(b, s.streak.value, e, t.m) && t.m.slept then s' else s'.(outcome := GaveUp(e))
      case End => s.(outcome := CaughtUp)
      case Record(offset) =>
        var s' := Calm(s).(handed := s.handed + [offset]);
        if t.refused then s'.(outcome := Refused) else s'.(offset := offset + 1)
  }

  function Reads(b: Bounds, s: Progress, turns: seq<Turn>): Progress
    decreases |turns|
  {
    if turns == [] || !s.outcome.Going? then s else Reads(b, Step(b, s, turns[0]), turns[1..])
  }

  /** readFrom, for as many turns as the world gives it; patience is null for a read
      that waits for nothing. */
  method ReadFrom(b: Bounds, start: int, patience: Patience?, turns: seq<Turn>)
    returns (handed: seq<int>, outcome: Outcome)
    requires patience != null ==> patience.bounds == b && patience.Value() == CALM
    modifies patience
    ensures var s := Reads(b, Start(start, patience != null), turns); handed == s.handed && outcome == s.outcome
  {
    var offset, k := start, 0;
    handed, outcome := [], Going;
    ghost var s0 := Start(start, patience != null);
    while k < |turns|
      invariant 0 <= k <= |turns|
      invariant var streak := if patience != null then Some(patience.Value()) else None;
                Reads(b, s0, turns) == Reads(b, Progress(offset, streak, handed, Going), turns[k..])
    {
      var t := turns[k];
      assert turns[k..][0] == t && turns[k..][1..] == turns[k + 1..];
      k := k + 1;
      if t.ended { return handed, Ended; }
      match ReadAt(offset, t.reading) {
        case Gone =>
          if patience != null { patience.Reset(); }
          offset := offset + 1;
        case Failed(e) =>
          var again := false;
          if patience != null { again := patience.Wait(e, t.m); }
          if !again { return handed, GaveUp(e); }
        case End => return handed, CaughtUp;
        case Record(at) =>
          if patience != null { patience.Reset(); }
          handed := handed + [at];
          if t.refused { return handed, Refused; }
          offset := at + 1;
      }
    }
    return handed, Going;
  }

  // ----- replaying a topic -----

  datatype Stats = Stats(index: int, oldest: int, available: bool)

  datatype Info = Info(partitions: nat, stats: seq<Stats>)

  /** Describing the topic fails, or says how its partitions are. */
  datatype Description = Unknown(e: Failure) | Known(info: Info)

  datatype Look = Look(d: Description, m: Moment)

  predicate Available(info: Info) { forall k :: 0 <= k < |info.stats| ==> info.stats[k].available }

  /** Why the replay cannot start on this description. */
  function Trouble(d: Description): Option<Failure>
  {
    match d
    case Unknown(e) => Some(e)
    case Known(info) => if Available(info) then None else Some(Own(Unavailable))
  }

  /** A partition to read, and where from. */
  datatype Part = Part(index: int, from: int)

  function Parts(info: Info): seq<Part>
  {
    if info.stats == [] then seq(info.partitions, p => Part(p, 0))
    else seq(|info.stats|, k requires 0 <= k < |info.stats| => Part(info.stats[k].index, info.stats[k].oldest))
  }

  datatype Replayed = StillDescribing | NotDescribed(e: Failure) | Began(o: Outcome)

  datatype Described = Unsettled | Lacking(e: Failure) | Ready(info: Info)

  /** The first k looks all found trouble. */
  predicate Troubled(looks: seq<Look>, k: nat)
  {
    k <= |looks| && forall j :: 0 <= j < k ==> Trouble(looks[j].d).Some?
  }

  /** What those looks asked of the replay's patience. */
  function Wishes(looks: seq<Look>, k: nat): (wishes: seq<Wish>)
    requires Troubled(looks, k)
    ensures |wishes| == k
  {
    if k == 0 then [] else Wishes(looks, k - 1) + [Wish(Trouble(looks[k - 1].d).value, looks[k - 1].m)]
  }

  /** It waited out the first k looks. */
  predicate WaitedOut(b: Bounds, looks: seq<Look>, k: nat)
  {
    Troubled(looks, k) && AllGranted(b, Wishes(looks, k)) && forall j :: 0 <= j < k ==> looks[j].m.slept
  }

  lemma WaitsOutOneMore(b: Bounds, looks: seq<Look>, k: nat)
    requires WaitedOut(b, looks, k) && k < |looks| && Trouble(looks[k].d).Some?
    ensures var e, streak := Trouble(looks[k].d).value, Waiting(b, Wishes(looks, k));
            Troubled(looks, k + 1) && Waiting(b, Wishes(looks, k + 1)) == AfterWait(b, streak, e, looks[k].m)
            && (Grants(b, streak, e, looks[k].m) && looks[k].m.slept ==> WaitedOut(b, looks, k + 1))
  {
    assert Wishes(looks, k + 1)[..k] == Wishes(looks, k);
  }

  /** The part of a replay that waits for every partition to be readable, and how many
      looks it has waited out. */
  method Describe(b: Bounds, looks: seq<Look>) returns (r: Described, looked: nat)
    ensures WaitedOut(b, looks, looked) && EndsDescribing(b, looks, looked, r)
  {
    var describe := new Patience(b);
    var k := 0;
    while k < |looks|
      invariant 0 <= k <= |looks| && fresh(describe) && describe.bounds == b
      invariant WaitedOut(b, looks, k) && describe.Value() == Waiting(b, Wishes(looks, k))
    {
      var trouble := Trouble(looks[k].d);
      if trouble.None? { return Ready(looks[k].d.info), k; }
      WaitsOutOneMore(b, looks, k);
      var again := describe.Wait(trouble.value, looks[k].m);
      if !again { return Lacking(trouble.value), k; }
      k := k + 1;
    }
    return Unsettled, k;
  }

  /** Look looked is where the describing ended, and how. */
  predicate EndsDescribing(b: Bounds, looks: seq<Look>, looked: nat, r: Described)
    requires Troubled(looks, looked)
  {
    match r
    case Unsettled => looked == |looks|
    case Lacking(e) =>
      looked < |looks| && Trouble(looks[looked].d) == Some(e)
      && !(Grants(b, Waiting(b, Wishes(looks, looked)), e, looks[looked].m) && looks[looked].m.slept)
    case Ready(info) => looked < |looks| && looks[looked].d == Known(info) && Available(info)
  }

  /** What the world answers to the p-th read that a replay makes, of partition i. */
  type World = (nat, int) -> seq<Turn>

  function PartRead(b: Bounds, parts: seq<Part>, world: World, p: nat): Progress
    requires p < |parts|
  {
    Reads(b, Start(parts[p].from, true), world(p, parts[p].index))
  }

  /** Partitions are read one after the other, each only once the one before it has
      been read to its end; o is how the last one went. */
  predicate PartsRead(b: Bounds, parts: seq<Part>, world: World, handed: seq<seq<int>>, o: Outcome)
  {
    |handed| <= |parts|
    && (forall p :: 0 <= p < |handed| ==> handed[p] == PartRead(b, parts, world, p).handed)
    && (forall p :: 0 <= p < |handed| - 1 ==> PartRead(b, parts, world, p).outcome.CaughtUp?)
    && (handed != [] ==> o == PartRead(b, parts, world, |handed| - 1).outcome)
    && (o.CaughtUp? ==> |handed| == |parts|) && (handed == [] ==> o.CaughtUp?)
  }

  method ReadParts(b: Bounds, parts: seq<Part>, world: World) returns (handed: seq<seq<int>>, o: Outcome)
    ensures PartsRead(b, parts, world, handed, o)
  {
    handed, o := [], CaughtUp;
    for p := 0 to |parts|
      invariant |handed| == p && o.CaughtUp?
      invariant forall q :: 0 <= q < p ==>
        handed[q] == PartRead(b, parts, world, q).handed && PartRead(b, parts, world, q).outcome.CaughtUp?
    {
      var patience := new Patience(b);
      var records;
      records, o := ReadFrom(b, parts[p].from, patience, world(p, parts[p].index));
      handed := handed + [records];
      if !o.CaughtUp? { return; }
    }
  }

  /** What a replay comes to, and what it has handed over, one list for each partition
      it has started on. */
  predicate Replays(b: Bounds, looks: seq<Look>, world: World, handed: seq<seq<int>>, r: Replayed, looked: nat)
  {
    WaitedOut(b, looks, looked)
    && match r
       case StillDescribing => handed == [] && EndsDescribing(b, looks, looked, Unsettled)
       case NotDescribed(e) => handed == [] && EndsDescribing(b, looks, looked, Lacking(e))
       case Began(o) =>
         looked < |looks| && looks[looked].d.Known? && Available(looks[looked].d.info)
         && PartsRead(b, Parts(looks[looked].d.info), world, handed, o)
  }

  method Replay(b: Bounds, looks: seq<Look>, world: World)
    returns (handed: seq<seq<int>>, r: Replayed, looked: nat)
    ensures Replays(b, looks, world, handed, r, looked)
  {
    var d;
    d, looked := Describe(b, looks);
    match d
    case Unsettled => return [], StillDescribing, looked;
    case Lacking(e) => return [], NotDescribed(e), looked;
    case Ready(info) =>
      var o;
      handed, o := ReadParts(b, Parts(info), world);
      return handed, Began(o), looked;
  }
}

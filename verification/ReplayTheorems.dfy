/** What a replay hands over, and that it ends. */
module ReplayTheorems {
  import opened Common
  import opened Errors
  import opened Replay

  /** A partition's log at some time: the oldest offset that is kept, the next one to
      be written, and the offsets between them that cannot be read. */
  datatype Log = Log(oldest: int, high: int, holes: set<int>)

  predicate Retains(log: Log, offset: int) { log.oldest <= offset < log.high && offset !in log.holes }

  /** A reading that tells the truth about the log.  Any read may fail. */
  predicate True(log: Log, offset: int, r: Reading)
  {
    match r
    case Gone => offset < log.high && !Retains(log, offset)
    case Failed(_) => true
    case End => offset >= log.high
    case Record(at) => at == offset && Retains(log, offset)
  }

  /** Every reading of the run tells the truth about the log at its time. */
  predicate Truthful(b: Bounds, s: Progress, turns: seq<Turn>, logs: seq<Log>)
    requires |turns| == |logs|
    decreases |turns|
  {
    turns == [] || !s.outcome.Going?
    || (True(logs[0], s.offset, turns[0].reading) && Truthful(b, Step(b, s, turns[0]), turns[1..], logs[1..]))
  }

  /** So far the read has handed over records in strictly increasing order, all of
      them before the offset it is at. */
  predicate Ordered(s: Progress)
  {
    Increasing(s.handed)
    && forall k :: 0 <= k < |s.handed| ==> s.handed[k] < s.offset + (if s.outcome.Refused? then 1 else 0)
  }

  /** Whatever the log does and whichever reads fail, records are handed over in
      strictly increasing offset order, none twice. */
  lemma {:induction false} HandsOverInOrder(b: Bounds, s: Progress, turns: seq<Turn>, logs: seq<Log>)
    requires |turns| == |logs| && Truthful(b, s, turns, logs) && Ordered(s)
    ensures Ordered(Reads(b, s, turns))
    decreases |turns|
  {
    if turns != [] && s.outcome.Going? {
      HandsOverInOrder(b, Step(b, s, turns[0]), turns[1..], logs[1..]);
    }
  }

  /** The offsets of the log's records from one offset to another, in order. */
  function Records(log: Log, from: int, until: int): seq<int>
    decreases until - from
  {
    if from >= until then []
    else Records(log, from, until - 1) + (if Retains(log, until - 1) then [until - 1] else [])
  }

  lemma TruthfulRest(b: Bounds, s: Progress, turns: seq<Turn>, log: Log)
    requires turns != [] && s.outcome.Going? && Truthful(b, s, turns, seq(|turns|, _ => log))
    ensures True(log, s.offset, turns[0].reading)
    ensures Truthful(b, Step(b, s, turns[0]), turns[1..], seq(|turns| - 1, _ => log))
  {
    assert seq(|turns|, _ => log)[1..] == seq(|turns| - 1, _ => log);
  }

  /** What has been handed over is what the log retains up to where the read is. */
  predicate UpToDate(log: Log, start: int, s: Progress)
  {
    start <= s.offset && (start < s.offset ==> s.offset <= log.high)
    && s.handed == Records(log, start, if s.outcome.Refused? then s.offset + 1 else s.offset)
  }

  lemma StaysUpToDate(b: Bounds, start: int, s: Progress, t: Turn, log: Log)
    requires UpToDate(log, start, s) && s.outcome.Going? && True(log, s.offset, t.reading)
    ensures var s' := Step(b, s, t);
            UpToDate(log, start, s') && (s'.outcome.CaughtUp? ==> s'.handed == Records(log, start, log.high))
  {
    if s.offset >= log.high && start == s.offset { assert Records(log, start, log.high) == []; }
  }

  /** Over a log that does not change, with any pattern of failed reads, what has
      been handed over is exactly what the log retains up to where the read is; on
      a normal return, that is everything from the start to the end. */
  lemma {:induction false} HandsOverTheLog(b: Bounds, start: int, s: Progress, turns: seq<Turn>, log: Log)
    requires Truthful(b, s, turns, seq(|turns|, _ => log)) && s.outcome.Going? && UpToDate(log, start, s)
    ensures var f := Reads(b, s, turns);
            UpToDate(log, start, f) && (f.outcome.CaughtUp? ==> f.handed == Records(log, start, log.high))
    decreases |turns|
  {
    if turns != [] {
      var s' := Step(b, s, turns[0]);
      TruthfulRest(b, s, turns, log);
      StaysUpToDate(b, start, s, turns[0], log);
      if s'.outcome.Going? {
        HandsOverTheLog(b, start, s', turns[1..], log);
      } else {
        assert Reads(b, s', turns[1..]) == s';
      }
    }
  }

  /** Those are the retained offsets of that range, each once and in order. */
  lemma {:induction false} RecordsAre(log: Log, from: int, until: int)
    ensures Increasing(Records(log, from, until))
    ensures forall o :: o in Records(log, from, until) <==> from <= o < until && Retains(log, o)
    decreases until - from
  {
    if from < until {
      RecordsAre(log, from, until - 1);
      var front := Records(log, from, until - 1);
      forall k | 0 <= k < |front| ensures front[k] < until - 1 { assert front[k] in front; }
    }
  }

  /** A read of one partition from any offset. */
  lemma ReadFromHandsOverTheLog(b: Bounds, start: int, patient: bool, turns: seq<Turn>, log: Log)
    requires Truthful(b, Start(start, patient), turns, seq(|turns|, _ => log))
    ensures var f := Reads(b, Start(start, patient), turns);
            Increasing(f.handed)
            && (f.outcome.CaughtUp? ==> forall o :: o in f.handed <==> o >= start && Retains(log, o))
  {
    HandsOverTheLog(b, start, Start(start, patient), turns, log);
    var f := Reads(b, Start(start, patient), turns);
    RecordsAre(log, start, if f.outcome.Refused? then f.offset + 1 else f.offset);
    RecordsAre(log, start, log.high);
  }

  /** Over a live log too, everything handed over was retained when it was read, and
      on a normal return nothing that stayed retained throughout was missed. */
  lemma {:induction false} MissesNothing(b: Bounds, s: Progress, turns: seq<Turn>, logs: seq<Log>, offset: int)
    requires |turns| == |logs| && Truthful(b, s, turns, logs) && s.outcome.Going?
    requires forall k :: 0 <= k < |logs| ==> Retains(logs[k], offset)
    ensures var f := Reads(b, s, turns);
            f.outcome.CaughtUp? && s.offset <= offset ==> offset in f.handed
    decreases |turns|
  {
    if turns != [] {
      var s' := Step(b, s, turns[0]);
      if s'.outcome.Going? {
        MissesNothing(b, s', turns[1..], logs[1..], offset);
        if s.offset == offset < s'.offset {
          KeepsHanded(b, s', turns[1..], offset);
        }
      }
    }
  }

  lemma {:induction false} KeepsHanded(b: Bounds, s: Progress, turns: seq<Turn>, offset: int)
    requires offset in s.handed
    ensures offset in Reads(b, s, turns).handed
    decreases |turns|
  {
    if turns != [] && s.outcome.Going? {
      KeepsHanded(b, Step(b, s, turns[0]), turns[1..], offset);
    }
  }

  lemma {:induction false} HandsOverWhatIsThere(b: Bounds, s: Progress, turns: seq<Turn>, logs: seq<Log>, offset: int)
    requires |turns| == |logs| && Truthful(b, s, turns, logs)
    requires offset in Reads(b, s, turns).handed && offset !in s.handed
    ensures s.offset <= offset && exists k :: 0 <= k < |logs| && Retains(logs[k], offset)
    decreases |turns|
  {
    if turns != [] && s.outcome.Going? {
      var s' := Step(b, s, turns[0]);
      if offset in s'.handed {
        assert Retains(logs[0], offset);
      } else {
        HandsOverWhatIsThere(b, s', turns[1..], logs[1..], offset);
        var k :| 0 <= k < |logs| - 1 && Retains(logs[1..][k], offset);
        assert Retains(logs[k + 1], offset);
      }
    }
  }

  function Appended(m: Moment): seq<Turn>
  {
    [Turn(false, Record(0), m, false), Turn(false, Record(1), m, false), Turn(false, End, m, false)]
  }

  /** A replay of a live log does not stop at what existed when it started: a record
      appended while it runs is handed over as well. */
  lemma FollowsNewWrites(b: Bounds, m: Moment)
    ensures var turns := Appended(m);
            var logs := [Log(0, 1, {}), Log(0, 2, {}), Log(0, 2, {})];
            Truthful(b, Start(0, true), turns, logs) && !Retains(logs[0], 1)
            && Reads(b, Start(0, true), turns).outcome == CaughtUp && Reads(b, Start(0, true), turns).handed == [0, 1]
  {
    var turns := Appended(m);
    var logs := [Log(0, 1, {}), Log(0, 2, {}), Log(0, 2, {})];
    var s0 := Start(0, true);
    var s1 := Step(b, s0, turns[0]);
    var s2 := Step(b, s1, turns[1]);
    assert turns[1..] == [turns[1], turns[2]] && logs[1..] == [logs[1], logs[2]];
    assert turns[1..][1..] == [turns[2]] && logs[1..][1..] == [logs[2]];
    var s3 := Step(b, s2, turns[2]);
    assert Reads(b, s3, []) == s3 && Truthful(b, s3, [], []);
    assert Reads(b, s2, [turns[2]]) == s3 && Truthful(b, s2, [turns[2]], [logs[2]]);
    assert Reads(b, s1, turns[1..]) == s3 && Truthful(b, s1, turns[1..], logs[1..]);
    assert Reads(b, s0, turns) == s3 && Truthful(b, s0, turns, logs);
  }

  /** Turn k is the one that gets an answer for this offset. */
  predicate AnswersAt(b: Bounds, s: Progress, turns: seq<Turn>, k: nat, offset: int)
  {
    k < |turns| && !turns[k].ended && !turns[k].reading.Failed?
    && var p := Reads(b, s, turns[..k]); p.outcome.Going? && p.offset == offset
  }

  /** A read that returns normally has had an answer for the offset that was the log's
      end when it started, and stops there exactly when the log still ended there at
      that turn. */
  lemma {:induction false} StopsAtTheEndItMet(b: Bounds, s: Progress, turns: seq<Turn>, logs: seq<Log>, end: int)
    returns (k: nat)
    requires |turns| == |logs| && Truthful(b, s, turns, logs) && s.outcome.Going? && s.offset <= end
    requires forall k :: 0 <= k < |logs| ==> logs[k].high >= end
    requires Reads(b, s, turns).outcome.CaughtUp?
    ensures AnswersAt(b, s, turns, k, end)
    ensures Reads(b, s, turns).offset == end <==> logs[k].high == end
    decreases |turns|
  {
    var s' := Step(b, s, turns[0]);
    if s.offset == end && !turns[0].reading.Failed? {
      k := 0;
      OffsetGrows(b, s', turns[1..], logs[1..]);
    } else {
      var j := StopsAtTheEndItMet(b, s', turns[1..], logs[1..], end);
      assert turns[..j + 1][1..] == turns[1..][..j];
      k := j + 1;
    }
  }

  lemma {:induction false} OffsetGrows(b: Bounds, s: Progress, turns: seq<Turn>, logs: seq<Log>)
    requires |turns| == |logs| && Truthful(b, s, turns, logs)
    ensures Reads(b, s, turns).offset >= s.offset
    decreases |turns|
  {
    if turns != [] && s.outcome.Going? {
      OffsetGrows(b, Step(b, s, turns[0]), turns[1..], logs[1..]);
    }
  }

  // ----- a replay ends -----

  /** The clock does not run backwards, and a sleep that finishes takes its time. */
  predicate Clocked(b: Bounds, turns: seq<Turn>)
  {
    forall k :: 0 < k < |turns| ==>
      turns[k].m.now >= turns[k - 1].m.now
                        + (if turns[k - 1].reading.Failed? && turns[k - 1].m.slept
                           then Sleep(b, turns[k - 1].reading.e, turns[k - 1].m) else 0)
  }

  /** The most waits one run of failures is granted. */
  function MostWaits(b: Bounds): nat { if b.limit < 0 then 0 else b.limit / Floor(b) }

  function Tries(s: Progress): nat { if s.streak.None? then 0 else s.streak.value.tries }

  /** By now, the waits of the present run of failures have taken their time. */
  predicate Patient(b: Bounds, s: Progress, now: int)
  {
    s.streak.Some? && s.streak.value != CALM ==>
      s.streak.value.start.Some?
      && s.streak.value.tries * Floor(b) <= now - s.streak.value.start.value
      && s.streak.value.tries <= MostWaits(b)
  }

  lemma TriesFit(b: Bounds, n: nat)
    requires n * Floor(b) <= b.limit
    ensures n <= MostWaits(b)
  {
    var f, q := Floor(b), MostWaits(b);
    if n > q { TimesOrder(f, q + 1, n); }
  }

  lemma StepIsPatient(b: Bounds, s: Progress, t: Turn, now: int)
    requires Patient(b, s, t.m.now)
    requires now >= t.m.now + (if t.reading.Failed? && t.m.slept then Sleep(b, t.reading.e, t.m) else 0)
    ensures Step(b, s, t).outcome.Going? ==> Patient(b, Step(b, s, t), now)
  {
    var s' := Step(b, s, t);
    if s'.outcome.Going? && s.offset >= 0 && t.reading.Failed? && s.streak.Some? {
      var n := s.streak.value.tries;
      assert (n + 1) * Floor(b) == n * Floor(b) + Floor(b);
      TriesFit(b, n + 1);
    }
  }

  /** What is left to do before the log's bound: offsets, each with as many waits as
      one run of failures may be granted. */
  function LeftToDo(b: Bounds, s: Progress, bound: int): int
  {
    (bound - s.offset) * (MostWaits(b) + 1) + MostWaits(b) - Tries(s)
  }

  lemma StepDoesWork(b: Bounds, s: Progress, t: Turn, log: Log, bound: int)
    requires s.outcome.Going? && True(log, s.offset, t.reading) && log.high <= bound && Patient(b, s, t.m.now)
    ensures Step(b, s, t).outcome.Going? ==>
              LeftToDo(b, Step(b, s, t), bound) < LeftToDo(b, s, bound)
              && Step(b, s, t).offset <= (if s.offset < bound then bound else s.offset)
  {
    var s' := Step(b, s, t);
    if s'.outcome.Going? && s'.offset == s.offset + 1 {
      var w := MostWaits(b) + 1;
      assert (bound - s.offset) * w == (bound - s'.offset) * w + w;
    }
  }

  lemma ClockedRest(b: Bounds, s: Progress, turns: seq<Turn>) returns (now: int)
    requires Clocked(b, turns) && turns != [] && Patient(b, s, turns[0].m.now) && Step(b, s, turns[0]).outcome.Going?
    ensures Clocked(b, turns[1..]) && Patient(b, Step(b, s, turns[0]), now) && (|turns| > 1 ==> now == turns[1].m.now)
  {
    now := if |turns| > 1 then turns[1].m.now else turns[0].m.now + MaxSleep(b, turns[0]);
    StepIsPatient(b, s, turns[0], now);
  }

  /** Over a log that does not grow past a bound, a read that waits out failures ends
      after at most so many turns, whatever fails and however often. */
  lemma {:induction false} ReadEnds(b: Bounds, s: Progress, turns: seq<Turn>, logs: seq<Log>, bound: int)
    requires |turns| == |logs| && Truthful(b, s, turns, logs) && Clocked(b, turns)
    requires forall k :: 0 <= k < |logs| ==> logs[k].high <= bound
    requires s.outcome.Going? && s.offset <= bound && (turns != [] ==> Patient(b, s, turns[0].m.now))
    requires Tries(s) <= MostWaits(b)
    ensures Reads(b, s, turns).outcome.Going? ==> |turns| <= LeftToDo(b, s, bound)
    decreases |turns|
  {
    if turns == [] {
      TimesOrder(MostWaits(b) + 1, 0, bound - s.offset);
    } else {
      var s' := Step(b, s, turns[0]);
      StepDoesWork(b, s, turns[0], logs[0], bound);
      if s'.outcome.Going? {
        var now := ClockedRest(b, s, turns);
        ReadEnds(b, s', turns[1..], logs[1..], bound);
      } else {
        assert Reads(b, s', turns[1..]) == s';
      }
    }
  }

  function MaxSleep(b: Bounds, t: Turn): int
  {
    if t.reading.Failed? && t.m.slept then Sleep(b, t.reading.e, t.m) else 0
  }

  /** So the whole read of one partition ends, with or without patience. */
  lemma ReadFromEnds(b: Bounds, start: int, patient: bool, turns: seq<Turn>, logs: seq<Log>, bound: int)
    requires |turns| == |logs| && Truthful(b, Start(start, patient), turns, logs) && Clocked(b, turns)
    requires start <= bound && forall k :: 0 <= k < |logs| ==> logs[k].high <= bound
    ensures |turns| > (bound - start + 1) * (MostWaits(b) + 1) ==>
              !Reads(b, Start(start, patient), turns).outcome.Going?
  {
    ReadEnds(b, Start(start, patient), turns, logs, bound);
    var w := MostWaits(b) + 1;
    assert (bound - start + 1) * w == (bound - start) * w + w;
  }

  // ----- patience, exactly -----

  /** The sleep that a failure asks for: what the server asked for or else the backoff,
      but no less than the floor. */
  function Asked(b: Bounds, w: Wish): int
  {
    var d := if w.e.Api? && w.e.retryAfter > 0 then w.e.retryAfter else w.m.backoff;
    var floor := if b.base <= 0 then 50_000_000 else b.base;
    if d < floor then floor else d
  }

  lemma {:induction false} WaitingSince(b: Bounds, wishes: seq<Wish>)
    requires AllGranted(b, wishes) && wishes != []
    ensures Waiting(b, wishes).start == Some(wishes[0].m.now)
  {
    if |wishes| > 1 { WaitingSince(b, wishes[..|wishes| - 1]); }
  }

  /** A failure in an unbroken run of failures that were all waited out is waited out too
      if and only if it may be tried again, the caller has not gone, and the sleep that it
      asks for ends within the limit counted from the first failure of the run. */
  lemma WaitsOutExactly(b: Bounds, wishes: seq<Wish>, w: Wish)
    requires AllGranted(b, wishes)
    ensures AllGranted(b, wishes + [w])
            <==> !w.m.ended && Retryable(w.e)
                 && w.m.now - (if wishes == [] then w.m.now else wishes[0].m.now) + Asked(b, w) <= b.limit
  {
    assert (wishes + [w])[..|wishes|] == wishes;
    if wishes != [] { WaitingSince(b, wishes); }
  }

  /** The failures at the end of a read's turns, since it last got anywhere. */
  function Trailing(turns: seq<Turn>): seq<Wish>
  {
    if turns == [] || !turns[|turns| - 1].reading.Failed? then []
    else
      var t := turns[|turns| - 1];
      Trailing(turns[..|turns| - 1]) + [Wish(t.reading.e, t.m)]
  }

  lemma {:induction false} LastTurn(b: Bounds, s: Progress, turns: seq<Turn>)
    requires turns != [] && Reads(b, s, turns[..|turns| - 1]).outcome.Going?
    ensures Reads(b, s, turns) == Step(b, Reads(b, s, turns[..|turns| - 1]), turns[|turns| - 1])
    decreases |turns|
  {
    var front, last := turns[..|turns| - 1], turns[|turns| - 1];
    if |turns| == 1 {
      assert front == [] && Reads(b, Step(b, s, last), turns[1..]) == Step(b, s, last);
    } else {
      assert front[1..] == turns[1..][..|turns| - 2];
      LastTurn(b, Step(b, s, turns[0]), turns[1..]);
    }
  }

  lemma {:induction false} GoingBefore(b: Bounds, s: Progress, turns: seq<Turn>)
    requires turns != [] && Reads(b, s, turns).outcome.Going?
    ensures Reads(b, s, turns[..|turns| - 1]).outcome.Going?
    decreases |turns|
  {
    if |turns| > 1 {
      assert turns[..|turns| - 1][1..] == turns[1..][..|turns| - 2];
      GoingBefore(b, Step(b, s, turns[0]), turns[1..]);
    }
  }

  /** As long as a read goes on, its patience is that of the failures since it last got
      anywhere, and it has waited out all of them. */
  lemma {:induction false} PatienceIsTrailing(b: Bounds, start: int, turns: seq<Turn>)
    requires start >= 0 && Reads(b, Start(start, true), turns).outcome.Going?
    requires forall t <- turns :: t.reading.Record? ==> t.reading.offset >= 0
    ensures var s := Reads(b, Start(start, true), turns);
            s.offset >= 0 && s.streak == Some(Waiting(b, Trailing(turns))) && AllGranted(b, Trailing(turns))
  {
    if turns != [] {
      var front, last := turns[..|turns| - 1], turns[|turns| - 1];
      GoingBefore(b, Start(start, true), turns);
      LastTurn(b, Start(start, true), turns);
      assert forall t <- front :: t in turns;
      PatienceIsTrailing(b, start, front);
      assert last in turns;
      TurnKeepsPatience(b, Reads(b, Start(start, true), front), last, Trailing(front));
    }
  }

  lemma TurnKeepsPatience(b: Bounds, s: Progress, t: Turn, run: seq<Wish>)
    requires s.outcome.Going? && s.offset >= 0 && s.streak == Some(Waiting(b, run)) && AllGranted(b, run)
    requires Step(b, s, t).outcome.Going? && (t.reading.Record? ==> t.reading.offset >= 0)
    ensures var s', run' := Step(b, s, t), if t.reading.Failed? then run + [Wish(t.reading.e, t.m)] else [];
            s'.offset >= 0 && s'.streak == Some(Waiting(b, run')) && AllGranted(b, run')
  {
    if t.reading.Failed? {
      var run' := run + [Wish(t.reading.e, t.m)];
      assert run'[..|run|] == run;
    }
  }

  /** So a read with patience that is going on gives up at its next turn if and only if
      that one fails, the caller has not gone before it, and either the failure is not to
      be waited out or the wait is cut short. */
  lemma GivesUpExactly(b: Bounds, start: int, turns: seq<Turn>, t: Turn)
    requires start >= 0 && Reads(b, Start(start, true), turns).outcome.Going?
    requires forall t <- turns :: t.reading.Record? ==> t.reading.offset >= 0
    ensures var run := Trailing(turns);
            Reads(b, Start(start, true), turns + [t]).outcome.GaveUp?
            <==> !t.ended && t.reading.Failed?
                 && !(!t.m.ended && Retryable(t.reading.e) && t.m.slept
                      && t.m.now - (if run == [] then t.m.now else run[0].m.now) + Asked(b, Wish(t.reading.e, t.m))
                         <= b.limit)
  {
    PatienceIsTrailing(b, start, turns);
    var more := turns + [t];
    assert more[..|more| - 1] == turns;
    LastTurn(b, Start(start, true), more);
    var run := Trailing(turns);
    if run != [] { WaitingSince(b, run); }
  }

  /** Without patience, at any failure; and a negative offset is never even sent. */
  lemma GivesUpAtOnce(b: Bounds, s: Progress, turns: seq<Turn>, t: Turn)
    requires Reads(b, s, turns).outcome.Going? && s.outcome.Going? && !t.ended
    ensures var p, q := Reads(b, s, turns), Reads(b, s, turns + [t]);
            (p.offset < 0 ==> q.outcome == GaveUp(Own(BadRequest)) && q.handed == p.handed)
            && (p.offset >= 0 && p.streak.None? && t.reading.Failed? ==> q.outcome == GaveUp(t.reading.e))
  {
    var more := turns + [t];
    assert more[..|more| - 1] == turns;
    LastTurn(b, s, more);
  }

  // ----- the whole replay -----

  /** How many partitions a topic has, which is the p-th, and where its log begins. */
  function Count(info: Info): nat { if info.stats == [] then info.partitions else |info.stats| }

  function Partition(info: Info, p: nat): int
    requires p < Count(info)
  {
    if info.stats == [] then p else info.stats[p].index
  }

  function Oldest(info: Info, p: nat): int
    requires p < Count(info)
  {
    if info.stats == [] then 0 else info.stats[p].oldest
  }

  /** The p-th read tells the truth about the log of the p-th partition, from its oldest
      record on. */
  predicate PartTruthful(b: Bounds, info: Info, world: World, logs: (nat, int) -> seq<Log>, p: nat)
    requires p < Count(info)
  {
    var i := Partition(info, p);
    |world(p, i)| == |logs(p, i)| && Truthful(b, Start(Oldest(info, p), true), world(p, i), logs(p, i))
  }

  predicate PartsTruthful(b: Bounds, info: Info, world: World, logs: (nat, int) -> seq<Log>)
  {
    forall p: nat :: p < Count(info) ==> PartTruthful(b, info, world, logs, p)
  }

  /** A replay that returns normally over logs that do not change has found every
      partition available, and has handed over one list for each: exactly what the log of
      that partition retains from its oldest record on, each record once and in order. */
  lemma ReplayHandsOverTheLogs(b: Bounds, looks: seq<Look>, world: World, handed: seq<seq<int>>, looked: nat,
                               logs: (nat, int) -> seq<Log>, log: int -> Log)
    requires Replays(b, looks, world, handed, Began(CaughtUp), looked)
    requires looks[looked].d.Known? ==> PartsTruthful(b, looks[looked].d.info, world, logs)
    requires forall p, i, k :: 0 <= k < |logs(p, i)| ==> logs(p, i)[k] == log(i)
    ensures looks[looked].d.Known?
    ensures var info := looks[looked].d.info;
            (forall k :: 0 <= k < |info.stats| ==> info.stats[k].available)
            && |handed| == Count(info)
            && forall p: nat :: p < |handed| ==>
                 Increasing(handed[p])
                 && forall o :: o in handed[p] <==> o >= Oldest(info, p) && Retains(log(Partition(info, p)), o)
  {
    var info := looks[looked].d.info;
    PartsAre(info);
    forall p: nat | p < |handed|
      ensures Increasing(handed[p])
              && forall o :: o in handed[p] <==> o >= Oldest(info, p) && Retains(log(Partition(info, p)), o)
    {
      var i := Partition(info, p);
      assert PartTruthful(b, info, world, logs, p);
      assert logs(p, i) == seq(|world(p, i)|, _ => log(i));
      ReadFromHandsOverTheLog(b, Oldest(info, p), true, world(p, i), log(i));
    }
  }

  lemma PartsAre(info: Info)
    ensures |Parts(info)| == Count(info)
    ensures forall p: nat :: p < Count(info) ==> Parts(info)[p] == Part(Partition(info, p), Oldest(info, p))
  {
  }

  /** Over live logs, it has missed nothing that stayed retained throughout. */
  lemma ReplayMissesNothing(b: Bounds, looks: seq<Look>, world: World, handed: seq<seq<int>>, looked: nat,
                            logs: (nat, int) -> seq<Log>, p: nat, offset: int)
    requires Replays(b, looks, world, handed, Began(CaughtUp), looked)
    requires var info := looks[looked].d.info;
             p < Count(info) && PartTruthful(b, info, world, logs, p) && Oldest(info, p) <= offset
             && forall log <- logs(p, Partition(info, p)) :: Retains(log, offset)
    ensures p < |handed| && offset in handed[p]
  {
    var info := looks[looked].d.info;
    var i := Partition(info, p);
    PartsAre(info);
    forall k | 0 <= k < |logs(p, i)| ensures Retains(logs(p, i)[k], offset) {
      assert logs(p, i)[k] in logs(p, i);
    }
    MissesNothing(b, Start(Oldest(info, p), true), world(p, i), logs(p, i), offset);
  }

  /** A description that shows every partition to be readable. */
  predicate Readable(d: Description)
  {
    d.Known? && forall k :: 0 <= k < |d.info.stats| ==> d.info.stats[k].available
  }

  /** A replay begins at the first description that shows every partition to be readable,
      and gives up on an earlier one only if its trouble is not to be waited out. */
  lemma BeginsOnceReadable(b: Bounds, looks: seq<Look>, world: World, handed: seq<seq<int>>, r: Replayed, looked: nat)
    requires Replays(b, looks, world, handed, r, looked)
    ensures forall k :: 0 <= k < looked ==> !Readable(looks[k].d)
    ensures r.Began? <==> looked < |looks| && Readable(looks[looked].d)
    ensures r.NotDescribed? ==>
              looked < |looks|
              && r.e == (if looks[looked].d.Unknown? then looks[looked].d.e else Own(Unavailable))
              && (var w := Wish(r.e, looks[looked].m);
                  var first := if looked == 0 then w.m.now else looks[0].m.now;
                  w.m.ended || !Retryable(w.e) || !w.m.slept || w.m.now - first + Asked(b, w) > b.limit)
  {
    if r.NotDescribed? {
      var wishes := Wishes(looks, looked);
      if looked > 0 {
        WishesAre(looks, looked, 0);
        WaitingSince(b, wishes);
      }
    }
  }

  /** The clock does not run backwards between looks, and a sleep takes its time. */
  predicate LooksClocked(b: Bounds, looks: seq<Look>)
  {
    forall k :: 0 < k < |looks| ==>
      looks[k].m.now >= looks[k - 1].m.now
                        + (if Trouble(looks[k - 1].d).Some? && looks[k - 1].m.slept
                           then Sleep(b, Trouble(looks[k - 1].d).value, looks[k - 1].m) else 0)
  }

  lemma {:induction false} WishesAre(looks: seq<Look>, k: nat, j: nat)
    requires Troubled(looks, k) && j < k
    ensures Wishes(looks, k)[j] == Wish(Trouble(looks[j].d).value, looks[j].m)
  {
    if j < k - 1 { WishesAre(looks, k - 1, j); }
  }

  lemma DescribingEnds(b: Bounds, looks: seq<Look>)
    requires LooksClocked(b, looks) && WaitedOut(b, looks, |looks|)
    ensures |looks| <= MostWaits(b)
  {
    if looks != [] {
      var wishes := Wishes(looks, |looks|);
      forall j | 0 <= j < |looks| ensures wishes[j] == Wish(Trouble(looks[j].d).value, looks[j].m) {
        WishesAre(looks, |looks|, j);
      }
      PatienceIsBounded(b, wishes);
      TriesFit(b, |looks|);
    }
  }

  /** The turns of the p-th read are clocked, over a log that stays below a bound, and more
      than that read can take. */
  predicate EnoughTurns(b: Bounds, info: Info, world: World, logs: (nat, int) -> seq<Log>, bound: int, p: nat)
    requires p < Count(info)
  {
    var i, from := Partition(info, p), Oldest(info, p);
    Clocked(b, world(p, i)) && from <= bound && (forall k :: 0 <= k < |logs(p, i)| ==> logs(p, i)[k].high <= bound)
    && |world(p, i)| > (bound - from + 1) * (MostWaits(b) + 1)
  }

  /** So the whole replay ends: the wait for its partitions does, and so does the read of
      each, whatever fails. */
  lemma ReplayEnds(b: Bounds, looks: seq<Look>, world: World, handed: seq<seq<int>>, r: Replayed, looked: nat,
                   logs: (nat, int) -> seq<Log>, bound: int)
    requires Replays(b, looks, world, handed, r, looked) && LooksClocked(b, looks) && |looks| > MostWaits(b)
    requires r.Began? ==>
               var info := looks[looked].d.info;
               PartsTruthful(b, info, world, logs)
               && forall p: nat :: p < Count(info) ==> EnoughTurns(b, info, world, logs, bound, p)
    ensures !r.StillDescribing? && (r.Began? ==> !r.o.Going?)
  {
    if r.StillDescribing? { DescribingEnds(b, looks); }
    if r.Began? && handed != [] {
      var info, p := looks[looked].d.info, |handed| - 1;
      PartsAre(info);
      assert PartTruthful(b, info, world, logs, p) && EnoughTurns(b, info, world, logs, bound, p);
      var i := Partition(info, p);
      ReadFromEnds(b, Oldest(info, p), true, world(p, i), logs(p, i), bound);
    }
  }
}

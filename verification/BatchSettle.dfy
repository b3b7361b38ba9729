/** settleMany: one request per round for many messages, against the settle of
    each message on its own. */
module BatchSettle {
  import opened Common
  import opened Errors
  import opened Settle

  /** What the broker answers for one receipt handle of a batch. */
  datatype Answer = Answer(status: int, message: set<Phrase>)

  /** How one batch request goes: it fails as a whole, its 200 cannot be read,
      or the broker answers for handles, here by the index of their message. */
  datatype Reply = Refused(e: Failure) | Unreadable | Answered(answers: seq<Answer>)

  /** One round: whether the wait before it finished, how it goes, and the backoff
      drawn after it. */
  datatype Round = Round(waited: bool, reply: Reply, backoff: int)

  predicate RoundsOk(n: nat, rounds: seq<Round>)
  {
    forall r <- rounds :: r.reply.Answered? ==> |r.reply.answers| == n
  }

  /** The results of a batch reply: one for each handle sent, in order. */
  datatype Results = Failed(e: Failure) | Garbled | Listed(results: seq<Answer>)

  function AckBatch(n: nat, reply: Reply, pending: seq<nat>): Results
    requires (reply.Answered? ==> |reply.answers| == n) && Below(pending, n)
  {
    match reply
    case Refused(e) => Failed(e)
    case Unreadable => Garbled
    case Answered(answers) => Listed(seq(|pending|, j requires 0 <= j < |pending| => answers[pending[j]]))
  }

  function HandleFailure(op: Op, a: Answer): Failure { Api(op, a.status, a.message, 0) }

  predicate Spent(op: Op, may: bool, a: Answer) { a.status == 204 || (op.Ack? && may && a.status == 410) }

  // ----- the fate of one message -----

  /** One message of a batch: its place, why a settle of it alone would be
      refused, and how one would go, each attempt of it. */
  datatype Item = Item(i: nat, barred: Verdict, tries: seq<Try>)

  /** A batch request: the operation, the number of messages and of attempts. */
  datatype Job = Job(op: Op, n: nat, attempts: nat)

  predicate ItemOk(b: Job, m: Item) { m.i < b.n && 1 <= b.attempts <= |m.tries| }

  /** What settleMany returns for a message that has left rounds to go, may have
      landed already if may, and so far has prior as its error. */
  function Fate(b: Job, m: Item, may: bool, left: nat, prior: Verdict, rounds: seq<Round>): Verdict
    requires ItemOk(b, m) && RoundsOk(b.n, rounds) && left <= |rounds| && left <= b.attempts
    decreases left
  {
    if left == 0 then prior
    else if left < b.attempts && !rounds[0].waited then Some(ContextEnded)
    else
      match rounds[0].reply
      case Refused(e) =>
        if Is(e, BadRequest) then Alone(m.barred, b.op, may, b.attempts, m.tries)
        else if !Retryable(e) then Some(e)
        else Fate(b, m, may || Uncertain(e), left - 1, Some(e), rounds[1..])
      case Unreadable => Fate(b, m, true, left - 1, Some(BatchReply), rounds[1..])
      case Answered(answers) =>
        if Spent(b.op, may, answers[m.i]) then None
        else
          var e := HandleFailure(b.op, answers[m.i]);
          if Retryable(e) then Fate(b, m, may || Uncertain(e), left - 1, Some(e), rounds[1..]) else Some(e)
  }

  /** Fate from the start. */
  function Whole(b: Job, m: Item, rounds: seq<Round>): Verdict
    requires ItemOk(b, m) && RoundsOk(b.n, rounds) && b.attempts <= |rounds|
  {
    if b.n == 1 then Alone(m.barred, b.op, false, b.attempts, m.tries)
    else Fate(b, m, false, b.attempts, None, rounds)
  }

  // ----- settleMany -----

  ghost predicate Distinct(msgs: seq<Message>)
  {
    forall j, k :: 0 <= j < k < |msgs| ==> msgs[j] != msgs[k]
  }

  /** What a round makes of a message whose result is a. */
  predicate Treated(op: Op, a: Answer, may0: bool, was: bool, err: Verdict, may: bool, now: bool)
  {
    if Spent(op, may0, a) then
      err == None && may == may0 && now == (was || Settles(op))
    else
      var e := HandleFailure(op, a);
      err == Some(e) && now == was && may == (may0 || (Retryable(e) && Uncertain(e)))
  }

  predicate Stays(op: Op, a: Answer, may: bool) { !Spent(op, may, a) && Retryable(HandleFailure(op, a)) }

  /** The messages of a round that go into the next one. */
  function Kept(op: Op, pending: seq<nat>, results: seq<Answer>, may: seq<bool>): seq<nat>
    requires |pending| == |results| && Below(pending, |may|)
  {
    if pending == [] then []
    else
      var j := |pending| - 1;
      Kept(op, pending[..j], results[..j], may)
      + (if Stays(op, results[j], may[pending[j]]) then [pending[j]] else [])
  }

  lemma KeptNext(op: Op, pending: seq<nat>, results: seq<Answer>, may: seq<bool>, j: nat)
    requires |pending| == |results| && Below(pending, |may|) && j < |pending|
    ensures Kept(op, pending[..j + 1], results[..j + 1], may)
            == Kept(op, pending[..j], results[..j], may)
               + (if Stays(op, results[j], may[pending[j]]) then [pending[j]] else [])
  {
    assert pending[..j + 1][..j] == pending[..j] && results[..j + 1][..j] == results[..j];
  }

  lemma {:induction false} KeptFrom(op: Op, pending: seq<nat>, results: seq<Answer>, may: seq<bool>)
    requires |pending| == |results| && Below(pending, |may|)
    ensures var next := Kept(op, pending, results, may);
            |next| <= |pending| && forall k :: 0 <= k < |next| ==> next[k] in pending
  {
    if pending != [] {
      var j := |pending| - 1;
      KeptFrom(op, pending[..j], results[..j], may);
      assert pending == pending[..j] + [pending[j]];
    }
  }

  lemma {:induction false} KeptIncreasing(op: Op, pending: seq<nat>, results: seq<Answer>, may: seq<bool>)
    requires |pending| == |results| && Below(pending, |may|) && Increasing(pending)
    ensures Increasing(Kept(op, pending, results, may))
  {
    if pending != [] {
      var j := |pending| - 1;
      KeptIncreasing(op, pending[..j], results[..j], may);
      KeptFrom(op, pending[..j], results[..j], may);
      var front := Kept(op, pending[..j], results[..j], may);
      assert forall k :: 0 <= k < |front| ==> front[k] in pending[..j] && front[k] < pending[j];
    }
  }

  lemma {:induction false} KeptStays(op: Op, pending: seq<nat>, results: seq<Answer>, may: seq<bool>, k: nat)
    requires |pending| == |results| && Below(pending, |may|) && Increasing(pending) && k < |pending|
    ensures pending[k] in Kept(op, pending, results, may) <==> Stays(op, results[k], may[pending[k]])
  {
    var j := |pending| - 1;
    if k < j {
      KeptStays(op, pending[..j], results[..j], may, k);
    } else {
      KeptFrom(op, pending[..j], results[..j], may);
    }
  }

  /** They are those whose result says to try again, in order. */
  lemma KeptInOrder(op: Op, pending: seq<nat>, results: seq<Answer>, may: seq<bool>)
    requires |pending| == |results| && Below(pending, |may|) && Increasing(pending)
    ensures var next := Kept(op, pending, results, may);
            Increasing(next) && |next| <= |pending| && (forall k :: 0 <= k < |next| ==> next[k] in pending)
            && forall j :: 0 <= j < |pending| ==> (pending[j] in next <==> Stays(op, results[j], may[pending[j]]))
  {
    KeptFrom(op, pending, results, may);
    KeptIncreasing(op, pending, results, may);
    forall j | 0 <= j < |pending| { KeptStays(op, pending, results, may, j); }
  }

  /** One result of a round, for the message it answers for. */
  method TakeResult(op: Op, msg: Message, a: Answer, may0: bool) returns (err: Verdict, may: bool, again: bool)
    modifies msg`settled
    ensures Treated(op, a, may0, old(msg.settled), err, may, msg.settled) && again == Stays(op, a, may0)
  {
    err, may, again := None, may0, false;
    if a.status == 204 || (op.Ack? && may0 && a.status == 410) {
      msg.SettledBy(op);
    } else {
      var e := HandleFailure(op, a);
      err := Some(e);
      if Retryable(e) {
        if Uncertain(e) { may := true; }
        again := true;
      }
    }
  }

  /** What the client holds on a batch: each message's error so far, whether it
      may have landed, and whether it is recorded settled. */
  datatype Book = Book(errs: seq<Verdict>, may: seq<bool>, settled: seq<bool>)

  predicate BookOk(n: nat, b: Book) { |b.errs| == |b.may| == |b.settled| == n }

  function Write(b: Book, i: nat, err: Verdict, may: bool, settled: bool): Book
    requires BookOk(|b.errs|, b) && i < |b.errs|
  {
    Book(b.errs[i := err], b.may[i := may], b.settled[i := settled])
  }

  /** The first j results have been handled, and nothing else has changed. */
  ghost predicate Handled(op: Op, n: nat, pending: seq<nat>, results: seq<Answer>, b0: Book, b: Book, j: nat)
    requires BookOk(n, b0) && BookOk(n, b) && Below(pending, n) && j <= |pending| == |results|
  {
    (forall i: nat | i < n && i !in pending[..j] ::
       b.errs[i] == b0.errs[i] && b.may[i] == b0.may[i] && b.settled[i] == b0.settled[i])
    && forall k: nat {:trigger pending[k]} | k < j ::
      Treated(op, results[k], b0.may[pending[k]], b0.settled[pending[k]],
              b.errs[pending[k]], b.may[pending[k]], b.settled[pending[k]])
  }

  lemma HandledNext(op: Op, n: nat, pending: seq<nat>, results: seq<Answer>, b0: Book, b: Book, j: nat,
                    err: Verdict, may: bool, settled: bool)
    requires BookOk(n, b0) && BookOk(n, b) && Below(pending, n) && Increasing(pending) && j < |pending| == |results|
    requires Handled(op, n, pending, results, b0, b, j)
    requires Treated(op, results[j], b0.may[pending[j]], b0.settled[pending[j]], err, may, settled)
    ensures Handled(op, n, pending, results, b0, Write(b, pending[j], err, may, settled), j + 1)
  {
    assert pending[..j + 1] == pending[..j] + [pending[j]];
  }

  /** The part of a round that handles the results, one for each pending message.
      Those settled leave, those that may be tried again stay. */
  method TakeResults(op: Op, msgs: seq<Message>, pending: seq<nat>, results: seq<Answer>,
                     errs0: seq<Verdict>, may0: seq<bool>)
    returns (next: seq<nat>, errs: seq<Verdict>, may: seq<bool>)
    requires Distinct(msgs) && |results| == |pending| && |errs0| == |may0| == |msgs|
    requires Increasing(pending) && Below(pending, |msgs|)
    modifies msgs
    ensures forall m <- msgs :: m.settling == old(m.settling)
    ensures |errs| == |may| == |msgs| && next == Kept(op, pending, results, may0)
    ensures var b0, b := Book(errs0, may0, old(Flags(msgs))), Book(errs, may, Flags(msgs));
            Handled(op, |msgs|, pending, results, b0, b, |pending|)
  {
    next, errs, may := [], errs0, may0;
    ghost var b0 := Book(errs0, may0, Flags(msgs));
    for j := 0 to |pending|
      invariant |errs| == |may| == |msgs| && next == Kept(op, pending[..j], results[..j], may0)
      invariant forall m <- msgs :: m.settling == old(m.settling)
      invariant Handled(op, |msgs|, pending, results, b0, Book(errs, may, Flags(msgs)), j)
    {
      var i := pending[j];
      KeptNext(op, pending, results, may0, j);
      ghost var b := Book(errs, may, Flags(msgs));
      assert i !in pending[..j];
      var err, landed, again := TakeResult(op, msgs[i], results[j], may[i]);
      errs, may := errs[i := err], may[i := landed];
      if again { next := next + [i]; }
      assert Flags(msgs) == b.settled[i := msgs[i].settled];
      HandledNext(op, |msgs|, pending, results, b0, b, j, err, landed, msgs[i].settled);
    }
    assert pending[..|pending|] == pending && results[..|pending|] == results;
  }

  /** Which messages are recorded settled. */
  ghost function Flags(msgs: seq<Message>): (flags: seq<bool>)
    reads msgs
    ensures |flags| == |msgs| && forall i :: 0 <= i < |msgs| ==> flags[i] == msgs[i].settled
  {
    seq(|msgs|, i requires 0 <= i < |msgs| reads msgs => msgs[i].settled)
  }

  function ItemOf(msgs: seq<Message>, singles: seq<seq<Try>>, i: nat): Item
    requires i < |msgs| == |singles|
  {
    Item(i, msgs[i].Barred(), singles[i])
  }

  ghost predicate SinglesOk(b: Job, singles: seq<seq<Try>>)
  {
    |singles| == b.n && forall i: nat | i < b.n :: |singles[i]| >= b.attempts
  }

  /** Where message m stands before round r: still pending, on course to the fate
      it had at the start, or out of the batch with that fate. */
  predicate OnCourse(b: Job, m: Item, rounds: seq<Round>, r: nat, pending: bool,
                     err: Verdict, may: bool, was: bool, settled: bool)
    requires ItemOk(b, m) && RoundsOk(b.n, rounds) && r <= b.attempts <= |rounds|
  {
    var fate := Fate(b, m, false, b.attempts, None, rounds);
    if pending then settled == was && (r > 0 ==> err.Some?) && Fate(b, m, may, b.attempts - r, err, rounds[r..]) == fate
    else err == fate && settled == (was || (Settles(b.op) && fate.None?))
  }

  predicate ItemsOk(b: Job, items: seq<Item>)
  {
    |items| == b.n && forall i: nat | i < b.n :: items[i].i == i && ItemOk(b, items[i])
  }

  predicate AllOnCourse(b: Job, items: seq<Item>, rounds: seq<Round>, r: nat,
                        pending: seq<nat>, was: seq<bool>, now: Book)
    requires ItemsOk(b, items) && |was| == b.n && RoundsOk(b.n, rounds)
    requires r <= b.attempts <= |rounds| && BookOk(b.n, now)
  {
    forall i: nat | i < b.n ::
      OnCourse(b, items[i], rounds, r, i in pending, now.errs[i], now.may[i], was[i], now.settled[i])
  }

  // ----- each kind of round keeps every message on course -----

  lemma CourseAnswered(b: Job, m: Item, rounds: seq<Round>, r: nat, err: Verdict, may: bool, was: bool, settled: bool,
                       err': Verdict, may': bool, settled': bool)
    requires ItemOk(b, m) && RoundsOk(b.n, rounds) && r < b.attempts <= |rounds| && (r == 0 || rounds[r].waited)
    requires OnCourse(b, m, rounds, r, true, err, may, was, settled)
    requires rounds[r].reply.Answered?
    requires Treated(b.op, rounds[r].reply.answers[m.i], may, settled, err', may', settled')
    ensures OnCourse(b, m, rounds, r + 1, Stays(b.op, rounds[r].reply.answers[m.i], may), err', may', was, settled')
  {
    assert rounds[r..][0] == rounds[r] && rounds[r..][1..] == rounds[r + 1..];
  }

  lemma CourseFailed(b: Job, m: Item, rounds: seq<Round>, r: nat, err: Verdict, may: bool, was: bool, settled: bool)
    requires ItemOk(b, m) && RoundsOk(b.n, rounds) && r < b.attempts <= |rounds| && (r == 0 || rounds[r].waited)
    requires OnCourse(b, m, rounds, r, true, err, may, was, settled)
    ensures var reply := rounds[r].reply;
            (reply.Unreadable? ==> OnCourse(b, m, rounds, r + 1, true, Some(BatchReply), true, was, settled))
            && (reply.Refused? && !Is(reply.e, BadRequest) && Retryable(reply.e) ==>
                OnCourse(b, m, rounds, r + 1, true, Some(reply.e), may || Uncertain(reply.e), was, settled))
            && (reply.Refused? && !Is(reply.e, BadRequest) && !Retryable(reply.e) ==>
                OnCourse(b, m, rounds, r, false, Some(reply.e), may, was, settled))
            && (reply.Refused? && Is(reply.e, BadRequest) ==>
                Fate(b, m, false, b.attempts, None, rounds) == Alone(m.barred, b.op, may, b.attempts, m.tries))
  {
    assert rounds[r..][0] == rounds[r] && rounds[r..][1..] == rounds[r + 1..];
  }

  lemma CourseEnds(b: Job, m: Item, rounds: seq<Round>, r: nat, err: Verdict, may: bool, was: bool, settled: bool)
    requires ItemOk(b, m) && RoundsOk(b.n, rounds) && r <= b.attempts <= |rounds|
    requires OnCourse(b, m, rounds, r, true, err, may, was, settled)
    ensures r == b.attempts && r > 0 ==> OnCourse(b, m, rounds, r, false, err, may, was, settled)
    ensures 0 < r < b.attempts && !rounds[r].waited ==>
              OnCourse(b, m, rounds, r, false, Some(ContextEnded), may, was, settled)
  {
  }

  /** Writes err for every pending message. */
  function WriteErr(errs: seq<Verdict>, pending: seq<nat>, err: Verdict): seq<Verdict>
  {
    seq(|errs|, i requires 0 <= i < |errs| => if i in pending then err else errs[i])
  }

  function WriteMay(may: seq<bool>, pending: seq<nat>): seq<bool>
  {
    seq(|may|, i requires 0 <= i < |may| => may[i] || i in pending)
  }

  /** The broker refuses the batch form, so each pending message is settled on
      its own, with what its earlier rounds may have done to it. */
  method SettleAlone(b: Job, msgs: seq<Message>, pending: seq<nat>, singles: seq<seq<Try>>,
                     errs0: seq<Verdict>, may: seq<bool>)
    returns (errs: seq<Verdict>)
    requires Distinct(msgs) && |msgs| == b.n == |errs0| == |may| && SinglesOk(b, singles) && b.attempts >= 1
    requires Increasing(pending) && Below(pending, b.n)
    modifies msgs
    ensures |errs| == b.n
    ensures forall m <- msgs :: m.settling == old(m.settling)
    ensures forall i: nat | i < b.n ::
              var err := Alone(msgs[i].Barred(), b.op, may[i], b.attempts, singles[i]);
              if i in pending then
                errs[i] == err && msgs[i].settled == (old(msgs[i].settled) || (Settles(b.op) && err.None?))
              else errs[i] == errs0[i] && msgs[i].settled == old(msgs[i].settled)
  {
    errs := errs0;
    for j := 0 to |pending|
      invariant |errs| == b.n
      invariant forall m <- msgs :: m.settling == old(m.settling)
      invariant forall i: nat | i < b.n ::
        var err := Alone(msgs[i].Barred(), b.op, may[i], b.attempts, singles[i]);
        if i in pending[..j] then
          errs[i] == err && msgs[i].settled == (old(msgs[i].settled) || (Settles(b.op) && err.None?))
        else errs[i] == errs0[i] && msgs[i].settled == old(msgs[i].settled)
    {
      var i := pending[j];
      assert i !in pending[..j] && pending[..j + 1] == pending[..j] + [i];
      var err, _ := msgs[i].SettleFrom(b.op, may[i], b.attempts, singles[i]);
      errs := errs[i := err];
    }
    assert pending[..|pending|] == pending;
  }

  // ----- the same for the whole batch -----

  lemma AllAnswered(b: Job, items: seq<Item>, rounds: seq<Round>, r: nat, pending: seq<nat>, results: seq<Answer>,
                    was: seq<bool>, now: Book, later: Book)
    requires ItemsOk(b, items) && |was| == b.n && RoundsOk(b.n, rounds) && r < b.attempts <= |rounds|
    requires BookOk(b.n, now) && BookOk(b.n, later) && Below(pending, b.n) && Increasing(pending)
    requires (r == 0 || rounds[r].waited) && AckBatch(b.n, rounds[r].reply, pending) == Listed(results)
    requires AllOnCourse(b, items, rounds, r, pending, was, now)
    requires Handled(b.op, b.n, pending, results, now, later, |pending|)
    ensures AllOnCourse(b, items, rounds, r + 1, Kept(b.op, pending, results, now.may), was, later)
  {
    var next := Kept(b.op, pending, results, now.may);
    KeptInOrder(b.op, pending, results, now.may);
    assert pending[..|pending|] == pending;
    forall i: nat | i < b.n
      ensures OnCourse(b, items[i], rounds, r + 1, i in next, later.errs[i], later.may[i], was[i], later.settled[i])
    {
      assert OnCourse(b, items[i], rounds, r, i in pending, now.errs[i], now.may[i], was[i], now.settled[i]);
      if i in pending {
        var j :| 0 <= j < |pending| && pending[j] == i;
        assert results[j] == rounds[r].reply.answers[i];
        CourseAnswered(b, items[i], rounds, r, now.errs[i], now.may[i], was[i], now.settled[i],
                       later.errs[i], later.may[i], later.settled[i]);
      }
    }
  }

  lemma AllFailed(b: Job, items: seq<Item>, rounds: seq<Round>, r: nat, pending: seq<nat>, was: seq<bool>, now: Book)
    requires ItemsOk(b, items) && |was| == b.n && RoundsOk(b.n, rounds) && r < b.attempts <= |rounds|
    requires BookOk(b.n, now) && (r == 0 || rounds[r].waited)
    requires AllOnCourse(b, items, rounds, r, pending, was, now)
    ensures var reply := rounds[r].reply;
            reply.Unreadable? ==>
              AllOnCourse(b, items, rounds, r + 1, pending, was,
                          Book(WriteErr(now.errs, pending, Some(BatchReply)), WriteMay(now.may, pending), now.settled))
    ensures var reply := rounds[r].reply;
            reply.Refused? && !Is(reply.e, BadRequest) ==>
              if Retryable(reply.e) then
                AllOnCourse(b, items, rounds, r + 1, pending, was,
                            Book(WriteErr(now.errs, pending, Some(reply.e)),
                                 if Uncertain(reply.e) then WriteMay(now.may, pending) else now.may, now.settled))
              else
                AllOnCourse(b, items, rounds, r, [], was,
                            Book(WriteErr(now.errs, pending, Some(reply.e)), now.may, now.settled))
  {
    forall i: nat | i < b.n
      ensures OnCourse(b, items[i], rounds, r, i in pending, now.errs[i], now.may[i], was[i], now.settled[i])
    {
    }
    forall i: nat | i < b.n && i in pending {
      CourseFailed(b, items[i], rounds, r, now.errs[i], now.may[i], was[i], now.settled[i]);
    }
  }

  lemma AllRefused(b: Job, items: seq<Item>, rounds: seq<Round>, r: nat, pending: seq<nat>, was: seq<bool>, now: Book,
                   i: nat)
    requires ItemsOk(b, items) && |was| == b.n && RoundsOk(b.n, rounds) && r < b.attempts <= |rounds|
    requires BookOk(b.n, now) && (r == 0 || rounds[r].waited) && i < b.n
    requires AllOnCourse(b, items, rounds, r, pending, was, now)
    requires rounds[r].reply.Refused? && Is(rounds[r].reply.e, BadRequest)
    ensures var fate := Fate(b, items[i], false, b.attempts, None, rounds);
            if i in pending then
              fate == Alone(items[i].barred, b.op, now.may[i], b.attempts, items[i].tries) && now.settled[i] == was[i]
            else
              now.errs[i] == fate && now.settled[i] == (was[i] || (Settles(b.op) && fate.None?))
  {
    assert OnCourse(b, items[i], rounds, r, i in pending, now.errs[i], now.may[i], was[i], now.settled[i]);
    if i in pending {
      CourseFailed(b, items[i], rounds, r, now.errs[i], now.may[i], was[i], now.settled[i]);
    }
  }

  lemma AllEnd(b: Job, items: seq<Item>, rounds: seq<Round>, r: nat, pending: seq<nat>, was: seq<bool>, now: Book)
    requires ItemsOk(b, items) && |was| == b.n && RoundsOk(b.n, rounds) && 0 < r <= b.attempts <= |rounds|
    requires BookOk(b.n, now) && AllOnCourse(b, items, rounds, r, pending, was, now)
    ensures r == b.attempts ==> AllOnCourse(b, items, rounds, r, [], was, now)
    ensures r < b.attempts && !rounds[r].waited ==>
              AllOnCourse(b, items, rounds, r, [], was,
                          Book(WriteErr(now.errs, pending, Some(ContextEnded)), now.may, now.settled))
  {
    forall i: nat | i < b.n
      ensures OnCourse(b, items[i], rounds, r, i in pending, now.errs[i], now.may[i], was[i], now.settled[i])
    {
    }
    forall i: nat | i < b.n && i in pending {
      CourseEnds(b, items[i], rounds, r, now.errs[i], now.may[i], was[i], now.settled[i]);
    }
  }

  /** The batch requests sent: the first asks for every message, and each later
      one for exactly those of the one before that its reply does not rule out, in order. */
  predicate RequestsOk(op: Op, n: nat, rounds: seq<Round>, requests: seq<seq<nat>>)
    requires RoundsOk(n, rounds) && |requests| <= |rounds|
  {
    forall k: nat :: k < |requests| ==>
      Increasing(requests[k]) && Below(requests[k], n)
      && forall i: nat :: i < n ==> AsksFor(op, n, rounds, requests, k, i)
  }

  predicate AsksFor(op: Op, n: nat, rounds: seq<Round>, requests: seq<seq<nat>>, k: nat, i: nat)
    requires RoundsOk(n, rounds) && k < |requests| <= |rounds| && i < n
  {
    i in requests[k] <==> k == 0 || (i in requests[k - 1] && Again(op, rounds[k - 1].reply, i))
  }

  predicate Again(op: Op, reply: Reply, i: nat)
    requires reply.Answered? ==> i < |reply.answers|
  {
    match reply
    case Refused(_) => !Ends(reply)
    case Unreadable => true
    case Answered(answers) => Retryable(HandleFailure(op, answers[i]))
  }

  /** The pending messages before round r are the ones to ask for in it. */
  predicate Due(op: Op, n: nat, rounds: seq<Round>, requests: seq<seq<nat>>, pending: seq<nat>)
    requires RoundsOk(n, rounds) && |requests| <= |rounds|
  {
    Increasing(pending) && Below(pending, n)
    && forall i: nat | i < n ::
      i in pending <==> |requests| == 0 || (i in requests[|requests| - 1] && Again(op, rounds[|requests| - 1].reply, i))
  }

  ghost function Items(msgs: seq<Message>, singles: seq<seq<Try>>): (items: seq<Item>)
    requires |msgs| == |singles|
    ensures |items| == |msgs| && forall i: nat | i < |msgs| :: items[i] == ItemOf(msgs, singles, i)
  {
    seq(|msgs|, i requires 0 <= i < |msgs| => ItemOf(msgs, singles, i))
  }

  lemma AllStart(b: Job, items: seq<Item>, rounds: seq<Round>, was: seq<bool>)
    requires ItemsOk(b, items) && |was| == b.n && RoundsOk(b.n, rounds) && b.attempts <= |rounds|
    ensures var pending: seq<nat> := seq(b.n, i => i);
            Due(b.op, b.n, rounds, [], pending)
            && AllOnCourse(b, items, rounds, 0, pending, was, Book(seq(b.n, _ => None), seq(b.n, _ => false), was))
  {
    var pending: seq<nat> := seq(b.n, i => i);
    assert rounds[0..] == rounds;
    forall i: nat | i < b.n ensures i in pending { assert pending[i] == i; }
  }

  /** A whole-batch failure that no further round of it is sent after. */
  predicate Ends(reply: Reply) { reply.Refused? && (Is(reply.e, BadRequest) || !Retryable(reply.e)) }

  /** The messages that stay pending after a round whose reply does not end the settle. */
  function Left(b: Job, reply: Reply, pending: seq<nat>, may: seq<bool>): (left: seq<nat>)
    requires (reply.Answered? ==> |reply.answers| == b.n) && |may| == b.n && Below(pending, b.n)
  {
    match AckBatch(b.n, reply, pending)
    case Listed(results) => Kept(b.op, pending, results, may)
    case _ => pending
  }

  lemma LeftAgain(b: Job, reply: Reply, pending: seq<nat>, may: seq<bool>)
    requires (reply.Answered? ==> |reply.answers| == b.n) && |may| == b.n && Below(pending, b.n) && Increasing(pending)
    requires !Ends(reply)
    ensures var left := Left(b, reply, pending, may);
            Increasing(left) && Below(left, b.n) && |left| <= |pending|
            && forall i: nat | i < b.n :: i in left <==> i in pending && Again(b.op, reply, i)
  {
    if reply.Answered? {
      var results := AckBatch(b.n, reply, pending).results;
      KeptInOrder(b.op, pending, results, may);
      forall i: nat | i < b.n && i in pending
        ensures i in Left(b, reply, pending, may) <==> Again(b.op, reply, i)
      {
        var j :| 0 <= j < |pending| && pending[j] == i;
        assert results[j] == reply.answers[i];
      }
    }
  }

  lemma NextRequest(op: Op, n: nat, rounds: seq<Round>, requests: seq<seq<nat>>, pending: seq<nat>)
    requires RoundsOk(n, rounds) && |requests| < |rounds|
    requires RequestsOk(op, n, rounds, requests) && Due(op, n, rounds, requests, pending)
    ensures RequestsOk(op, n, rounds, requests + [pending])
  {
    var more := requests + [pending];
    forall k: nat, i: nat | k < |more| && i < n ensures AsksFor(op, n, rounds, more, k, i) {
      if k < |requests| { assert AsksFor(op, n, rounds, requests, k, i); }
    }
  }

  lemma NextDue(b: Job, rounds: seq<Round>, requests: seq<seq<nat>>, pending: seq<nat>, may: seq<bool>)
    requires RoundsOk(b.n, rounds) && |requests| < |rounds| && |may| == b.n
    requires RequestsOk(b.op, b.n, rounds, requests) && Due(b.op, b.n, rounds, requests, pending)
    ensures RequestsOk(b.op, b.n, rounds, requests + [pending])
    ensures var reply := rounds[|requests|].reply;
            var left := Left(b, reply, pending, may);
            !Ends(reply) ==> |left| <= |pending| && Due(b.op, b.n, rounds, requests + [pending], left)
  {
    NextRequest(b.op, b.n, rounds, requests, pending);
    if !Ends(rounds[|requests|].reply) { LeftAgain(b, rounds[|requests|].reply, pending, may); }
  }

  /** The waits of a batch settle: the backoff drawn after each round that leaves a
      message to be tried again and is not the last, in order. */
  predicate WaitsOk(b: Job, rounds: seq<Round>, requests: seq<seq<nat>>, waits: seq<int>)
    requires RoundsOk(b.n, rounds) && |requests| <= |rounds|
  {
    requests != [] && |waits| <= |requests| <= |waits| + 1
    && (forall k :: 0 <= k < |waits| ==> waits[k] == rounds[k].backoff)
    && (if |waits| < |requests| then StopsAfter(b, rounds, requests)
        else |requests| < |rounds| && !rounds[|requests|].waited)
  }

  /** No round follows the last request. */
  predicate StopsAfter(b: Job, rounds: seq<Round>, requests: seq<seq<nat>>)
    requires RoundsOk(b.n, rounds) && 0 < |requests| <= |rounds|
  {
    var k := |requests| - 1;
    |requests| == b.attempts || forall i: nat | i < b.n && i in requests[k] :: !Again(b.op, rounds[k].reply, i)
  }

  /** settleMany.  requests lists the messages of each batch request sent, and waits the
      waits between them. */
  method SettleMany(op: Op, msgs: seq<Message>, configured: int, rounds: seq<Round>, singles: seq<seq<Try>>)
    returns (errs: seq<Verdict>, requests: seq<seq<nat>>, waits: seq<int>)
    requires Distinct(msgs) && RoundsOk(|msgs|, rounds) && Attempts(configured) <= |rounds|
    requires SinglesOk(Job(op, |msgs|, Attempts(configured)), singles)
    modifies msgs
    ensures |errs| == |msgs|
    ensures forall i: nat | i < |msgs| ::
              errs[i] == Whole(Job(op, |msgs|, Attempts(configured)), ItemOf(msgs, singles, i), rounds)
    ensures forall i: nat | i < |msgs| ::
              msgs[i].settled == (old(msgs[i].settled) || ((op.Ack? || op.Nack?) && errs[i].None?))
    ensures forall i: nat | i < |msgs| :: msgs[i].settling == old(msgs[i].settling)
    ensures |requests| <= Attempts(configured) && RequestsOk(op, |msgs|, rounds, requests)
    ensures |msgs| > 1 ==> WaitsOk(Job(op, |msgs|, Attempts(configured)), rounds, requests, waits)
    ensures |msgs| == 1 && msgs[0].Barred().None? ==> WaitsAre(Attempts(configured), singles[0], waits)
  {
    var n := |msgs|;
    errs, requests, waits := seq(n, _ => None), [], [];
    if n == 0 { return; }
    if n == 1 {
      var err, alone := msgs[0].SettleFrom(op, false, configured, singles[0]);
      errs, waits := [err], alone;
      return;
    }
    errs, requests, waits := SettleRounds(Job(op, n, Attempts(configured)), msgs, rounds, singles);
  }

  /** One batch request and what is made of its reply.  left holds the messages
      that go into the next round. */
  method SettleRound(b: Job, msgs: seq<Message>, rounds: seq<Round>, singles: seq<seq<Try>>, r: nat, pending: seq<nat>,
                     errs0: seq<Verdict>, may0: seq<bool>, ghost was: seq<bool>)
    returns (ends: bool, left: seq<nat>, errs: seq<Verdict>, may: seq<bool>)
    requires Distinct(msgs) && |msgs| == b.n == |was| && RoundsOk(b.n, rounds) && SinglesOk(b, singles)
    requires r < b.attempts <= |rounds| && (r > 0 ==> rounds[r].waited) && |errs0| == |may0| == b.n
    requires Increasing(pending) && Below(pending, b.n)
    requires AllOnCourse(b, Items(msgs, singles), rounds, r, pending, was, Book(errs0, may0, Flags(msgs)))
    modifies msgs
    ensures forall m <- msgs :: m.settling == old(m.settling)
    ensures |errs| == |may| == b.n && (ends ==> left == [])
    ensures var now := Book(errs, may, Flags(msgs));
            AllOnCourse(b, Items(msgs, singles), rounds, if ends then r else r + 1, left, was, now)
    ensures ends <==> Ends(rounds[r].reply)
    ensures !ends ==> left == Left(b, rounds[r].reply, pending, may0)
  {
    ghost var items, now := Items(msgs, singles), Book(errs0, may0, Flags(msgs));
    ends, left, errs, may := false, pending, errs0, may0;
    match AckBatch(b.n, rounds[r].reply, pending)
    case Failed(e) =>
      if Is(e, BadRequest) {
        forall i: nat | i < b.n { AllRefused(b, items, rounds, r, pending, was, now, i); }
        errs := SettleAlone(b, msgs, pending, singles, errs, may);
        ends, left := true, [];
        return;
      }
      AllFailed(b, items, rounds, r, pending, was, now);
      errs := WriteErr(errs, pending, Some(e));
      if !Retryable(e) {
        ends, left := true, [];
        return;
      }
      if Uncertain(e) { may := WriteMay(may, pending); }
    case Garbled =>
      AllFailed(b, items, rounds, r, pending, was, now);
      errs := WriteErr(errs, pending, Some(BatchReply));
      may := WriteMay(may, pending);
    case Listed(results) =>
      left, errs, may := TakeResults(b.op, msgs, pending, results, errs, may);
      AllAnswered(b, items, rounds, r, pending, results, was, now, Book(errs, may, Flags(msgs)));
  }

  lemma NoneLeft(b: Job, rounds: seq<Round>, requests: seq<seq<nat>>, pending: seq<nat>)
    requires RoundsOk(b.n, rounds) && 0 < |requests| <= |rounds|
    requires Due(b.op, b.n, rounds, requests, pending) && pending == []
    ensures StopsAfter(b, rounds, requests)
  {
    var k := |requests| - 1;
    forall i: nat | i < b.n && i in requests[k] ensures !Again(b.op, rounds[k].reply, i) {
      assert i !in pending;
    }
  }

  method SettleRounds(b: Job, msgs: seq<Message>, rounds: seq<Round>, singles: seq<seq<Try>>)
    returns (errs: seq<Verdict>, requests: seq<seq<nat>>, waits: seq<int>)
    requires Distinct(msgs) && |msgs| == b.n > 0 && RoundsOk(b.n, rounds)
    requires 1 <= b.attempts <= |rounds| && SinglesOk(b, singles)
    modifies msgs
    ensures |errs| == b.n
    ensures forall i: nat | i < b.n ::
              var fate := Fate(b, ItemOf(msgs, singles, i), false, b.attempts, None, rounds);
              errs[i] == fate && msgs[i].settled == (old(msgs[i].settled) || (Settles(b.op) && fate.None?))
    ensures forall m <- msgs :: m.settling == old(m.settling)
    ensures |requests| <= b.attempts && RequestsOk(b.op, b.n, rounds, requests) && WaitsOk(b, rounds, requests, waits)
  {
    ghost var was := Flags(msgs);
    errs, requests, waits := seq(b.n, _ => None), [], [];
    var pending: seq<nat> := seq(b.n, i => i);
    var may := seq(b.n, _ => false);
    AllStart(b, Items(msgs, singles), rounds, was);
    var r, ends := 0, false;
    while r < b.attempts && pending != []
      invariant 0 <= r <= b.attempts && |errs| == |may| == b.n && |requests| <= b.attempts
      invariant !ends ==> |requests| == r
      invariant |waits| == (if requests == [] then 0 else |requests| - 1)
      invariant forall k :: 0 <= k < |waits| ==> waits[k] == rounds[k].backoff
      invariant requests == [] ==> r == 0 && !ends && pending != []
      invariant ends ==> requests != [] && StopsAfter(b, rounds, requests)
      invariant RequestsOk(b.op, b.n, rounds, requests)
      invariant if ends then pending == [] else Due(b.op, b.n, rounds, requests, pending)
      invariant forall m <- msgs :: m.settling == old(m.settling)
      invariant AllOnCourse(b, Items(msgs, singles), rounds, r, pending, was, Book(errs, may, Flags(msgs)))
      decreases b.attempts - r + |pending|
    {
      if r > 0 { waits := waits + [rounds[r - 1].backoff]; }
      if r > 0 && !rounds[r].waited {
        AllEnd(b, Items(msgs, singles), rounds, r, pending, was, Book(errs, may, Flags(msgs)));
        errs := WriteErr(errs, pending, Some(ContextEnded));
        return;
      }
      NextDue(b, rounds, requests, pending, may);
      requests := requests + [pending];
      ends, pending, errs, may := SettleRound(b, msgs, rounds, singles, r, pending, errs, may, was);
      if !ends { r := r + 1; }
    }
    if pending != [] {
      AllEnd(b, Items(msgs, singles), rounds, r, pending, was, Book(errs, may, Flags(msgs)));
    } else if !ends {
      NoneLeft(b, rounds, requests, pending);
    }
  }
}

/** How a failure is classified: what every retry loop of the client branches on. */
module Errors {

  datatype Op =
    | Produce | ProduceBatch | Consume | Read | Ack | Nack | Extend
    | AckBatch | NackBatch | ExtendBatch
    | CreateTopic | DeleteTopic | SetSchema | Topic | Topics | Ping

  /** The errors a caller matches with errors.Is. */
  datatype Sentinel =
    | BadRequest | Unauthenticated | Forbidden | NotFound | Exists | NameTaken | TopicChanged
    | LeaseLost | NoLease | TooLarge | Throttled | Unavailable | Server | NoNodes | ClientClosed

  /** The texts that classification looks for in the server's message.  A message
      is the set of those it contains. */
  datatype Phrase =
    | MayStillBeApplied        // the change may still be applied
    | BeingDecommissioned      // being decommissioned and takes no new produce
    | NoValidationSlot         // schema validation slot
    | LetterCaseOnly           // differs only in letter case
    | ChangedSinceRead         // topic changed since it was read
    | DelayedChild             // delayed child topic is not allowed

  /** A failed call: a reply that was not a success, a request that got no
      reply, an error the client raised itself, a batch reply that does not
      match its request, or the end of the caller's context. */
  datatype Failure =
    | Api(op: Op, status: int, message: set<Phrase>, retryAfter: int)
    | Conn(op: Op, reached: bool)
    | Own(sentinel: Sentinel)
    | BatchReply
    | ContextEnded

  /** An operation that leaves the server as it was. */
  predicate ReadOnly(op: Op) { op.Read? || op.Topic? || op.Topics? || op.Ping? }

  predicate StoredNothing(message: set<Phrase>)
  {
    BeingDecommissioned in message || NoValidationSlot in message
  }

  /** Whether another attempt of the same request could succeed. */
  predicate Retryable(e: Failure)
  {
    match e
    case Api(_, status, _, _) =>
      status == 429 || status == 503 || status == 421 || status == 408
      || status == 502 || status == 504 || status == 500
    case Conn(_, _) => true
    case Own(sentinel) => sentinel.NoNodes? || sentinel.Unavailable?
    case _ => false
  }

  /** Whether the server may have carried the request out all the same. */
  predicate Uncertain(e: Failure)
  {
    match e
    case Conn(op, reached) => reached && !ReadOnly(op)
    case Api(op, status, message, _) =>
      !ReadOnly(op)
      && (status == 500 || status == 502
          || (status == 503
              && (MayStillBeApplied in message
                  || ((op.Produce? || op.ProduceBatch?) && !StoredNothing(message))
                  || op.CreateTopic? || op.DeleteTopic? || op.SetSchema?)))
    case _ => false
  }

  /** How long to wait before e is tried again: as long as the server asked for, or else
      the backoff drawn. */
  function RetryDelay(e: Failure, backoff: int): int
  {
    if e.Api? && e.retryAfter > 0 then e.retryAfter else backoff
  }

  function StatusSentinel(status: int): Sentinel
  {
    if status == 400 || status == 415 then BadRequest
    else if status == 401 then Unauthenticated
    else if status == 403 then Forbidden
    else if status == 404 then NotFound
    else if status == 409 then Exists
    else if status == 410 then LeaseLost
    else if status == 413 then TooLarge
    else if status == 429 then Throttled
    else if status == 503 || status == 421 then Unavailable
    else if status >= 500 then Server
    else BadRequest
  }

  /** The sentinels a reply matches, refined by the server's message. */
  function ErrorKinds(status: int, message: set<Phrase>): set<Sentinel>
  {
    if status != 409 then {StatusSentinel(status)}
    else if LetterCaseOnly in message then {NameTaken, Exists}
    else if ChangedSinceRead in message then {TopicChanged, Exists}
    else if DelayedChild in message then {BadRequest}
    else {Exists}
  }

  /** errors.Is. */
  predicate Is(e: Failure, s: Sentinel)
  {
    match e
    case Api(_, status, message, _) => s in ErrorKinds(status, message)
    case Own(sentinel) => sentinel == s
    case _ => false
  }

  /** Whether a failure says anything about the health of the node. */
  predicate NodeFault(e: Failure)
  {
    e.Conn? || (e.Api? && (e.status == 500 || e.status == 502 || e.status == 503 || e.status == 504))
  }

  /** Whether a failure speaks of one node only, so that another one need not wait
      out the delay it asked for. */
  predicate MovesOn(e: Failure) { e.Api? && e.status == 503 && !Uncertain(e) }

  /** Only what may be tried again can have been applied: an uncertain failure
      is always retryable, always counts against its node, and is never one the
      next node is tried for at once. */
  lemma UncertainImplies(e: Failure)
    requires Uncertain(e)
    ensures Retryable(e) && NodeFault(e) && !MovesOn(e) && forall s :: Is(e, s) ==> s.Server? || s.Unavailable?
  {
  }

  /** What counts against a node is a connection that failed, or a retryable reply that
      is not about the request or the caller: throttled, misdirected, or too slow to
      arrive. */
  lemma FaultsOfTheNode(e: Failure)
    ensures NodeFault(e) <==> e.Conn? || (e.Api? && Retryable(e) && e.status !in {408, 421, 429})
    ensures NodeFault(e) ==> Retryable(e)
    ensures MovesOn(e) ==> NodeFault(e) && Is(e, Unavailable) && !Uncertain(e)
  {
  }

  predicate Settling(op: Op) { op.Ack? || op.Nack? || op.AckBatch? || op.NackBatch? }

  predicate Producing(op: Op) { op.Produce? || op.ProduceBatch? }

  predicate TopicWrite(op: Op) { op.CreateTopic? || op.DeleteTopic? || op.SetSchema? }

  /** The replies after which a request is tried again as if nothing could have
      happened: any retryable one to a read; to anything else, throttled, misdirected
      or timed out at the router or the gateway, and a 503 as long as it does not say
      that the change may still be applied, comes to no topic write, and to a produce
      says that nothing was stored. */
  lemma CertainFailures(e: Failure)
    requires e.Api?
    ensures Retryable(e) && !Uncertain(e)
            <==> if ReadOnly(e.op) then e.status in {408, 421, 429, 500, 502, 503, 504}
                 else e.status in {408, 421, 429, 504}
                      || (e.status == 503 && MayStillBeApplied !in e.message && !TopicWrite(e.op)
                          && (Producing(e.op) ==> BeingDecommissioned in e.message || NoValidationSlot in e.message))
    ensures Settling(e.op) ==>
              (Uncertain(e)
               <==> e.status == 500 || e.status == 502 || (e.status == 503 && MayStillBeApplied in e.message))
  {
  }

  /** A request that got no reply may be sent again, and may have been carried out if it
      reached the server and was no mere read; of the client's own errors only the two that
      pass may be tried again, and nothing else may. */
  lemma WithoutAReply(e: Failure)
    ensures e.Conn? ==>
              Retryable(e) && NodeFault(e)
              && (Uncertain(e) <==> e.reached && e.op !in {Read, Topic, Topics, Ping})
    ensures e.Own? ==> (Retryable(e) <==> e.sentinel in {NoNodes, Unavailable}) && !Uncertain(e) && !NodeFault(e)
    ensures e.BatchReply? || e.ContextEnded? ==> !Retryable(e) && !Uncertain(e) && !NodeFault(e)
  {
  }

  /** Which replies match each sentinel.  A bad request is what no other sentinel stands
      for, and a delayed child that is refused. */
  lemma SentinelStatuses(e: Failure)
    requires e.Api? && e.status >= 400
    ensures Is(e, Unauthenticated) <==> e.status == 401
    ensures Is(e, Forbidden) <==> e.status == 403
    ensures Is(e, NotFound) <==> e.status == 404
    ensures Is(e, TooLarge) <==> e.status == 413
    ensures Is(e, Throttled) <==> e.status == 429
    ensures Is(e, Server) <==> e.status >= 500 && e.status != 503
    ensures Is(e, BadRequest)
            <==> (e.status < 500 && e.status !in {401, 403, 404, 409, 410, 413, 421, 429})
                 || (e.status == 409 && DelayedChild in e.message && LetterCaseOnly !in e.message
                     && ChangedSinceRead !in e.message)
    ensures Retryable(e) <==> e.status in {408, 421, 429, 500, 502, 503, 504}
  {
  }

  /** Only a 409 means that something exists, unless it refuses a delayed child; a
      clash of names and a topic changed meanwhile still count as that. */
  lemma Conflicts(e: Failure)
    requires e.Api?
    ensures Is(e, Exists)
            <==> e.status == 409
                 && (LetterCaseOnly in e.message || ChangedSinceRead in e.message || DelayedChild !in e.message)
    ensures Is(e, NameTaken) || Is(e, TopicChanged) ==> Is(e, Exists)
    ensures Is(e, LeaseLost) <==> e.status == 410
    ensures Is(e, Unavailable) <==> e.status == 503 || e.status == 421
  {
  }
}

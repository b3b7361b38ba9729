/** A batch of messages, and the body of the request it makes. */
module Batch {
  import opened Errors

  const MAX_BATCH := 100
  const MAX_BYTES := 0x10_0000

  const OPEN := "{\"messages\":["
  const CLOSE := "]}"

  function Join(elements: seq<string>): string
  {
    if elements == [] then ""
    else if |elements| == 1 then elements[0]
    else Join(elements[..|elements| - 1]) + "," + elements[|elements| - 1]
  }

  function BodyText(elements: seq<string>): string { OPEN + Join(elements) + CLOSE }

  lemma JoinNext(elements: seq<string>, e: string)
    ensures |BodyText(elements + [e])| == if elements == [] then 15 + |e| else |BodyText(elements)| + 1 + |e|
  {
    assert (elements + [e])[..|elements|] == elements;
  }

  /** What adding an element comes to. */
  datatype Added = Taken | FullByCount | FullBySize | MessageTooLarge | NotEncoded(e: Failure)

  /** A message once it is encoded, unless that fails. */
  datatype Encoded = Element(text: string) | Failed(e: Failure)

  /** A batch as it should be: its tracked size is that of its body, and within the
      broker's limits. */
  predicate Sound(elements: seq<string>, size: nat)
  {
    |elements| <= MAX_BATCH
    && if elements == [] then size == 0 else size == |BodyText(elements)| && size <= MAX_BYTES
  }

  /** What Add does, in terms of the request that the batch would make. */
  function Verdict(elements: seq<string>, m: Encoded): Added
  {
    if |elements| >= MAX_BATCH then FullByCount
    else if m.Failed? then NotEncoded(m.e)
    else if |BodyText([m.text])| > MAX_BYTES then MessageTooLarge
    else if |BodyText(elements + [m.text])| > MAX_BYTES then FullBySize
    else Taken
  }

  class Batch {
    var elements: seq<string>
    var size: nat

    constructor ()
      ensures elements == [] && size == 0 && Sound(elements, size)
    {
      elements, size := [], 0;
    }

    method Add(m: Encoded) returns (r: Added)
      requires Sound(elements, size)
      modifies this
      ensures Sound(elements, size) && r == Verdict(old(elements), m)
      ensures elements == if r.Taken? then old(elements) + [m.text] else old(elements)
      ensures !r.Taken? ==> size == old(size)
      ensures var full := |old(elements)| >= 100;
              (r.FullByCount? <==> full)
              && (r.NotEncoded? <==> !full && m.Failed?) && (r.NotEncoded? ==> r.e == m.e)
              && (r.MessageTooLarge? <==> !full && m.Element? && |BodyText([m.text])| > 1_048_576)
              && (r.Taken? <==> !full && m.Element? && |BodyText(old(elements) + [m.text])| <= 1_048_576)
    {
      if |elements| >= MAX_BATCH { return FullByCount; }
      if m.Failed? { return NotEncoded(m.e); }
      JoinNext([], m.text);
      JoinNext(elements, m.text);
      assert [] + [m.text] == [m.text];
      if |OPEN| + |m.text| + |CLOSE| > MAX_BYTES { return MessageTooLarge; }
      var more := size + |m.text|;
      if |elements| == 0 {
        more := more + |OPEN| + |CLOSE|;
      } else {
        more := more + 1;
      }
      if more > MAX_BYTES { return FullBySize; }
      elements, size := elements + [m.text], more;
      return Taken;
    }

    method Body() returns (body: string)
      requires Sound(elements, size)
      ensures body == BodyText(elements) && (elements != [] ==> |body| == size)
    {
      body := OPEN;
      body := body + Join(elements);
      body := body + CLOSE;
    }
  }

  /** The elements of a batch after a series of calls of Add. */
  function After(adds: seq<Encoded>): seq<string>
  {
    if adds == [] then []
    else
      var before, m := After(adds[..|adds| - 1]), adds[|adds| - 1];
      if Verdict(before, m).Taken? then before + [m.text] else before
  }

  /** However Add is called, a batch that is not empty makes a request within the
      broker's limits. */
  lemma {:induction false} AlwaysSendable(adds: seq<Encoded>)
    ensures var elements := After(adds);
            |elements| <= MAX_BATCH && (elements != [] ==> |BodyText(elements)| <= MAX_BYTES)
  {
    if adds != [] { AlwaysSendable(adds[..|adds| - 1]); }
  }

  /** A message is taken exactly when the request it makes is within the broker's limits,
      100 messages and 1 MiB, and refused for good exactly when no request could be. */
  lemma TakenExactlyWhenItFits(elements: seq<string>, m: Encoded)
    ensures Verdict(elements, m).Taken?
            <==> m.Element? && |elements| < 100 && |BodyText(elements + [m.text])| <= 1_048_576
    ensures Verdict(elements, m).MessageTooLarge? ==>
              forall others: seq<string> :: |BodyText(others + [m.text])| > 1_048_576
    ensures |elements| < 100 && m.Element?
            && (forall others: seq<string> :: |BodyText(others + [m.text])| > 1_048_576) ==>
              Verdict(elements, m).MessageTooLarge?
  {
    if m.Element? {
      AloneIsSmallest(elements, m.text);
      assert [] + [m.text] == [m.text];
      forall others: seq<string> ensures |BodyText([m.text])| <= |BodyText(others + [m.text])| {
        AloneIsSmallest(others, m.text);
      }
    }
  }

  /** A message that the batch has no room for is taken by a fresh one, unless it was
      refused before it was encoded. */
  lemma FreshBatchTakesIt(elements: seq<string>, m: Encoded)
    requires Verdict(elements, m).FullBySize?
    ensures Verdict([], m).Taken?
  {
    assert [] + [m.text] == [m.text];
  }

  /** The check of a message alone is never the stricter one: what passes the check
      against the batch would pass it too. */
  lemma {:induction false} AloneIsSmallest(elements: seq<string>, e: string)
    ensures |BodyText([e])| <= |BodyText(elements + [e])|
  {
    JoinNext([], e);
    JoinNext(elements, e);
    assert [] + [e] == [e];
  }
}

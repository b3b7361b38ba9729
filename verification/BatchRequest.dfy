/** What the broker reads from the body of a whole batch request. */
module BatchRequest {
  import opened Common
  import Base64
  import Batch
  import BatchEncoding

  /** The elements of the array, from after its opening bracket, each a JSON value. */
  function ReadElements(j: BatchEncoding.Json, text: string): Option<seq<string>>
    decreases |text|
  {
    var k := j.scan(text);
    if k >= |text| then None
    else if text[k] == ']' then if text[k + 1..] == "}" then Some([text[..k]]) else None
    else if text[k] == ',' then
      var more := ReadElements(j, text[k + 1..]);
      if more.None? then None else Some([text[..k]] + more.value)
    else None
  }

  function ReadBody(j: BatchEncoding.Json, body: string): Option<seq<string>>
  {
    var open := "{\"messages\":[";
    if |body| < |open| || body[..|open|] != open then None else ReadElements(j, body[|open|..])
  }

  /** An object whose members are values is a value too, and values end at the bracket of
      an array as they do inside an object. */
  ghost predicate LawfulInArrays(j: BatchEncoding.Json)
  {
    BatchEncoding.Lawful(j)
    && (forall p, rest {:trigger j.scan(p + rest)} ::
          j.valid(p) && rest != "" && rest[0] == ']' ==> j.scan(p + rest) == |p|)
    && forall ms {:trigger BatchEncoding.ObjectText(ms)} ::
         ms != [] && BatchEncoding.Writable(j, ms) ==> j.valid(BatchEncoding.ObjectText(ms))
  }

  lemma {:induction false} FrontElement(e: string, es: seq<string>)
    requires es != []
    ensures Batch.Join([e] + es) == e + "," + Batch.Join(es)
  {
    var last := |es| - 1;
    assert ([e] + es)[..last + 1] == [e] + es[..last];
    if last > 0 {
      FrontElement(e, es[..last]);
      assert (e + "," + Batch.Join(es[..last])) + "," + es[last] == e + "," + (Batch.Join(es[..last]) + "," + es[last]);
    }
  }

  lemma ElementEnds(j: BatchEncoding.Json, e: string, rest: string)
    requires LawfulInArrays(j) && j.valid(e) && rest != "" && (rest[0] == ',' || rest[0] == ']')
    ensures var text := e + rest;
            j.scan(text) == |e| && text[..|e|] == e && text[|e|] == rest[0] && text[|e| + 1..] == rest[1..]
  {
  }

  /** The elements read back in order. */
  lemma {:induction false} ElementsReadBack(j: BatchEncoding.Json, es: seq<string>)
    requires LawfulInArrays(j) && es != [] && forall e <- es :: j.valid(e)
    ensures ReadElements(j, Batch.Join(es) + "]}") == Some(es)
    decreases |es|
  {
    assert es[0] in es;
    if |es| == 1 {
      ElementEnds(j, es[0], "]}");
      assert [es[0]] == es && "]}"[1..] == "}";
    } else {
      var rest := es[1..];
      ElementsReadBack(j, rest);
      FrontElement(es[0], rest);
      ReadNext(j, es[0], Batch.Join(rest) + "]}");
      Regroups(es[0], Batch.Join(rest));
      assert [es[0]] + rest == es;
    }
  }

  lemma Regroups(e: string, rest: string)
    ensures e + "," + rest + "]}" == e + ("," + (rest + "]}"))
  {
  }

  lemma ReadNext(j: BatchEncoding.Json, e: string, rest: string)
    requires LawfulInArrays(j) && j.valid(e)
    ensures ReadElements(j, e + ("," + rest))
            == var more := ReadElements(j, rest); if more.None? then None else Some([e] + more.value)
  {
    var after := "," + rest;
    assert after[1..] == rest;
    ElementEnds(j, e, after);
  }

  lemma BodyReadsBack(j: BatchEncoding.Json, es: seq<string>)
    requires LawfulInArrays(j) && es != [] && forall e <- es :: j.valid(e)
    ensures ReadBody(j, Batch.BodyText(es)) == Some(es)
  {
    ElementsReadBack(j, es);
    var open, body := "{\"messages\":[", Batch.BodyText(es);
    assert body == open + (Batch.Join(es) + "]}");
    assert body[..|open|] == open && body[|open|..] == Batch.Join(es) + "]}";
  }

  predicate Sendable(m: BatchEncoding.Message) { Base64.Bytes(m.payload) && Base64.Bytes(m.key) && m.payload != "" }

  function ElementOf(j: BatchEncoding.Json, m: BatchEncoding.Message): string
    requires Sendable(m)
  {
    BatchEncoding.ObjectText(BatchEncoding.Members(j, m))
  }

  function Elements(j: BatchEncoding.Json, ms: seq<BatchEncoding.Message>): (es: seq<string>)
    requires forall k :: 0 <= k < |ms| ==> Sendable(ms[k])
    ensures |es| == |ms|
  {
    seq(|ms|, k requires 0 <= k < |ms| => ElementOf(j, ms[k]))
  }

  /** From the body of a request with any messages, the broker reads as many elements, and
      stores exactly those messages in the same order. */
  lemma RequestReadsBack(j: BatchEncoding.Json, ms: seq<BatchEncoding.Message>) returns (read: seq<string>)
    requires LawfulInArrays(j) && ms != [] && forall k :: 0 <= k < |ms| ==> Sendable(ms[k])
    ensures ReadBody(j, Batch.BodyText(Elements(j, ms))) == Some(read) && |read| == |ms|
    ensures forall k :: 0 <= k < |ms| ==>
              BatchEncoding.Receive(j, read[k])
              == BatchEncoding.Accepted(BatchEncoding.Stored(ms[k].payload, ms[k].key, ms[k].partition))
  {
    read := Elements(j, ms);
    forall k | 0 <= k < |ms|
      ensures j.valid(read[k])
              && BatchEncoding.Receive(j, read[k])
                 == BatchEncoding.Accepted(BatchEncoding.Stored(ms[k].payload, ms[k].key, ms[k].partition))
    {
      BatchEncoding.ElementIsWritable(j, ms[k]);
      BatchEncoding.ElementReadsBack(j, ms[k]);
    }
    BodyReadsBack(j, read);
  }
}

/** The text of a batch element, and what the broker reads from it. */
module BatchEncoding {
  import opened Common
  import Base64

  /** The JSON library: which texts are JSON values without white space around them,
      how long the value is that a text starts with, which strings are valid UTF-8,
      and how strings and integers are written and read. */
  datatype Json = Json(
    valid: string -> bool, scan: string -> nat, utf8: string -> bool,
    quote: string -> string, unquote: string -> Option<string>,
    digits: int -> string, integer: string -> Option<int>)

  /** No character that a JSON string has to escape. */
  predicate Plain(s: string) { forall k :: 0 <= k < |s| ==> ' ' <= s[k] <= '~' && s[k] != '"' && s[k] != '\\' }

  function Quoted(s: string): string { "\"" + s + "\"" }

  /** A text that can follow a value in an object. */
  predicate Stops(rest: string) { rest != "" && (rest[0] == ',' || rest[0] == '}') }

  /** What is relied on: a value is read to its own end, what is written is a value
      and reads back. */
  ghost predicate Lawful(j: Json)
  {
    (forall p, rest {:trigger j.scan(p + rest)} :: j.valid(p) && Stops(rest) ==> j.scan(p + rest) == |p|)
    && (forall s :: j.utf8(s) ==> j.valid(j.quote(s)) && j.unquote(j.quote(s)) == Some(s))
    && (forall s :: Plain(s) ==> j.valid(Quoted(s)) && j.unquote(Quoted(s)) == Some(s))
    && (forall n :: j.valid(j.digits(n)) && j.integer(j.digits(n)) == Some(n))
  }

  /** A member of an object, its value as it is written. */
  datatype Member = Member(name: string, raw: string)

  function Label(name: string): string { "\"" + name + "\":" }

  function MemberText(m: Member): string { Label(m.name) + m.raw }

  function MembersText(ms: seq<Member>): string
  {
    if ms == [] then ""
    else if |ms| == 1 then MemberText(ms[0])
    else MembersText(ms[..|ms| - 1]) + "," + MemberText(ms[|ms| - 1])
  }

  function ObjectText(ms: seq<Member>): string { "{" + MembersText(ms) + "}" }

  // ----- batchElement -----

  /** A message of a batch: its payload, whether it is sent as JSON, its key, and the
      partition it is pinned to, if any. */
  datatype Message = Message(payload: string, isJson: bool, key: string, partition: Option<int>)

  /** A value as it is, or its base64 text with a member beside it that says so. */
  function Written(name: string, flag: string, plain: bool, value: string, text: string): seq<Member>
  {
    if plain then [Member(name, value)] else [Member(name, Quoted(text)), Member(flag, Quoted(Base64.NAME))]
  }

  function PayloadMembers(j: Json, m: Message): seq<Member>
    requires Base64.Bytes(m.payload)
  {
    Written("payload", "payload_encoding", m.isJson && j.valid(m.payload), m.payload, Base64.Encode(m.payload))
  }

  function KeyMembers(j: Json, m: Message): seq<Member>
    requires Base64.Bytes(m.key)
  {
    if m.key == "" then [] else Written("key", "key_encoding", j.utf8(m.key), j.quote(m.key), Base64.Encode(m.key))
  }

  function PartitionMembers(j: Json, m: Message): seq<Member>
  {
    if m.partition.Some? then [Member("partition", j.digits(m.partition.value))] else []
  }

  function Members(j: Json, m: Message): seq<Member>
    requires Base64.Bytes(m.payload) && Base64.Bytes(m.key)
  {
    PayloadMembers(j, m) + KeyMembers(j, m) + PartitionMembers(j, m)
  }

  function ValueText(flag: string, plain: bool, value: string, text: string): string
  {
    if plain then value else Quoted(text) + "," + Label(flag) + Quoted(Base64.NAME)
  }

  lemma AppendMember(ms: seq<Member>, m: Member)
    requires ms != []
    ensures MembersText(ms + [m]) == MembersText(ms) + "," + Label(m.name) + m.raw
  {
    assert (ms + [m])[..|ms|] == ms;
  }

  lemma FirstWritten(name: string, flag: string, plain: bool, value: string, text: string)
    ensures MembersText(Written(name, flag, plain, value, text)) == Label(name) + ValueText(flag, plain, value, text)
  {
    if !plain {
      var a, b := Member(name, Quoted(text)), Member(flag, Quoted(Base64.NAME));
      AppendMember([a], b);
      assert [a] + [b] == [a, b];
    }
  }

  lemma AppendTwo(ms: seq<Member>, a: Member, b: Member)
    requires ms != []
    ensures MembersText(ms + [a, b]) == MembersText(ms) + "," + Label(a.name) + (a.raw + "," + Label(b.name) + b.raw)
  {
    AppendMember(ms, a);
    AppendMember(ms + [a], b);
    assert ms + [a] + [b] == ms + [a, b];
    Associates(MembersText(ms) + "," + Label(a.name), a.raw, ",", Label(b.name));
    Associates(MembersText(ms) + "," + Label(a.name), a.raw + ",", Label(b.name), b.raw);
  }

  lemma Associates(a: string, b: string, c: string, d: string)
    ensures a + b + c + d == a + (b + c + d)
  {
  }

  lemma NextWritten(ms: seq<Member>, name: string, flag: string, plain: bool, value: string, text: string)
    requires ms != []
    ensures MembersText(ms + Written(name, flag, plain, value, text))
            == MembersText(ms) + "," + Label(name) + ValueText(flag, plain, value, text)
  {
    if plain {
      AppendMember(ms, Member(name, value));
    } else {
      AppendTwo(ms, Member(name, Quoted(text)), Member(flag, Quoted(Base64.NAME)));
    }
  }

  /** Writes a value into the buffer, as it is or as base64. */
  method WriteValue(out: string, flag: string, plain: bool, value: string, text: string) returns (more: string)
    ensures more == out + ValueText(flag, plain, value, text)
  {
    more := out;
    if plain {
      more := more + value;
    } else {
      more := more + "\"";
      more := more + text;
      more := more + "\"" + "," + Label(flag) + Quoted(Base64.NAME);
    }
  }

  /** The element so far, with a first member. */
  method WriteFirst(name: string, flag: string, plain: bool, value: string, text: string) returns (out: string)
    ensures out == "{" + MembersText(Written(name, flag, plain, value, text))
  {
    FirstWritten(name, flag, plain, value, text);
    out := "{" + Label(name);
    out := WriteValue(out, flag, plain, value, text);
  }

  /** The element so far, with one more member. */
  method WriteNext(so: string, ghost ms: seq<Member>, name: string, flag: string,
                   plain: bool, value: string, text: string)
    returns (out: string)
    requires so == "{" + MembersText(ms) && ms != []
    ensures out == "{" + MembersText(ms + Written(name, flag, plain, value, text))
  {
    NextWritten(ms, name, flag, plain, value, text);
    out := so + "," + Label(name);
    out := WriteValue(out, flag, plain, value, text);
  }

  /** batchElement: writes the element piece by piece. */
  method BatchElement(j: Json, m: Message) returns (out: string)
    requires Base64.Bytes(m.payload) && Base64.Bytes(m.key)
    ensures out == ObjectText(Members(j, m))
  {
    var plain := m.isJson && j.valid(m.payload);
    out := WriteFirst("payload", "payload_encoding", plain, m.payload, Base64.Encode(m.payload));
    ghost var ms := PayloadMembers(j, m);
    if m.key != "" {
      out := WriteNext(out, ms, "key", "key_encoding", j.utf8(m.key), j.quote(m.key), Base64.Encode(m.key));
    } else {
      assert ms + [] == ms;
    }
    ms := ms + KeyMembers(j, m);
    if m.partition.Some? {
      out := WriteNext(out, ms, "partition", "", true, j.digits(m.partition.value), "");
    } else {
      assert ms + [] == ms;
    }
    assert ms + PartitionMembers(j, m) == Members(j, m);
    out := out + "}";
  }

  // ----- reading an element -----

  function UpToQuote(text: string): (n: nat)
    ensures n <= |text| && (n < |text| ==> text[n] == '"')
  {
    if text == "" || text[0] == '"' then 0 else 1 + UpToQuote(text[1..])
  }

  /** The members of an object, from after its opening brace. */
  function ReadMembers(j: Json, text: string): Option<seq<Member>>
    decreases |text|
  {
    if text == "" || text[0] != '"' then None
    else
      var n := UpToQuote(text[1..]);
      if n + 3 > |text| || text[n + 2] != ':' then None
      else
        var rest := text[n + 3..];
        var k := j.scan(rest);
        if k >= |rest| then None
        else
          var m := Member(text[1..n + 1], rest[..k]);
          if rest[k] == '}' then if k + 1 == |rest| then Some([m]) else None
          else if rest[k] == ',' then
            var more := ReadMembers(j, rest[k + 1..]);
            if more.None? then None else Some([m] + more.value)
          else None
  }

  function ReadObject(j: Json, text: string): Option<seq<Member>>
  {
    if text == "" || text[0] != '{' then None else ReadMembers(j, text[1..])
  }

  predicate NoQuote(s: string) { forall k :: 0 <= k < |s| ==> s[k] != '"' }

  predicate Writable(j: Json, ms: seq<Member>)
  {
    forall k :: 0 <= k < |ms| ==> NoQuote(ms[k].name) && j.valid(ms[k].raw)
  }

  lemma {:induction false} QuoteFound(s: string, rest: string)
    requires NoQuote(s)
    ensures UpToQuote(s + "\"" + rest) == |s|
  {
    if s == "" {
      assert s + "\"" + rest == "\"" + rest;
    } else {
      QuoteFound(s[1..], rest);
      assert (s + "\"" + rest)[1..] == s[1..] + "\"" + rest;
    }
  }

  /** A member is read to its end, whatever stops it. */
  lemma ReadFirst(j: Json, m: Member, rest: string)
    requires Lawful(j) && NoQuote(m.name) && j.valid(m.raw) && Stops(rest)
    ensures ReadMembers(j, MemberText(m) + rest)
            == if rest[0] == '}' then if rest == "}" then Some([m]) else None
               else
                 var more := ReadMembers(j, rest[1..]);
                 if more.None? then None else Some([m] + more.value)
  {
    var text, n := MemberText(m) + rest, |m.name|;
    MemberParts(m, rest);
    QuoteFound(m.name, ":" + m.raw + rest);
    assert j.scan(m.raw + rest) == |m.raw|;
  }

  /** Where the parts of a member's text are. */
  lemma MemberParts(m: Member, rest: string)
    ensures var text, n := MemberText(m) + rest, |m.name|;
            text[0] == '"' && text[1..] == m.name + "\"" + (":" + m.raw + rest) && text[1..n + 1] == m.name
            && text[n + 2] == ':' && text[n + 3..] == m.raw + rest
    ensures (m.raw + rest)[..|m.raw|] == m.raw && (rest != "" ==> (m.raw + rest)[|m.raw| + 1..] == rest[1..])
  {
  }

  lemma {:induction false} FrontMember(m: Member, ms: seq<Member>)
    requires ms != []
    ensures MembersText([m] + ms) == MemberText(m) + "," + MembersText(ms)
  {
    var last := |ms| - 1;
    assert ([m] + ms)[..last + 1] == [m] + ms[..last];
    if last > 0 {
      FrontMember(m, ms[..last]);
      Associates(MemberText(m) + ",", MembersText(ms[..last]), ",", MemberText(ms[last]));
    }
  }

  /** The text of an object reads back as its members. */
  lemma {:induction false} MembersReadBack(j: Json, ms: seq<Member>)
    requires Lawful(j) && ms != [] && Writable(j, ms)
    ensures ReadMembers(j, MembersText(ms) + "}") == Some(ms)
    decreases |ms|
  {
    if |ms| == 1 {
      ReadFirst(j, ms[0], "}");
      assert [ms[0]] == ms;
    } else {
      var rest := ms[1..];
      MembersReadBack(j, rest);
      FrontMember(ms[0], rest);
      assert [ms[0]] + rest == ms;
      var after := "," + (MembersText(rest) + "}");
      assert after[1..] == MembersText(rest) + "}";
      ReadFirst(j, ms[0], after);
      assert MembersText(ms) + "}" == MemberText(ms[0]) + after by {
        JoinsUp(MemberText(ms[0]), ",", MembersText(rest), "}");
      }
    }
  }

  lemma JoinsUp(a: string, b: string, c: string, d: string)
    ensures a + b + c + d == a + (b + (c + d))
  {
  }

  // ----- what the broker stores -----

  datatype Stored = Stored(payload: string, key: string, partition: Option<int>)

  datatype Receipt = Accepted(s: Stored) | InvalidJson | InvalidKey | InvalidPayload | MessageRequired

  /** The value of a member, the last one of that name. */
  function Find(ms: seq<Member>, name: string): Option<string>
  {
    if ms == [] then None
    else
      var m := ms[|ms| - 1];
      if m.name == name then Some(m.raw) else Find(ms[..|ms| - 1], name)
  }

  /** A string member, empty when there is none; none when it is not a string. */
  function Text(j: Json, ms: seq<Member>, name: string): Option<string>
  {
    var raw := Find(ms, name);
    if raw.None? then Some("") else j.unquote(raw.value)
  }

  function Whole(j: Json, ms: seq<Member>, name: string): Option<Option<int>>
  {
    var raw := Find(ms, name);
    if raw.None? then Some(None)
    else
      var n := j.integer(raw.value);
      if n.None? then None else Some(n)
  }

  /** How the broker reads one element of a batch. */
  function Receive(j: Json, text: string): Receipt
  {
    var ms := ReadObject(j, text);
    if ms.None? then InvalidJson else Store(j, ms.value)
  }

  function Store(j: Json, ms: seq<Member>): Receipt
  {
    var payload := Find(ms, "payload");
    var flag, key, keyFlag := Text(j, ms, "payload_encoding"), Text(j, ms, "key"), Text(j, ms, "key_encoding");
    var partition := Whole(j, ms, "partition");
    if flag.None? || key.None? || keyFlag.None? || partition.None? then InvalidJson
    else
      StoreFields(j, if payload.None? then "" else payload.value, flag.value == Base64.NAME,
                  key.value, keyFlag.value == Base64.NAME, partition.value)
  }

  function StoreFields(j: Json, payload: string, encoded: bool, key: string, keyEncoded: bool,
                       partition: Option<int>): Receipt
  {
    var k := if keyEncoded then Base64.Decode(key) else Some(key);
    if k.None? then InvalidKey
    else
      var quoted := if encoded then j.unquote(payload) else Some("");
      if quoted.None? then InvalidPayload
      else
        var p := if encoded then Base64.Decode(quoted.value) else Some(payload);
        if p.None? then InvalidPayload
        else if p.value == "" then MessageRequired
        else Accepted(Stored(p.value, k.value, partition))
  }

  lemma {:induction false} FindIn(front: seq<Member>, back: seq<Member>, name: string)
    ensures Find(front + back, name) == if Find(back, name).Some? then Find(back, name) else Find(front, name)
  {
    if back == [] {
      assert front + back == front;
    } else {
      assert (front + back)[..|front + back| - 1] == front + back[..|back| - 1];
      FindIn(front, back[..|back| - 1], name);
    }
  }

  lemma FindWritten(name: string, flag: string, plain: bool, value: string, text: string, other: string)
    requires name != flag
    ensures Find(Written(name, flag, plain, value, text), other)
            == if other == name then Some(if plain then value else Quoted(text))
               else if other == flag && !plain then Some(Quoted(Base64.NAME))
               else None
  {
    if plain {
      FindOne(Member(name, value), other);
    } else {
      var a, b := Member(name, Quoted(text)), Member(flag, Quoted(Base64.NAME));
      FindOne(a, other);
      FindOne(b, other);
      FindIn([a], [b], other);
      assert [a] + [b] == [a, b];
    }
  }

  lemma FindOne(m: Member, name: string)
    ensures Find([m], name) == if m.name == name then Some(m.raw) else None
  {
    assert [m][..0] == [];
  }

  /** What is found in an element, member by member. */
  lemma FindInElement(j: Json, m: Message, name: string)
    requires Base64.Bytes(m.payload) && Base64.Bytes(m.key)
    ensures Find(Members(j, m), name)
            == if name == "partition" && m.partition.Some? then Some(j.digits(m.partition.value))
               else if Find(KeyMembers(j, m), name).Some? then Find(KeyMembers(j, m), name)
               else Find(PayloadMembers(j, m), name)
  {
    FindIn(PayloadMembers(j, m) + KeyMembers(j, m), PartitionMembers(j, m), name);
    FindIn(PayloadMembers(j, m), KeyMembers(j, m), name);
    if m.partition.Some? { FindOne(PartitionMembers(j, m)[0], name); }
  }

  // ----- the round trip -----

  lemma EncodeIsPlain(b: string)
    requires Base64.Bytes(b)
    ensures Plain(Base64.Encode(b))
  {
    Base64.EncodeAlphabet(b);
  }

  lemma Base64IsPlain()
    ensures Plain(Base64.NAME)
  {
  }

  lemma WrittenIsWritable(j: Json, name: string, flag: string, plain: bool, value: string, b: string)
    requires Lawful(j) && NoQuote(name) && NoQuote(flag) && Base64.Bytes(b) && (plain ==> j.valid(value))
    ensures Writable(j, Written(name, flag, plain, value, Base64.Encode(b)))
  {
    EncodeIsPlain(b);
    Base64IsPlain();
  }

  lemma NamesAreWritable()
    ensures NoQuote("payload") && NoQuote("payload_encoding") && NoQuote("key")
    ensures NoQuote("key_encoding") && NoQuote("partition")
  {
  }

  lemma ElementIsWritable(j: Json, m: Message)
    requires Lawful(j) && Base64.Bytes(m.payload) && Base64.Bytes(m.key)
    ensures Writable(j, Members(j, m)) && Members(j, m) != []
  {
    NamesAreWritable();
    WrittenIsWritable(j, "payload", "payload_encoding", m.isJson && j.valid(m.payload), m.payload, m.payload);
    WrittenIsWritable(j, "key", "key_encoding", j.utf8(m.key), j.quote(m.key), m.key);
    if m.partition.Some? { DigitsRead(j, m.partition.value); }
    WritableBoth(j, PayloadMembers(j, m), KeyMembers(j, m));
    WritableBoth(j, PayloadMembers(j, m) + KeyMembers(j, m), PartitionMembers(j, m));
  }

  lemma DigitsRead(j: Json, n: int)
    requires Lawful(j)
    ensures j.valid(j.digits(n)) && j.integer(j.digits(n)) == Some(n)
  {
  }

  lemma WritableBoth(j: Json, a: seq<Member>, b: seq<Member>)
    requires Writable(j, a) && Writable(j, b)
    ensures Writable(j, a + b)
  {
  }

  lemma PayloadFound(j: Json, m: Message)
    requires Lawful(j) && Base64.Bytes(m.payload) && Base64.Bytes(m.key)
    ensures var ms, plain := Members(j, m), m.isJson && j.valid(m.payload);
            Find(ms, "payload") == Some(if plain then m.payload else Quoted(Base64.Encode(m.payload)))
            && Text(j, ms, "payload_encoding") == Some(if plain then "" else Base64.NAME)
  {
    FindInElement(j, m, "payload");
    FindInElement(j, m, "payload_encoding");
    var plain := m.isJson && j.valid(m.payload);
    FindWritten("payload", "payload_encoding", plain, m.payload, Base64.Encode(m.payload), "payload");
    FindWritten("payload", "payload_encoding", plain, m.payload, Base64.Encode(m.payload), "payload_encoding");
    FindWritten("key", "key_encoding", j.utf8(m.key), j.quote(m.key), Base64.Encode(m.key), "payload");
    FindWritten("key", "key_encoding", j.utf8(m.key), j.quote(m.key), Base64.Encode(m.key), "payload_encoding");
    Base64IsPlain();
  }

  lemma KeyFound(j: Json, m: Message)
    requires Lawful(j) && Base64.Bytes(m.payload) && Base64.Bytes(m.key)
    ensures var ms, plain := Members(j, m), m.key == "" || j.utf8(m.key);
            Text(j, ms, "key") == Some(if plain then m.key else Base64.Encode(m.key))
            && Text(j, ms, "key_encoding") == Some(if plain then "" else Base64.NAME)
  {
    FindInElement(j, m, "key");
    FindInElement(j, m, "key_encoding");
    var plain := m.isJson && j.valid(m.payload);
    FindWritten("payload", "payload_encoding", plain, m.payload, Base64.Encode(m.payload), "key");
    FindWritten("payload", "payload_encoding", plain, m.payload, Base64.Encode(m.payload), "key_encoding");
    FindWritten("key", "key_encoding", j.utf8(m.key), j.quote(m.key), Base64.Encode(m.key), "key");
    FindWritten("key", "key_encoding", j.utf8(m.key), j.quote(m.key), Base64.Encode(m.key), "key_encoding");
    Base64IsPlain();
    EncodeIsPlain(m.key);
  }

  lemma PartitionFound(j: Json, m: Message)
    requires Lawful(j) && Base64.Bytes(m.payload) && Base64.Bytes(m.key)
    ensures Whole(j, Members(j, m), "partition") == Some(m.partition)
  {
    FindInElement(j, m, "partition");
    var plain := m.isJson && j.valid(m.payload);
    FindWritten("payload", "payload_encoding", plain, m.payload, Base64.Encode(m.payload), "partition");
    FindWritten("key", "key_encoding", j.utf8(m.key), j.quote(m.key), Base64.Encode(m.key), "partition");
    if m.partition.Some? { DigitsRead(j, m.partition.value); }
  }

  /** Whatever bytes its payload and key are, and whether or not the payload claims to
      be JSON, the broker stores a message of a batch exactly as it was added. */
  lemma ElementReadsBack(j: Json, m: Message)
    requires Lawful(j) && Base64.Bytes(m.payload) && Base64.Bytes(m.key) && m.payload != ""
    ensures Receive(j, ObjectText(Members(j, m))) == Accepted(Stored(m.payload, m.key, m.partition))
  {
    var ms := Members(j, m);
    ElementIsWritable(j, m);
    MembersReadBack(j, ms);
    ObjectReadsBack(j, ms);
    StoresMessage(j, m, ms);
  }

  lemma StoresMessage(j: Json, m: Message, ms: seq<Member>)
    requires Lawful(j) && Base64.Bytes(m.payload) && Base64.Bytes(m.key) && m.payload != "" && ms == Members(j, m)
    ensures Store(j, ms) == Accepted(Stored(m.payload, m.key, m.partition))
  {
    PayloadFound(j, m);
    KeyFound(j, m);
    PartitionFound(j, m);
    StoresFields(j, m, m.isJson && j.valid(m.payload), m.key == "" || j.utf8(m.key));
  }

  lemma StoresFields(j: Json, m: Message, plain: bool, keyPlain: bool)
    requires Lawful(j) && Base64.Bytes(m.payload) && Base64.Bytes(m.key) && m.payload != ""
    ensures StoreFields(j, if plain then m.payload else Quoted(Base64.Encode(m.payload)), !plain,
                        if keyPlain then m.key else Base64.Encode(m.key), !keyPlain, m.partition)
            == Accepted(Stored(m.payload, m.key, m.partition))
  {
    Base64.ReadsBack(m.payload);
    Base64.ReadsBack(m.key);
    EncodeIsPlain(m.payload);
  }

  lemma ObjectReadsBack(j: Json, ms: seq<Member>)
    requires ReadMembers(j, MembersText(ms) + "}") == Some(ms)
    ensures ReadObject(j, ObjectText(ms)) == Some(ms)
  {
    AfterBrace(MembersText(ms));
  }

  lemma AfterBrace(text: string)
    ensures ("{" + text + "}")[1..] == text + "}"
  {
  }
}

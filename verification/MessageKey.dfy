/** A message's key in JSON, which cannot carry every byte string. */
module MessageKey {
  import Base64

  /** The key and key_encoding members of a message. */
  datatype Wire = Wire(key: string, encoding: string)

  /** A string as it comes out of JSON after it went in: bytes that are not valid
      UTF-8 are replaced, anything else is kept. */
  datatype Carrier = Carrier(utf8: string -> bool, carry: string -> string)

  ghost predicate Lawful(c: Carrier)
  {
    (forall s :: c.carry(s) == s <==> c.utf8(s)) && forall s :: Base64.Alphabet(s) ==> c.utf8(s)
  }

  /** MarshalJSON. */
  function Marshal(c: Carrier, key: string): Wire
    requires Base64.Bytes(key)
  {
    if c.utf8(key) then Wire(key, "") else Wire(Base64.Encode(key), Base64.NAME)
  }

  function Carried(c: Carrier, w: Wire): Wire { Wire(c.carry(w.key), w.encoding) }

  datatype Result = Key(key: string) | NotBase64 | UnknownEncoding

  /** UnmarshalJSON. */
  function Unmarshal(w: Wire): Result
  {
    if w.encoding == "" then Key(w.key)
    else if w.encoding == Base64.NAME then
      var key := Base64.Decode(w.key);
      if key.None? then NotBase64 else Key(key.value)
    else UnknownEncoding
  }

  /** Every key survives being written out and read back. */
  lemma KeySurvives(c: Carrier, key: string)
    requires Lawful(c) && Base64.Bytes(key)
    ensures Unmarshal(Carried(c, Marshal(c, key))) == Key(key)
  {
    if !c.utf8(key) {
      Base64.ReadsBack(key);
      Base64.EncodeAlphabet(key);
      assert c.utf8(Base64.Encode(key));
    }
  }

  /** The encoding is marked exactly for the keys that JSON itself would lose. */
  lemma MarkedWhenLost(c: Carrier, key: string)
    requires Lawful(c) && Base64.Bytes(key)
    ensures Marshal(c, key).encoding == Base64.NAME <==> c.carry(key) != key
  {
    assert c.carry(key) == key <==> c.utf8(key);
  }
}

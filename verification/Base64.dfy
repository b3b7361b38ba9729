/** Base64 with padding (RFC 4648, section 4).  A byte string is a string whose
    characters are bytes. */
module Base64 {
  import opened Common

  /** What a member that marks base64 text says. */
  const NAME := "base64"

  predicate Bytes(s: string) { forall k :: 0 <= k < |s| ==> s[k] as int < 256 }

  function Letter(v: nat): char
    requires v < 64
  {
    if v < 26 then (65 + v) as char
    else if v < 52 then (71 + v) as char
    else if v < 62 then (v - 4) as char
    else if v == 62 then '+' else '/'
  }

  function LetterValue(c: char): Option<nat>
  {
    if 'A' <= c <= 'Z' then Some(c as int - 65)
    else if 'a' <= c <= 'z' then Some(c as int - 71)
    else if '0' <= c <= '9' then Some(c as int + 4)
    else if c == '+' then Some(62)
    else if c == '/' then Some(63)
    else None
  }

  lemma LetterReadsBack(v: nat)
    requires v < 64
    ensures LetterValue(Letter(v)) == Some(v) && Letter(v) != '='
  {
  }

  /** EncodeToString. */
  function Encode(b: string): (s: string)
    requires Bytes(b)
    ensures |s| == 4 * ((|b| + 2) / 3)
  {
    if b == "" then ""
    else if |b| == 1 then
      var x := b[0] as int;
      [Letter(x / 4), Letter(x % 4 * 16), '=', '=']
    else if |b| == 2 then
      var x, y := b[0] as int, b[1] as int;
      [Letter(x / 4), Letter(x % 4 * 16 + y / 16), Letter(y % 16 * 4), '=']
    else
      var x, y, z := b[0] as int, b[1] as int, b[2] as int;
      [Letter(x / 4), Letter(x % 4 * 16 + y / 16), Letter(y % 16 * 4 + z / 64), Letter(z % 64)] + Encode(b[3..])
  }

  /** The bytes of four letters, of which the last two or the last one may be padding. */
  function Quad(q: string): Option<string>
    requires |q| == 4
  {
    var a, b := LetterValue(q[0]), LetterValue(q[1]);
    if a.None? || b.None? then None
    else
      var x := a.value * 4 + b.value / 16;
      if q[3] == '=' && q[2] == '=' then ByteString([x])
      else
        var c := LetterValue(q[2]);
        if c.None? then None
        else
          var y := b.value % 16 * 16 + c.value / 4;
          if q[3] == '=' then ByteString([x, y])
          else
            var d := LetterValue(q[3]);
            if d.None? then None else ByteString([x, y, c.value % 4 * 64 + d.value])
  }

  function ByteString(values: seq<nat>): Option<string>
  {
    if forall k :: 0 <= k < |values| ==> values[k] < 256
    then Some(seq(|values|, k requires 0 <= k < |values| && values[k] < 256 => values[k] as char))
    else None
  }

  /** DecodeString, on text without line breaks: padding is allowed at the very end only. */
  function DecodeQuads(s: string): Option<string>
  {
    if s == "" then Some("")
    else if |s| < 4 || (s[3] == '=' && |s| > 4) then None
    else
      var first := Quad(s[..4]);
      var rest := DecodeQuads(s[4..]);
      if first.None? || rest.None? then None else Some(first.value + rest.value)
  }

  function WithoutBreaks(s: string): string
  {
    if s == "" then ""
    else if s[0] == '\r' || s[0] == '\n' then WithoutBreaks(s[1..])
    else [s[0]] + WithoutBreaks(s[1..])
  }

  /** DecodeString. */
  function Decode(s: string): Option<string> { DecodeQuads(WithoutBreaks(s)) }

  /** The bits of three bytes, put into four letters and taken out again. */
  lemma Regroup(x: nat, y: nat, z: nat)
    requires x < 256 && y < 256 && z < 256
    ensures x / 4 * 4 + (x % 4 * 16) / 16 == x && (x % 4 * 16 + y / 16) / 16 == x % 4
    ensures (x % 4 * 16 + y / 16) % 16 * 16 + (y % 16 * 4 + z / 64) / 4 == y && (y % 16 * 4) / 4 == y % 16
    ensures (y % 16 * 4 + z / 64) % 4 * 64 + z % 64 == z
  {
    assert y / 16 < 16 && z / 64 < 4;
  }

  lemma QuadOne(x: nat)
    requires x < 256
    ensures Quad([Letter(x / 4), Letter(x % 4 * 16), '=', '=']) == Some([x as char])
  {
    LetterReadsBack(x / 4);
    LetterReadsBack(x % 4 * 16);
    Regroup(x, 0, 0);
    assert ByteString([x]).value == [x as char];
  }

  lemma QuadTwo(x: nat, y: nat)
    requires x < 256 && y < 256
    ensures Quad([Letter(x / 4), Letter(x % 4 * 16 + y / 16), Letter(y % 16 * 4), '=']) == Some([x as char, y as char])
  {
    LetterReadsBack(x / 4);
    LetterReadsBack(x % 4 * 16 + y / 16);
    LetterReadsBack(y % 16 * 4);
    Regroup(x, y, 0);
    assert ByteString([x, y]).value == [x as char, y as char];
  }

  lemma QuadThree(x: nat, y: nat, z: nat)
    requires x < 256 && y < 256 && z < 256
    ensures Quad([Letter(x / 4), Letter(x % 4 * 16 + y / 16), Letter(y % 16 * 4 + z / 64), Letter(z % 64)])
            == Some([x as char, y as char, z as char])
  {
    LetterReadsBack(x / 4);
    LetterReadsBack(x % 4 * 16 + y / 16);
    LetterReadsBack(y % 16 * 4 + z / 64);
    LetterReadsBack(z % 64);
    Regroup(x, y, z);
    assert ByteString([x, y, z]).value == [x as char, y as char, z as char];
  }

  /** The characters of base64 text: none that JSON would have to escape, and no line break. */
  predicate Alphabet(s: string) { forall k :: 0 <= k < |s| ==> s[k] == '=' || LetterValue(s[k]).Some? }

  lemma {:induction false} EncodeAlphabet(b: string)
    requires Bytes(b)
    ensures Alphabet(Encode(b)) && (b != "" ==> Encode(b) != "")
    decreases |b|
  {
    if |b| > 2 {
      EncodeAlphabet(b[3..]);
      var x, y, z := b[0] as int, b[1] as int, b[2] as int;
      LetterReadsBack(x / 4);
      LetterReadsBack(x % 4 * 16 + y / 16);
      LetterReadsBack(y % 16 * 4 + z / 64);
      LetterReadsBack(z % 64);
    } else if |b| == 2 {
      var x, y := b[0] as int, b[1] as int;
      LetterReadsBack(x / 4);
      LetterReadsBack(x % 4 * 16 + y / 16);
      LetterReadsBack(y % 16 * 4);
    } else if |b| == 1 {
      var x := b[0] as int;
      LetterReadsBack(x / 4);
      LetterReadsBack(x % 4 * 16);
    }
  }

  lemma {:induction false} NothingToStrip(s: string)
    requires Alphabet(s)
    ensures WithoutBreaks(s) == s
  {
    if s != "" { NothingToStrip(s[1..]); }
  }

  lemma {:induction false} QuadsReadBack(b: string)
    requires Bytes(b)
    ensures DecodeQuads(Encode(b)) == Some(b)
    decreases |b|
  {
    var s := Encode(b);
    if |b| > 2 {
      QuadsReadBack(b[3..]);
      var x, y, z := b[0] as int, b[1] as int, b[2] as int;
      QuadThree(x, y, z);
      LetterReadsBack(z % 64);
      assert s[..4] == [Letter(x / 4), Letter(x % 4 * 16 + y / 16), Letter(y % 16 * 4 + z / 64), Letter(z % 64)];
      assert s[4..] == Encode(b[3..]);
      assert b == [x as char, y as char, z as char] + b[3..];
    } else if b != "" {
      ShortReadsBack(b);
    }
  }

  lemma ShortReadsBack(b: string)
    requires Bytes(b) && 1 <= |b| <= 2
    ensures DecodeQuads(Encode(b)) == Some(b)
  {
    if |b| == 1 {
      QuadOne(b[0] as int);
      assert b == [b[0]];
    } else {
      QuadTwo(b[0] as int, b[1] as int);
      assert b == [b[0], b[1]];
    }
    LastQuad(Encode(b), b);
  }

  lemma LastQuad(s: string, b: string)
    requires |s| == 4 && Quad(s) == Some(b)
    ensures DecodeQuads(s) == Some(b)
  {
    assert s[..4] == s && s[4..] == "" && b + "" == b;
    assert DecodeQuads("") == Some("");
  }

  /** Every byte string comes back from its base64 text. */
  lemma ReadsBack(b: string)
    requires Bytes(b)
    ensures Decode(Encode(b)) == Some(b)
  {
    EncodeAlphabet(b);
    NothingToStrip(Encode(b));
    QuadsReadBack(b);
  }

  /** The test vectors of RFC 4648, section 10, and the last two letters of its table 1. */
  lemma TestVectors()
    ensures Encode("f") == "Zg==" && Encode("fo") == "Zm8=" && Encode("foo") == "Zm9v" && Encode("foobar") == "Zm9vYmFy"
    ensures var b := [0xfb as char, 0xff as char, 0xbf as char]; Bytes(b) && Encode(b) == "+/+/"
  {
    assert "foo"[3..] == "" && "foobar"[3..] == "bar" && "bar"[3..] == "";
    assert [0xfb as char, 0xff as char, 0xbf as char][3..] == "";
  }
}

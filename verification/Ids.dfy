/** Message ids: a clock that never repeats, packed into a version 7 UUID
    (RFC 9562, section 5.7, with the counter of section 6.2) and printed. */
module Ids {
  import opened Common

  // ----- the clock -----

  /** The last timestamp and sequence number given out. */
  datatype Tick = Tick(milli: nat, count: nat)

  const MAX_COUNT := 0xfff

  predicate Before(a: Tick, b: Tick) { a.milli < b.milli || (a.milli == b.milli && a.count < b.count) }

  /** What one reading of the wall clock gives, if anything. */
  function Issue(last: Tick, now: nat): Option<Tick>
  {
    if now > last.milli then Some(Tick(now, 0))
    else if last.count < MAX_COUNT then Some(Tick(last.milli, last.count + 1))
    else None
  }

  class IdClock {
    var milli: nat
    var count: nat

    constructor ()
      ensures Value() == Tick(0, 0)
    {
      milli, count := 0, 0;
    }

    function Value(): Tick
      reads this
    {
      Tick(milli, count)
    }

    /** nextTick, which reads the clock until it can give a tick out.  None means
        that it is still waiting after these readings. */
    method NextTick(readings: seq<nat>) returns (tick: Option<Tick>, used: nat)
      requires count <= MAX_COUNT
      modifies this
      ensures used <= |readings|
      ensures forall k :: 0 <= k < used - (if tick.Some? then 1 else 0) ==> Issue(old(Value()), readings[k]) == None
      ensures if tick.None? then used == |readings| && Value() == old(Value())
              else used > 0 && tick == Issue(old(Value()), readings[used - 1]) && Value() == tick.value
      ensures count <= MAX_COUNT
    {
      used := 0;
      while used < |readings|
        invariant used <= |readings| && Value() == old(Value())
        invariant forall k :: 0 <= k < used ==> Issue(old(Value()), readings[k]) == None
      {
        var now := readings[used];
        used := used + 1;
        if now > milli {
          milli, count := now, 0;
          return Some(Tick(now, 0)), used;
        } else if now == milli && count < MAX_COUNT {
          count := count + 1;
          return Some(Tick(now, count)), used;
        } else if now < milli && count < MAX_COUNT {
          count := count + 1;
          return Some(Tick(milli, count)), used;
        }
      }
      return None, used;
    }
  }

  /** A tick has the larger of the millisecond read and the last one, and its count starts
      again in a later millisecond and goes up by one otherwise. */
  lemma TickFollowsTheClock(last: Tick, now: nat)
    requires Issue(last, now).Some?
    ensures var t := Issue(last, now).value;
            t.milli >= now && t.milli >= last.milli && (t.milli == now || t.milli == last.milli)
            && t.count == if now > last.milli then 0 else last.count + 1
  {
  }

  /** All the ticks given out over a sequence of clock readings. */
  function Issued(last: Tick, readings: seq<nat>): seq<Tick>
    decreases |readings|
  {
    if readings == [] then []
    else
      match Issue(last, readings[0])
      case None => Issued(last, readings[1..])
      case Some(tick) => [tick] + Issued(tick, readings[1..])
  }

  /** The ticks all come after last, each after the one before it, and their counts
      fit twelve bits. */
  predicate Rising(last: Tick, ticks: seq<Tick>)
  {
    (forall k :: 0 <= k < |ticks| ==> Before(last, ticks[k]) && ticks[k].count <= MAX_COUNT)
    && forall j, k :: 0 <= j < k < |ticks| ==> Before(ticks[j], ticks[k])
  }

  /** However the wall clock jumps or stalls, ticks are given out in strictly
      increasing order and the count fits its twelve bits. */
  lemma {:induction false} TicksIncrease(last: Tick, readings: seq<nat>)
    requires last.count <= MAX_COUNT
    ensures Rising(last, Issued(last, readings))
    decreases |readings|
  {
    if readings != [] {
      var tick := Issue(last, readings[0]);
      if tick.Some? {
        var rest := Issued(tick.value, readings[1..]);
        TicksIncrease(tick.value, readings[1..]);
        assert Rising(tick.value, rest);
        var ticks := [tick.value] + rest;
        assert forall k :: 0 < k < |ticks| ==> ticks[k] == rest[k - 1];
        assert Issued(last, readings) == ticks;
      } else {
        TicksIncrease(last, readings[1..]);
      }
    }
  }

  /** So over any readings no tick runs ahead of the clock: its millisecond is the largest
      of some reading up to then and the last one. */
  lemma {:induction false} TicksFollowTheClock(last: Tick, readings: seq<nat>)
    ensures forall t <- Issued(last, readings) :: t.milli == last.milli || t.milli in readings
    decreases |readings|
  {
    if readings != [] {
      var rest := if Issue(last, readings[0]).None? then last else Issue(last, readings[0]).value;
      TicksFollowTheClock(rest, readings[1..]);
      forall t | t in Issued(last, readings) ensures t.milli == last.milli || t.milli in readings {
        assert t == rest || t in Issued(rest, readings[1..]);
      }
    }
  }

  /** A reading gives nothing out exactly when the count is used up and the clock
      has not gone past the millisecond last given out. */
  lemma WaitsOnlyWhenUsedUp(last: Tick, readings: seq<nat>)
    requires last.count <= MAX_COUNT
    ensures Issued(last, readings) == []
            <==> readings == []
                 || (last.count == MAX_COUNT && forall k :: 0 <= k < |readings| ==> readings[k] <= last.milli)
    decreases |readings|
  {
    if readings != [] && Issue(last, readings[0]).None? {
      WaitsOnlyWhenUsedUp(last, readings[1..]);
      assert forall k :: 0 <= k < |readings| - 1 ==> readings[1..][k] == readings[k + 1];
      if forall k :: 0 <= k < |readings| - 1 ==> readings[1..][k] <= last.milli {
        forall k | 0 <= k < |readings| ensures readings[k] <= last.milli {
          if k > 0 { assert readings[1..][k - 1] <= last.milli; }
        }
      }
    }
  }

  // ----- packing and printing -----

  type byte = x: int | 0 <= x < 256

  /** The low w bytes of x, the highest first. */
  function BigEndian(x: nat, w: nat): (b: seq<byte>)
    ensures |b| == w
  {
    if w == 0 then [] else BigEndian(x / 256, w - 1) + [x % 256]
  }

  function HexDigit(d: nat): (c: char)
    requires d < 16
  {
    "0123456789abcdef"[d]
  }

  /** The low w hexadecimal digits of x. */
  function Hex(x: nat, w: nat): (s: string)
    ensures |s| == w
  {
    if w == 0 then "" else Hex(x / 16, w - 1) + [HexDigit(x % 16)]
  }

  /** hex.Encode. */
  function Encode(b: seq<byte>): (s: string)
    ensures |s| == 2 * |b|
  {
    if b == [] then ""
    else Encode(b[..|b| - 1]) + [HexDigit(b[|b| - 1] / 16), HexDigit(b[|b| - 1] % 16)]
  }

  /** The version in the high half of byte 6, and the variant in the top bits of byte 8. */
  function Version(high: nat): byte
    requires high < 256
  {
    (0x70 | high as bv8) as int
  }

  function Variant(random: byte): byte { ((random as bv8 & 0x3f) | 0x80) as int }

  function Packed(random: seq<byte>, t: Tick): (b: seq<byte>)
    requires |random| == 16 && t.count <= MAX_COUNT
    ensures |b| == 16
  {
    BigEndian(t.milli / 0x1_0000_0000, 2) + BigEndian(t.milli, 4)
    + [Version(t.count / 256), t.count % 256, Variant(random[8])] + random[9..]
  }

  function Dashed(h: string): (s: string)
    requires |h| == 32
    ensures |s| == 36
  {
    h[..8] + "-" + h[8..12] + "-" + h[12..16] + "-" + h[16..20] + "-" + h[20..]
  }

  function Id(random: seq<byte>, t: Tick): (id: string)
    requires |random| == 16 && t.count <= MAX_COUNT
    ensures |id| == 36
  {
    Dashed(Encode(Packed(random, t)))
  }

  // ----- order -----

  /** String order, for strings of one length. */
  ghost predicate Less(a: string, b: string)
  {
    |a| == |b| && exists k :: 0 <= k < |a| && LessAt(a, b, k)
  }

  ghost predicate LessAt(a: string, b: string, k: nat)
    requires k < |a| == |b|
  {
    a[..k] == b[..k] && a[k] < b[k]
  }

  function Pow16(w: nat): nat { if w == 0 then 1 else 16 * Pow16(w - 1) }

  lemma LessLeft(a: string, b: string, c: string, d: string)
    requires Less(a, b) && |c| == |d|
    ensures Less(a + c, b + d)
  {
    var k :| 0 <= k < |a| && LessAt(a, b, k);
    assert (a + c)[..k] == a[..k] && (b + d)[..k] == b[..k];
    assert LessAt(a + c, b + d, k);
  }

  lemma LessRight(a: string, c: string, d: string)
    requires Less(c, d)
    ensures Less(a + c, a + d)
  {
    var k :| 0 <= k < |c| && LessAt(c, d, k);
    assert (a + c)[..|a| + k] == a + c[..k] && (a + d)[..|a| + k] == a + d[..k];
    assert LessAt(a + c, a + d, |a| + k);
  }

  lemma {:induction false} HexOrder(x: nat, y: nat, w: nat)
    requires x < y < Pow16(w)
    ensures Less(Hex(x, w), Hex(y, w))
  {
    if x / 16 < y / 16 {
      HexOrder(x / 16, y / 16, w - 1);
      LessLeft(Hex(x / 16, w - 1), Hex(y / 16, w - 1), [HexDigit(x % 16)], [HexDigit(y % 16)]);
    } else {
      var c, d := [HexDigit(x % 16)], [HexDigit(y % 16)];
      assert LessAt(c, d, 0);
      LessRight(Hex(x / 16, w - 1), c, d);
    }
  }

  lemma {:induction false} EncodeBigEndian(x: nat, w: nat)
    ensures Encode(BigEndian(x, w)) == Hex(x, 2 * w)
  {
    if w > 0 {
      EncodeBigEndian(x / 256, w - 1);
      var b := BigEndian(x, w);
      assert b[..w - 1] == BigEndian(x / 256, w - 1);
      assert x / 16 / 16 == x / 256 && x % 256 / 16 == x / 16 % 16 && x % 256 % 16 == x % 16;
      assert Hex(x, 2 * w) == Hex(x / 16, 2 * w - 1) + [HexDigit(x % 16)];
      assert Hex(x / 16, 2 * w - 1) == Hex(x / 16 / 16, 2 * (w - 1)) + [HexDigit(x / 16 % 16)];
    }
  }

  lemma {:induction false} EncodeConcat(a: seq<byte>, b: seq<byte>)
    ensures Encode(a + b) == Encode(a) + Encode(b)
  {
    if b == [] {
      assert a + b == a;
    } else {
      assert (a + b)[..|a + b| - 1] == a + b[..|b| - 1];
      EncodeConcat(a, b[..|b| - 1]);
    }
  }

  /** x without its low b hexadecimal digits. */
  function Shift(x: nat, b: nat): nat { if b == 0 then x else Shift(x / 16, b - 1) }

  lemma {:induction false} HexSplit(x: nat, a: nat, b: nat)
    ensures Hex(x, a + b) == Hex(Shift(x, b), a) + Hex(x, b)
  {
    if b > 0 {
      HexSplit(x / 16, a, b - 1);
      Associates(Hex(Shift(x, b), a), Hex(x / 16, b - 1), [HexDigit(x % 16)]);
    }
  }

  lemma ShiftTwo(x: nat, b: nat)
    ensures Shift(x, b + 2) == Shift(x / 256, b)
  {
    assert x / 16 / 16 == x / 256;
  }

  lemma ShiftEight(x: nat)
    ensures Shift(x, 8) == x / 0x1_0000_0000
  {
    ShiftTwo(x, 6);
    ShiftTwo(x / 256, 4);
    ShiftTwo(x / 256 / 256, 2);
    ShiftTwo(x / 256 / 256 / 256, 0);
    assert x / 256 / 256 == x / 0x1_0000 && x / 0x1_0000 / 256 == x / 0x100_0000;
    assert x / 0x100_0000 / 256 == x / 0x1_0000_0000;
  }

  lemma Powers()
    ensures Pow16(1) == 16 && Pow16(2) == 256 && Pow16(3) == 0x1000 && Pow16(8) == 0x1_0000_0000
    ensures Pow16(12) == 0x1_0000_0000_0000
  {
    assert Pow16(4) == 0x1_0000;
    assert Pow16(6) == 256 * Pow16(4);
    assert Pow16(8) == 256 * Pow16(6);
    assert Pow16(10) == 256 * Pow16(8);
    assert Pow16(12) == 256 * Pow16(10);
  }

  lemma VersionIs(high: nat)
    requires high < 16
    ensures Version(high) == 0x70 + high
  {
    var b := high as bv8;
    assert b < 16 && (0x70 | b) == 0x70 + b;
  }

  lemma VariantIs(random: byte)
    ensures 0x80 <= Variant(random) < 0xc0
  {
    var b := (random as bv8 & 0x3f) | 0x80;
    assert 0x80 <= b < 0xc0;
  }

  // ----- the id of a tick -----

  /** The random digits of an id, with its variant. */
  function Tail(random: seq<byte>): (s: string)
    requires |random| == 16
    ensures |s| == 16
  {
    Encode([Variant(random[8])] + random[9..])
  }

  function Digits(random: seq<byte>, t: Tick): (h: string)
    requires |random| == 16
    ensures |h| == 32
  {
    Hex(t.milli, 12) + "7" + Hex(t.count, 3) + Tail(random)
  }

  lemma EncodeTwo(a: byte, b: byte)
    ensures Encode([a, b]) == [HexDigit(a / 16), HexDigit(a % 16), HexDigit(b / 16), HexDigit(b % 16)]
  {
    assert [a, b][..1] == [a] && [a][..0] == [];
  }

  lemma HexThree(x: nat)
    ensures Hex(x, 3) == [HexDigit(x / 16 / 16 % 16), HexDigit(x / 16 % 16), HexDigit(x % 16)]
  {
    assert Hex(x, 3) == Hex(x / 16, 2) + [HexDigit(x % 16)];
    assert Hex(x / 16, 2) == Hex(x / 16 / 16, 1) + [HexDigit(x / 16 % 16)];
    assert Hex(x / 16 / 16, 1) == Hex(x / 16 / 16 / 16, 0) + [HexDigit(x / 16 / 16 % 16)];
  }

  lemma EncodeCount(count: nat)
    requires count <= MAX_COUNT
    ensures Encode([Version(count / 256), count % 256]) == "7" + Hex(count, 3)
  {
    var high, low := count / 256, count % 256;
    CountNibbles(count);
    VersionIs(high);
    EncodeTwo(0x70 + high, low);
    HexThree(count);
    assert HexDigit(7) == '7';
  }

  lemma CountNibbles(count: nat)
    requires count <= MAX_COUNT
    ensures var high, low := count / 256, count % 256;
            high < 16 && (0x70 + high) / 16 == 7 && (0x70 + high) % 16 == high && count / 16 / 16 % 16 == high
            && low / 16 == count / 16 % 16 && low % 16 == count % 16
  {
  }

  lemma EncodeMilli(milli: nat)
    ensures Encode(BigEndian(milli / 0x1_0000_0000, 2) + BigEndian(milli, 4)) == Hex(milli, 12)
  {
    EncodeConcat(BigEndian(milli / 0x1_0000_0000, 2), BigEndian(milli, 4));
    EncodeBigEndian(milli / 0x1_0000_0000, 2);
    EncodeBigEndian(milli, 4);
    ShiftEight(milli);
    HexSplit(milli, 4, 8);
  }

  /** The bytes of an id print as its millisecond, version, count and tail. */
  lemma DigitsOfPacked(random: seq<byte>, t: Tick)
    requires |random| == 16 && t.count <= MAX_COUNT
    ensures Encode(Packed(random, t)) == Digits(random, t)
  {
    var head := BigEndian(t.milli / 0x1_0000_0000, 2) + BigEndian(t.milli, 4);
    var mid, end := [Version(t.count / 256), t.count % 256], [Variant(random[8])] + random[9..];
    assert Packed(random, t) == head + mid + end by { Regroups(head, mid[0], mid[1], end[0], random[9..]); }
    EncodeConcat(head + mid, end);
    EncodeConcat(head, mid);
    EncodeMilli(t.milli);
    EncodeCount(t.count);
    Associates(Hex(t.milli, 12), "7", Hex(t.count, 3));
  }

  lemma Regroups(head: seq<byte>, a: byte, b: byte, c: byte, rest: seq<byte>)
    ensures head + [a, b, c] + rest == head + [a, b] + ([c] + rest)
  {
  }

  lemma Associates(a: string, b: string, c: string)
    ensures a + (b + c) == a + b + c
  {
  }

  /** The digit that a place of a dashed string shows, none for a dash. */
  function Shows(at: nat): Option<nat>
    requires at < 36
  {
    if at in {8, 13, 18, 23} then None
    else if at < 8 then Some(at) else if at < 13 then Some(at - 1) else if at < 18 then Some(at - 2)
    else if at < 23 then Some(at - 3) else Some(at - 4)
  }

  lemma DashedAt(h: string, at: nat)
    requires |h| == 32 && at < 36
    ensures var k := Shows(at); Dashed(h)[at] == if k.None? then '-' else h[k.value]
  {
  }

  lemma DashedOrder(g: string, h: string)
    requires |g| == |h| == 32 && Less(g, h)
    ensures Less(Dashed(g), Dashed(h))
  {
    var k :| 0 <= k < 32 && LessAt(g, h, k);
    var at := if k < 8 then k else if k < 12 then k + 1 else if k < 16 then k + 2 else if k < 20 then k + 3 else k + 4;
    DashedAt(g, at);
    DashedAt(h, at);
    forall j | 0 <= j < at ensures Dashed(g)[j] == Dashed(h)[j] {
      DashedAt(g, j);
      DashedAt(h, j);
      if Shows(j).Some? { assert g[..k][Shows(j).value] == h[..k][Shows(j).value]; }
    }
    assert LessAt(Dashed(g), Dashed(h), at);
  }

  lemma LessInMiddle(a: string, b: string, c: string, d: string, e: string)
    requires Less(b, c) && |d| == |e|
    ensures Less(a + b + d, a + c + e)
  {
    LessRight(a, b, c);
    LessLeft(a + b, a + c, d, e);
  }

  lemma DigitsOrder(r1: seq<byte>, t1: Tick, r2: seq<byte>, t2: Tick)
    requires |r1| == |r2| == 16 && t1.count <= MAX_COUNT && t2.count <= MAX_COUNT
    requires t1.milli < 0x1_0000_0000_0000 && t2.milli < 0x1_0000_0000_0000 && Before(t1, t2)
    ensures Less(Digits(r1, t1), Digits(r2, t2))
  {
    Powers();
    if t1.milli < t2.milli {
      HexOrder(t1.milli, t2.milli, 12);
      LessLeft(Hex(t1.milli, 12), Hex(t2.milli, 12), "7", "7");
      LessLeft(Hex(t1.milli, 12) + "7", Hex(t2.milli, 12) + "7", Hex(t1.count, 3), Hex(t2.count, 3));
      var h1, h2 := Hex(t1.milli, 12) + "7" + Hex(t1.count, 3), Hex(t2.milli, 12) + "7" + Hex(t2.count, 3);
      LessLeft(h1, h2, Tail(r1), Tail(r2));
    } else {
      HexOrder(t1.count, t2.count, 3);
      LessInMiddle(Hex(t1.milli, 12) + "7", Hex(t1.count, 3), Hex(t2.count, 3), Tail(r1), Tail(r2));
    }
  }

  /** Ids sort in the order of their ticks, whatever their random bytes. */
  lemma IdOrder(r1: seq<byte>, t1: Tick, r2: seq<byte>, t2: Tick)
    requires |r1| == |r2| == 16 && t1.count <= MAX_COUNT && t2.count <= MAX_COUNT
    requires t1.milli < 0x1_0000_0000_0000 && t2.milli < 0x1_0000_0000_0000 && Before(t1, t2)
    ensures Less(Id(r1, t1), Id(r2, t2))
  {
    DigitsOfPacked(r1, t1);
    DigitsOfPacked(r2, t2);
    DigitsOrder(r1, t1, r2, t2);
    DashedOrder(Digits(r1, t1), Digits(r2, t2));
  }

  /** So of all the ids issued over any readings of the clock, every later one is
      greater than every earlier one. */
  lemma LaterIdsAreGreater(last: Tick, readings: seq<nat>, randoms: seq<seq<byte>>, j: nat, k: nat)
    requires last.count <= MAX_COUNT && (forall i :: 0 <= i < |readings| ==> readings[i] < 0x1_0000_0000_0000)
    requires last.milli < 0x1_0000_0000_0000 && j < k < |Issued(last, readings)| <= |randoms|
    requires forall i :: 0 <= i < |randoms| ==> |randoms[i]| == 16
    ensures var ticks := Issued(last, readings);
            ticks[j].count <= MAX_COUNT && ticks[k].count <= MAX_COUNT
            && Less(Id(randoms[j], ticks[j]), Id(randoms[k], ticks[k]))
  {
    TicksIncrease(last, readings);
    TicksFit(last, readings);
    var ticks := Issued(last, readings);
    IdOrder(randoms[j], ticks[j], randoms[k], ticks[k]);
  }

  lemma {:induction false} TicksFit(last: Tick, readings: seq<nat>)
    requires last.milli < 0x1_0000_0000_0000 && forall i :: 0 <= i < |readings| ==> readings[i] < 0x1_0000_0000_0000
    ensures forall k :: 0 <= k < |Issued(last, readings)| ==> Issued(last, readings)[k].milli < 0x1_0000_0000_0000
    decreases |readings|
  {
    if readings != [] {
      assert forall i :: 0 <= i < |readings| - 1 ==> readings[1..][i] == readings[i + 1];
      var tick := Issue(last, readings[0]);
      if tick.Some? {
        TicksFit(tick.value, readings[1..]);
      } else {
        TicksFit(last, readings[1..]);
      }
    }
  }

  // ----- reading an id back -----

  function DigitValue(c: char): nat
  {
    if '0' <= c <= '9' then (c - '0') as nat else if 'a' <= c <= 'f' then (c - 'a') as nat + 10 else 0
  }

  function Value(s: string): nat { if s == "" then 0 else 16 * Value(s[..|s| - 1]) + DigitValue(s[|s| - 1]) }

  lemma {:induction false} HexValue(x: nat, w: nat)
    requires x < Pow16(w)
    ensures Value(Hex(x, w)) == x
  {
    if w > 0 {
      assert x / 16 < Pow16(w - 1);
      HexValue(x / 16, w - 1);
      assert Hex(x, w)[..w - 1] == Hex(x / 16, w - 1);
      assert DigitValue(HexDigit(x % 16)) == x % 16;
    }
  }

  /** An id has the dashes, version and variant of a version 7 UUID, and its
      millisecond and count can be read back from it. */
  lemma ReadsBack(random: seq<byte>, t: Tick)
    requires |random| == 16 && t.count <= MAX_COUNT && t.milli < 0x1_0000_0000_0000
    ensures var id := Id(random, t);
            id[8] == id[13] == id[18] == id[23] == '-' && id[14] == '7' && id[19] in "89ab"
            && Value(id[..8] + id[9..13]) == t.milli && Value(id[15..18]) == t.count
  {
    DigitsOfPacked(random, t);
    Powers();
    var h := Digits(random, t);
    DashedParts(h);
    assert h[..12] == Hex(t.milli, 12) && h[12] == '7' && h[13..16] == Hex(t.count, 3) && h[16] == Tail(random)[0];
    HexValue(t.milli, 12);
    HexValue(t.count, 3);
    TailStart(random);
  }

  lemma DashedParts(h: string)
    requires |h| == 32
    ensures var s := Dashed(h);
            s[8] == s[13] == s[18] == s[23] == '-' && s[14] == h[12] && s[19] == h[16]
            && s[..8] + s[9..13] == h[..12] && s[15..18] == h[13..16]
  {
    forall j | 0 <= j < 36 ensures var k := Shows(j); Dashed(h)[j] == if k.None? then '-' else h[k.value] {
      DashedAt(h, j);
    }
  }

  lemma TailStart(random: seq<byte>)
    requires |random| == 16
    ensures Tail(random)[0] in "89ab"
  {
    VariantIs(random[8]);
    EncodeConcat([Variant(random[8])], random[9..]);
    assert Encode([Variant(random[8])])[0] == HexDigit(Variant(random[8]) / 16);
  }

  // ----- newID -----

  /** Writes the low w bytes of x at a place in b, as encoding/binary does. */
  method PutBigEndian(b: array<byte>, at: nat, x: nat, w: nat)
    requires at + w <= b.Length
    modifies b
    ensures b[..] == old(b[..])[..at] + BigEndian(x, w) + old(b[..])[at + w..]
  {
    var k, rest := w, x;
    while k > 0
      invariant 0 <= k <= w && BigEndian(x, w) == BigEndian(rest, k) + b[at + k..at + w]
      invariant b[..at + k] == old(b[..])[..at + k] && b[at + w..] == old(b[..])[at + w..]
    {
      k := k - 1;
      b[at + k] := rest % 256;
      rest := rest / 256;
    }
    assert b[..] == b[..at] + b[at..at + w] + b[at + w..];
  }

  /** Writes the hexadecimal form of some bytes at a place in out. */
  method HexEncode(out: array<char>, at: nat, bytes: seq<byte>)
    requires at + 2 * |bytes| <= out.Length
    modifies out
    ensures out[..at + 2 * |bytes|] == old(out[..at]) + Encode(bytes)
  {
    ghost var before := out[..at];
    for k := 0 to |bytes|
      invariant out[..at + 2 * k] == before + Encode(bytes[..k])
    {
      PutDigits(out, at + 2 * k, bytes[k]);
      EncodeNext(bytes[..k], bytes[k]);
      assert bytes[..k + 1] == bytes[..k] + [bytes[k]];
    }
    assert bytes[..|bytes|] == bytes;
  }

  method PutDigits(out: array<char>, at: nat, x: byte)
    requires at + 2 <= out.Length
    modifies out
    ensures out[..at + 2] == old(out[..at]) + [HexDigit(x / 16), HexDigit(x % 16)]
  {
    out[at], out[at + 1] := HexDigit(x / 16), HexDigit(x % 16);
  }

  lemma EncodeNext(b: seq<byte>, x: byte)
    ensures Encode(b + [x]) == Encode(b) + [HexDigit(x / 16), HexDigit(x % 16)]
  {
    assert (b + [x])[..|b|] == b;
  }

  /** The bytes of an id, before they are printed. */
  method PackId(random: seq<byte>, t: Tick) returns (b: array<byte>)
    requires |random| == 16 && t.count <= MAX_COUNT
    ensures fresh(b) && b[..] == Packed(random, t)
  {
    b := new byte[16](i requires 0 <= i < 16 => random[i]);
    ghost var hi, lo := BigEndian(t.milli / 0x1_0000_0000, 2), BigEndian(t.milli, 4);
    assert b[..] == random;
    PutBigEndian(b, 0, t.milli / 0x1_0000_0000, 2);
    assert b[..] == hi + random[2..];
    PutBigEndian(b, 2, t.milli, 4);
    assert b[..] == hi + lo + random[6..] by { PutAfter(hi, lo, random); }
    b[6] := Version(t.count / 256);
    b[7] := t.count % 256;
    b[8] := Variant(b[8]);
    PutThree(hi + lo, random, Version(t.count / 256), t.count % 256, Variant(random[8]));
  }

  lemma PutAfter(hi: seq<byte>, lo: seq<byte>, random: seq<byte>)
    requires |hi| == 2 && |lo| == 4 && |random| == 16
    ensures (hi + random[2..])[..2] + lo + (hi + random[2..])[6..] == hi + lo + random[6..]
  {
  }

  lemma PutThree(head: seq<byte>, random: seq<byte>, a: byte, b: byte, c: byte)
    requires |head| == 6 && |random| == 16
    ensures (head + random[6..])[6 := a][7 := b][8 := c] == head + [a, b, c] + random[9..]
  {
  }

  method PrintId(b: seq<byte>) returns (id: string)
    requires |b| == 16
    ensures id == Dashed(Encode(b))
  {
    var out := new char[36];
    Group(out, 0, b[..4]);
    Group(out, 9, b[4..6]);
    Group(out, 14, b[6..8]);
    Group(out, 19, b[8..10]);
    HexEncode(out, 24, b[10..]);
    id := out[..36];
    DashedGroups(b);
  }

  /** A group of digits and the dash after it. */
  method Group(out: array<char>, at: nat, bytes: seq<byte>)
    requires at + 2 * |bytes| < out.Length
    modifies out
    ensures out[..at + 2 * |bytes| + 1] == old(out[..at]) + Encode(bytes) + "-"
  {
    HexEncode(out, at, bytes);
    out[at + 2 * |bytes|] := '-';
  }

  lemma DashedGroups(b: seq<byte>)
    requires |b| == 16
    ensures Dashed(Encode(b)) == Encode(b[..4]) + "-" + Encode(b[4..6]) + "-" + Encode(b[6..8]) + "-"
                                 + Encode(b[8..10]) + "-" + Encode(b[10..])
  {
    EncodeConcat(b[..4] + b[4..6] + b[6..8] + b[8..10], b[10..]);
    EncodeConcat(b[..4] + b[4..6] + b[6..8], b[8..10]);
    EncodeConcat(b[..4] + b[4..6], b[6..8]);
    EncodeConcat(b[..4], b[4..6]);
    assert b == b[..4] + b[4..6] + b[6..8] + b[8..10] + b[10..];
    var h := Encode(b[..4]) + Encode(b[4..6]) + Encode(b[6..8]) + Encode(b[8..10]) + Encode(b[10..]);
    assert h[..8] == Encode(b[..4]) && h[8..12] == Encode(b[4..6]) && h[12..16] == Encode(b[6..8]);
    assert h[16..20] == Encode(b[8..10]) && h[20..] == Encode(b[10..]);
  }

  /** newID: a new id from 16 random bytes, none if there are none to be had, in
      which case no tick is spent. */
  method NewId(clock: IdClock, random: Option<seq<byte>>, readings: seq<nat>) returns (id: Option<string>)
    requires clock.count <= MAX_COUNT && (random.Some? ==> |random.value| == 16)
    modifies clock
    ensures random.None? ==> id == None && clock.Value() == old(clock.Value())
    ensures random.Some? && id.None? ==>
              Issued(old(clock.Value()), readings) == [] && clock.Value() == old(clock.Value())
    ensures id.Some? ==>
              random.Some? && clock.count <= MAX_COUNT && id.value == Id(random.value, clock.Value())
              && exists k :: 0 <= k < |readings| && Issue(old(clock.Value()), readings[k]) == Some(clock.Value())
  {
    if random.None? { return None; }
    var tick, used := clock.NextTick(readings);
    if tick.None? {
      assert forall k :: 0 <= k < |readings| ==> Issue(old(clock.Value()), readings[k]) == None;
      WaitsOnlyWhenUsedUp(old(clock.Value()), readings);
      return None;
    }
    var b := PackId(random.value, tick.value);
    var printed := PrintId(b[..]);
    return Some(printed);
  }
}

/** CRC32C (the iSCSI checksum, section 12.1 of RFC 3720) in its reflected form, bit by bit. */
module Crc32c {

  type Byte = bv8

  const POLYNOMIAL: bv32 := 0x82F63B78
  const ALL_ONES: bv32 := 0xFFFF_FFFF

  // The bit operations have names so that proofs can treat them as black boxes.

  function Xor(a: bv32, b: bv32): bv32 { a ^ b }

  function Wide(b: Byte): bv32 { b as bv32 }

  function Double(c: bv32): bv32 { c << 1 }

  function LeftByte(c: bv32): bv32 { c << 8 }

  predicate TopClear(c: bv32) { c & 0x8000_0000 == 0 }

  predicate TopByteClear(c: bv32) { c & 0xFF00_0000 == 0 }

  /** Shifts one bit out of the register. */
  function Shift(s: bv32): bv32 {
    if s & 1 == 1 then (s >> 1) ^ POLYNOMIAL else s >> 1
  }

  function Shifts(s: bv32, n: nat): bv32
    decreases n
  {
    if n == 0 then s else Shifts(Shift(s), n - 1)
  }

  function Feed(s: bv32, b: Byte): bv32 {
    Shifts(Xor(s, Wide(b)), 8)
  }

  /** The register after absorbing bytes from the left. */
  function Absorb(s: bv32, bytes: seq<Byte>): bv32
    decreases |bytes|
  {
    if bytes == [] then s else Absorb(Feed(s, bytes[0]), bytes[1..])
  }

  function Crc(bytes: seq<Byte>): bv32 {
    Xor(Absorb(ALL_ONES, bytes), ALL_ONES)
  }

  /** Continues a finished checksum over more bytes. */
  function CrcAppend(crc: bv32, bytes: seq<Byte>): bv32 {
    Xor(Absorb(Xor(crc, ALL_ONES), bytes), ALL_ONES)
  }

  lemma {:induction false} AbsorbAppend(s: bv32, a: seq<Byte>, b: seq<Byte>)
    ensures Absorb(s, a + b) == Absorb(Absorb(s, a), b)
    decreases |a|
  {
    hide Feed;
    if a == [] {
      assert a + b == b;
    } else {
      assert (a + b)[1..] == a[1..] + b;
      AbsorbAppend(Feed(s, a[0]), a[1..], b);
    }
  }

  lemma Complement(s: bv32, t: bv32)
    ensures Xor(Xor(s, t), t) == s
  {
  }

  /** Incremental checksums equal the checksum of the whole. */
  lemma CrcAppends(a: seq<Byte>, b: seq<Byte>)
    ensures CrcAppend(Crc(a), b) == Crc(a + b)
  {
    hide Absorb, Xor;
    AbsorbAppend(ALL_ONES, a, b);
    Complement(Absorb(ALL_ONES, a), ALL_ONES);
  }

  // ---- Every step is a bijection on the register ----------------------------------------

  function Unshift(s: bv32): bv32 {
    if s & 0x8000_0000 != 0 then ((s ^ POLYNOMIAL) << 1) | 1 else s << 1
  }

  lemma UnshiftShift(s: bv32)
    ensures Unshift(Shift(s)) == s
  {
  }

  lemma {:induction false} ShiftsInjective(s: bv32, t: bv32, n: nat)
    requires Shifts(s, n) == Shifts(t, n)
    ensures s == t
    decreases n
  {
    hide Shift, Unshift;
    if n > 0 {
      ShiftsInjective(Shift(s), Shift(t), n - 1);
      UnshiftShift(s);
      UnshiftShift(t);
    }
  }

  lemma XorCancel(s: bv32, t: bv32, u: bv32)
    ensures Xor(s, u) == Xor(t, u) ==> s == t
    ensures Xor(u, s) == Xor(u, t) ==> s == t
  {
  }

  lemma FeedInjective(s: bv32, t: bv32, b: Byte)
    requires Feed(s, b) == Feed(t, b)
    ensures s == t
  {
    hide Shifts, Xor, Wide;
    ShiftsInjective(Xor(s, Wide(b)), Xor(t, Wide(b)), 8);
    XorCancel(s, t, Wide(b));
  }

  lemma {:induction false} AbsorbInjective(s: bv32, t: bv32, bytes: seq<Byte>)
    requires Absorb(s, bytes) == Absorb(t, bytes)
    ensures s == t
    decreases |bytes|
  {
    hide Feed;
    if bytes != [] {
      AbsorbInjective(Feed(s, bytes[0]), Feed(t, bytes[0]), bytes[1..]);
      FeedInjective(s, t, bytes[0]);
    }
  }

  // ---- Four bytes at a time ----------------------------------------------------------------

  lemma ShiftLinearBits(s: bv32, c: bv32)
    requires c & 0x8000_0000 == 0
    ensures Shift(s ^ (c << 1)) == Shift(s) ^ c
  {
  }

  lemma ShiftLinear(s: bv32, c: bv32)
    requires TopClear(c)
    ensures Shift(Xor(s, Double(c))) == Xor(Shift(s), c)
  {
    hide Shift;
    ShiftLinearBits(s, c);
  }

  lemma DoublingBits(c: bv32)
    requires c & 0xFF00_0000 == 0
    ensures (c << 7) << 1 == c << 8 && (c << 7) & 0x8000_0000 == 0
    ensures (c << 6) << 1 == c << 7 && (c << 6) & 0x8000_0000 == 0
    ensures (c << 5) << 1 == c << 6 && (c << 5) & 0x8000_0000 == 0
    ensures (c << 4) << 1 == c << 5 && (c << 4) & 0x8000_0000 == 0
    ensures (c << 3) << 1 == c << 4 && (c << 3) & 0x8000_0000 == 0
    ensures (c << 2) << 1 == c << 3 && (c << 2) & 0x8000_0000 == 0
    ensures (c << 1) << 1 == c << 2 && (c << 1) & 0x8000_0000 == 0
    ensures c & 0x8000_0000 == 0
  {
  }

  /** Moving a word up by a byte, one bit at a time, loses nothing when its top byte is clear. */
  lemma Doublings(c: bv32)
    returns (d1: bv32, d2: bv32, d3: bv32, d4: bv32, d5: bv32, d6: bv32, d7: bv32)
    requires TopByteClear(c)
    ensures Double(c) == d1 && Double(d1) == d2 && Double(d2) == d3 && Double(d3) == d4
    ensures Double(d4) == d5 && Double(d5) == d6 && Double(d6) == d7 && Double(d7) == LeftByte(c)
    ensures TopClear(c) && TopClear(d1) && TopClear(d2) && TopClear(d3)
    ensures TopClear(d4) && TopClear(d5) && TopClear(d6) && TopClear(d7)
  {
    DoublingBits(c);
    d1, d2, d3, d4, d5, d6, d7 := c << 1, c << 2, c << 3, c << 4, c << 5, c << 6, c << 7;
  }

  lemma ShiftStep(s: bv32, c: bv32, n: nat)
    requires TopClear(c) && n > 0
    ensures Shifts(Xor(s, Double(c)), n) == Shifts(Xor(Shift(s), c), n - 1)
    ensures Shifts(s, n) == Shifts(Shift(s), n - 1)
  {
    hide Shift, Xor, Double, TopClear;
    ShiftLinear(s, c);
  }

  lemma NoShifts(s: bv32)
    ensures Shifts(s, 0) == s
  {
  }

  /** Bits that have not reached the low end pass through unchanged. */
  lemma EightShiftsLinear(s: bv32, c: bv32)
    requires TopByteClear(c)
    ensures Shifts(Xor(s, LeftByte(c)), 8) == Xor(Shifts(s, 8), c)
  {
    hide Shift, Shifts, Xor, Double, LeftByte, TopClear, TopByteClear;
    var d1, d2, d3, d4, d5, d6, d7 := Doublings(c);
    var s1 := Shift(s);
    var s2 := Shift(s1);
    var s3 := Shift(s2);
    var s4 := Shift(s3);
    var s5 := Shift(s4);
    var s6 := Shift(s5);
    var s7 := Shift(s6);
    ShiftStep(s, d7, 8);
    ShiftStep(s1, d6, 7);
    ShiftStep(s2, d5, 6);
    ShiftStep(s3, d4, 5);
    ShiftStep(s4, d3, 4);
    ShiftStep(s5, d2, 3);
    ShiftStep(s6, d1, 2);
    ShiftStep(s7, c, 1);
    NoShifts(Shift(s7));
    NoShifts(Xor(Shift(s7), c));
  }

  /** A little-endian word of four bytes, from the low end. */
  function Word(b0: Byte, b1: Byte, b2: Byte, b3: Byte): bv32 {
    Xor(Wide(b0), LeftByte(Xor(Wide(b1), LeftByte(Xor(Wide(b2), LeftByte(Wide(b3)))))))
  }

  function Shifts32(s: bv32): bv32 {
    Shifts(Shifts(Shifts(Shifts(s, 8), 8), 8), 8)
  }

  lemma XorAssoc(a: bv32, b: bv32, c: bv32)
    ensures Xor(a, Xor(b, c)) == Xor(Xor(a, b), c)
  {
  }

  lemma WordFits(b1: Byte, b2: Byte, b3: Byte)
    ensures TopByteClear(Wide(b3))
    ensures TopByteClear(Xor(Wide(b2), LeftByte(Wide(b3))))
    ensures TopByteClear(Xor(Wide(b1), LeftByte(Xor(Wide(b2), LeftByte(Wide(b3))))))
  {
  }

  /** Absorbing four bytes equals absorbing them as one word. */
  lemma FeedWord(s: bv32, b0: Byte, b1: Byte, b2: Byte, b3: Byte)
    ensures Feed(Feed(Feed(Feed(s, b0), b1), b2), b3) == Shifts32(Xor(s, Word(b0, b1, b2, b3)))
  {
    hide Shifts, Xor, LeftByte, Wide, TopByteClear;
    var c3 := Wide(b3);
    var c2 := Xor(Wide(b2), LeftByte(c3));
    var c1 := Xor(Wide(b1), LeftByte(c2));
    WordFits(b1, b2, b3);
    XorAssoc(s, Wide(b0), LeftByte(c1));
    EightShiftsLinear(Xor(s, Wide(b0)), c1);
    var s1 := Feed(s, b0);
    XorAssoc(s1, Wide(b1), LeftByte(c2));
    EightShiftsLinear(Xor(s1, Wide(b1)), c2);
    var s2 := Feed(s1, b1);
    XorAssoc(s2, Wide(b2), LeftByte(c3));
    EightShiftsLinear(Xor(s2, Wide(b2)), c3);
  }

  lemma WordInjective(a0: Byte, a1: Byte, a2: Byte, a3: Byte, b0: Byte, b1: Byte, b2: Byte, b3: Byte)
    requires Word(a0, a1, a2, a3) == Word(b0, b1, b2, b3)
    ensures a0 == b0 && a1 == b1 && a2 == b2 && a3 == b3
  {
  }

  lemma AbsorbPop(s: bv32, bytes: seq<Byte>)
    requires bytes != []
    ensures Absorb(s, bytes) == Absorb(Feed(s, bytes[0]), bytes[1..])
    ensures |bytes| == 1 ==> Absorb(s, bytes) == Feed(s, bytes[0])
  {
    hide Feed;
  }

  lemma AbsorbFour(s: bv32, b: seq<Byte>)
    requires |b| == 4
    ensures Absorb(s, b) == Shifts32(Xor(s, Word(b[0], b[1], b[2], b[3])))
  {
    hide Shifts32, Word, Feed, Xor, Absorb;
    FeedWord(s, b[0], b[1], b[2], b[3]);
    AbsorbPop(s, b);
    AbsorbPop(Feed(s, b[0]), b[1..]);
    assert b[1..][1..] == b[2..] && b[2..][1..] == b[3..];
    AbsorbPop(Feed(Feed(s, b[0]), b[1]), b[2..]);
    AbsorbPop(Feed(Feed(Feed(s, b[0]), b[1]), b[2]), b[3..]);
  }

  lemma Shifts32Injective(x: bv32, y: bv32)
    requires Shifts32(x) == Shifts32(y)
    ensures x == y
  {
    hide Shifts;
    ShiftsInjective(Shifts(Shifts(Shifts(x, 8), 8), 8), Shifts(Shifts(Shifts(y, 8), 8), 8), 8);
    ShiftsInjective(Shifts(Shifts(x, 8), 8), Shifts(Shifts(y, 8), 8), 8);
    ShiftsInjective(Shifts(x, 8), Shifts(y, 8), 8);
    ShiftsInjective(x, y, 8);
  }

  /** From one register, different groups of four bytes lead to different registers. */
  lemma AbsorbDistinguishes(s: bv32, a: seq<Byte>, b: seq<Byte>)
    requires |a| == |b| == 4 && Absorb(s, a) == Absorb(s, b)
    ensures a == b
  {
    hide Absorb, Word, Shifts32, Xor;
    AbsorbFour(s, a);
    AbsorbFour(s, b);
    var x, y := Word(a[0], a[1], a[2], a[3]), Word(b[0], b[1], b[2], b[3]);
    Shifts32Injective(Xor(s, x), Xor(s, y));
    XorCancel(x, y, s);
    WordInjective(a[0], a[1], a[2], a[3], b[0], b[1], b[2], b[3]);
  }

  lemma AbsorbThree(s: bv32, front: seq<Byte>, a: seq<Byte>, back: seq<Byte>)
    ensures Absorb(s, front + a + back) == Absorb(Absorb(Absorb(s, front), a), back)
  {
    hide Absorb;
    AbsorbAppend(s, front + a, back);
    AbsorbAppend(s, front, a);
  }

  /** A burst of four changed bytes changes the checksum. */
  lemma BurstDetected(front: seq<Byte>, a: seq<Byte>, b: seq<Byte>, back: seq<Byte>)
    requires |a| == |b| == 4 && a != b
    ensures Crc(front + a + back) != Crc(front + b + back)
  {
    hide Absorb, Xor;
    var s := Absorb(ALL_ONES, front);
    AbsorbThree(ALL_ONES, front, a, back);
    AbsorbThree(ALL_ONES, front, b, back);
    if Crc(front + a + back) == Crc(front + b + back) {
      XorCancel(Absorb(Absorb(s, a), back), Absorb(Absorb(s, b), back), ALL_ONES);
      AbsorbInjective(Absorb(s, a), Absorb(s, b), back);
      AbsorbDistinguishes(s, a, b);
    }
  }

  lemma Widened(a: Byte, b: Byte)
    ensures Wide(a) == Wide(b) ==> a == b
  {
  }

  lemma FeedDistinguishes(s: bv32, a: Byte, b: Byte)
    requires Feed(s, a) == Feed(s, b)
    ensures a == b
  {
    hide Shifts, Xor, Wide;
    ShiftsInjective(Xor(s, Wide(a)), Xor(s, Wide(b)), 8);
    XorCancel(Wide(a), Wide(b), s);
    Widened(a, b);
  }

  /** A single changed byte changes the checksum. */
  lemma ByteDetected(front: seq<Byte>, a: Byte, b: Byte, back: seq<Byte>)
    requires a != b
    ensures Crc(front + [a] + back) != Crc(front + [b] + back)
  {
    hide Absorb, Xor, Feed;
    var s := Absorb(ALL_ONES, front);
    AbsorbThree(ALL_ONES, front, [a], back);
    AbsorbThree(ALL_ONES, front, [b], back);
    if Crc(front + [a] + back) == Crc(front + [b] + back) {
      XorCancel(Absorb(Absorb(s, [a]), back), Absorb(Absorb(s, [b]), back), ALL_ONES);
      AbsorbInjective(Absorb(s, [a]), Absorb(s, [b]), back);
      AbsorbPop(s, [a]);
      AbsorbPop(s, [b]);
      FeedDistinguishes(s, a, b);
    }
  }

  // ---- The stored checksum ---------------------------------------------------------------------

  /** The four big-endian bytes of a checksum. */
  function CrcBytes(c: bv32): seq<Byte> {
    [(c >> 24) as bv8, ((c >> 16) & 0xFF) as bv8, ((c >> 8) & 0xFF) as bv8, (c & 0xFF) as bv8]
  }

  function CrcOf(s: seq<Byte>): bv32
    requires |s| == 4
  {
    ((s[0] as bv32) << 24) | ((s[1] as bv32) << 16) | ((s[2] as bv32) << 8) | (s[3] as bv32)
  }

  lemma StoredChecksum(c: bv32, s: seq<Byte>)
    requires |s| == 4
    ensures CrcOf(CrcBytes(c)) == c
    ensures CrcBytes(CrcOf(s)) == s
  {
  }

  lemma Unrolled(s: bv32)
    ensures Shifts(s, 8) == Shift(Shift(Shift(Shift(Shift(Shift(Shift(Shift(s))))))))
  {
    hide Shift;
    assert Shifts(s, 8) == Shifts(Shift(Shift(Shift(Shift(s)))), 4);
  }

  lemma FeedBits(s: bv32, b: Byte, t: bv32)
    requires Shift(Shift(Shift(Shift(Shift(Shift(Shift(Shift(s ^ (b as bv32))))))))) == t
    ensures Feed(s, b) == t
  {
    hide Shift, Shifts;
    Unrolled(Xor(s, Wide(b)));
  }

  lemma AbsorbNone(s: bv32)
    ensures Absorb(s, []) == s
  {
  }

  lemma Registers()
    ensures Feed(0xFFFFFFFF, 0x31) == 0x6F0A661C
    ensures Feed(0x6F0A661C, 0x32) == 0x8CAA3B9F
    ensures Feed(0x8CAA3B9F, 0x33) == 0xEF84D04D
    ensures Feed(0xEF84D04D, 0x34) == 0x09C50B11
    ensures Feed(0x09C50B11, 0x35) == 0xE72EDCCA
    ensures Feed(0xE72EDCCA, 0x36) == 0xBECA8E79
    ensures Feed(0xBECA8E79, 0x37) == 0xEDBD6815
    ensures Feed(0xEDBD6815, 0x38) == 0x9F787F65
    ensures Feed(0x9F787F65, 0x39) == 0x1CF96D7C
  {
    FeedBits(0xFFFFFFFF, 0x31, 0x6F0A661C);
    FeedBits(0x6F0A661C, 0x32, 0x8CAA3B9F);
    FeedBits(0x8CAA3B9F, 0x33, 0xEF84D04D);
    FeedBits(0xEF84D04D, 0x34, 0x09C50B11);
    FeedBits(0x09C50B11, 0x35, 0xE72EDCCA);
    FeedBits(0xE72EDCCA, 0x36, 0xBECA8E79);
    FeedBits(0xBECA8E79, 0x37, 0xEDBD6815);
    FeedBits(0xEDBD6815, 0x38, 0x9F787F65);
    FeedBits(0x9F787F65, 0x39, 0x1CF96D7C);
  }

  lemma AbsorbAt(s: bv32, bytes: seq<Byte>, i: nat)
    requires i < |bytes|
    ensures Absorb(s, bytes[i..]) == Absorb(Feed(s, bytes[i]), bytes[i + 1..])
  {
    hide Absorb, Feed;
    AbsorbPop(s, bytes[i..]);
    assert bytes[i..][1..] == bytes[i + 1..];
  }

  /** The published check value of CRC32C: the checksum of the nine ASCII digits 1 to 9. */
  lemma CheckValue()
    ensures Crc([0x31, 0x32, 0x33, 0x34, 0x35, 0x36, 0x37, 0x38, 0x39]) == 0xE306_9283
  {
    var d: seq<Byte> := [0x31, 0x32, 0x33, 0x34, 0x35, 0x36, 0x37, 0x38, 0x39];
    hide Feed, Absorb;
    Registers();
    AbsorbAt(0xFFFFFFFF, d, 0);
    AbsorbAt(0x6F0A661C, d, 1);
    AbsorbAt(0x8CAA3B9F, d, 2);
    AbsorbAt(0xEF84D04D, d, 3);
    AbsorbAt(0x09C50B11, d, 4);
    AbsorbAt(0xE72EDCCA, d, 5);
    AbsorbAt(0xBECA8E79, d, 6);
    AbsorbAt(0xEDBD6815, d, 7);
    AbsorbAt(0x9F787F65, d, 8);
    assert d[0..] == d && d[9..] == [];
    AbsorbNone(0x1CF96D7C);
  }
}

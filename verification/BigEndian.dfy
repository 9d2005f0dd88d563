/** Fixed-width big-endian integers. */
module BigEndian {
  import opened Crc32c

  /** The byte with value n. */
  function ToByte(n: nat): (b: Byte)
    requires n < 256
    ensures b as nat == n
  {
    if n == 0 then 0 else ToByte(n - 1) + 1
  }

  function Range(width: nat): (r: nat)
    ensures r > 0
  {
    if width == 0 then 1 else 256 * Range(width - 1)
  }

  function ToBytes(n: nat, width: nat): (s: seq<Byte>)
    requires n < Range(width)
    ensures |s| == width
  {
    if width == 0 then [] else ToBytes(n / 256, width - 1) + [ToByte(n % 256)]
  }

  function FromBytes(s: seq<Byte>): (n: nat)
    ensures n < Range(|s|)
  {
    if s == [] then 0 else 256 * FromBytes(s[..|s| - 1]) + s[|s| - 1] as nat
  }

  lemma {:induction false} FromTo(n: nat, width: nat)
    requires n < Range(width)
    ensures FromBytes(ToBytes(n, width)) == n
  {
    if width > 0 {
      FromTo(n / 256, width - 1);
      var s := ToBytes(n, width);
      assert s[..|s| - 1] == ToBytes(n / 256, width - 1);
    }
  }

  lemma SameByte(a: Byte, b: Byte)
    requires a as nat == b as nat
    ensures a == b
  {
  }

  lemma NoBytes(s: seq<Byte>)
    requires s == []
    ensures FromBytes(s) == 0 && ToBytes(0, 0) == []
  {
  }

  lemma LastByte(s: seq<Byte>)
    requires s != []
    ensures var n, front := FromBytes(s), s[..|s| - 1];
            && n / 256 == FromBytes(front) && n % 256 == s[|s| - 1] as nat
            && FromBytes(front) < Range(|s| - 1)
            && ToBytes(n, |s|) == ToBytes(FromBytes(front), |s| - 1) + [ToByte(n % 256)]
            && s == front + [s[|s| - 1]]
  {
  }

  lemma {:induction false} ToFrom(s: seq<Byte>)
    ensures ToBytes(FromBytes(s), |s|) == s
  {
    hide ToBytes, FromBytes, ToByte;
    if s == [] {
      NoBytes(s);
    } else {
      var front, last := s[..|s| - 1], s[|s| - 1];
      ToFrom(front);
      LastByte(s);
      SameByte(ToByte(FromBytes(s) % 256), last);
    }
  }

  lemma Ranges()
    ensures Range(2) == 0x1_0000 && Range(8) == 0x1_0000_0000_0000_0000
  {
    assert Range(2) == 256 * Range(1) && Range(1) == 256 * Range(0);
    assert Range(4) == 256 * Range(3) && Range(3) == 256 * Range(2);
    assert Range(8) == 256 * Range(7) && Range(7) == 256 * Range(6) && Range(6) == 256 * Range(5)
        && Range(5) == 256 * Range(4);
  }

  // ---- The stored checksum is big-endian ----------------------------------------------------

  /** The number that a word of 32 bits stands for. */
  function Number(word: bv32): nat {
    word as nat
  }

  lemma JoinedValue(a: Byte, b: Byte, c: Byte, d: Byte, word: bv32)
    requires word == ((a as bv32) << 24) | ((b as bv32) << 16) | ((c as bv32) << 8) | (d as bv32)
    ensures word as nat == ((a as nat * 256 + b as nat) * 256 + c as nat) * 256 + d as nat
  {
  }

  lemma JoinedNumber(a: Byte, b: Byte, c: Byte, d: Byte, word: bv32)
    requires word == ((a as bv32) << 24) | ((b as bv32) << 16) | ((c as bv32) << 8) | (d as bv32)
    ensures Number(word) == ((a as nat * 256 + b as nat) * 256 + c as nat) * 256 + d as nat
  {
    JoinedValue(a, b, c, d, word);
  }

  lemma CrcOfValue(s: seq<Byte>)
    requires |s| == 4
    ensures Number(CrcOf(s)) == ((s[0] as nat * 256 + s[1] as nat) * 256 + s[2] as nat) * 256 + s[3] as nat
  {
    hide Number;
    JoinedNumber(s[0], s[1], s[2], s[3], CrcOf(s));
  }

  lemma FromOne(front: seq<Byte>, last: Byte)
    ensures FromBytes(front + [last]) == 256 * FromBytes(front) + last as nat
  {
    assert (front + [last])[..|front|] == front;
  }

  lemma FromFour(a: Byte, b: Byte, c: Byte, d: Byte)
    ensures FromBytes([a, b, c, d]) == ((a as nat * 256 + b as nat) * 256 + c as nat) * 256 + d as nat
  {
    hide FromBytes;
    NoBytes([]);
    FromOne([], a);
    FromOne([a], b);
    FromOne([a, b], c);
    FromOne([a, b, c], d);
    assert [] + [a] == [a] && [a] + [b] == [a, b] && [a, b] + [c] == [a, b, c] && [a, b, c] + [d] == [a, b, c, d];
  }

  /** The four bytes of a stored checksum are the checksum as a big-endian number. */
  lemma ChecksumIsBigEndian(s: seq<Byte>)
    requires |s| == 4
    ensures Number(CrcOf(s)) == FromBytes(s)
  {
    hide Number, CrcOf, FromBytes;
    CrcOfValue(s);
    FromFour(s[0], s[1], s[2], s[3]);
    assert s == [s[0], s[1], s[2], s[3]];
  }

  lemma StoredIsBigEndian(c: bv32)
    ensures FromBytes(CrcBytes(c)) == Number(c)
    ensures Number(c) < Range(4) && CrcBytes(c) == ToBytes(Number(c), 4)
  {
    hide Number, CrcOf, FromBytes, ToBytes, Range;
    StoredChecksum(c, CrcBytes(c));
    ChecksumIsBigEndian(CrcBytes(c));
    ToFrom(CrcBytes(c));
  }

  // ---- Most significant byte first ------------------------------------------------------------

  /** The i-th byte of a number is its i-th digit to the base 256, counted from the most significant one. */
  lemma {:induction false} ToBytesAt(n: nat, width: nat, i: nat)
    requires n < Range(width) && i < width
    ensures ToBytes(n, width)[i] as nat == n / Range(width - 1 - i) % 256
  {
    hide ToByte;
    if i < width - 1 {
      ToBytesAt(n / 256, width - 1, i);
      DivideTwice(n, Range(width - 2 - i));
    }
  }

  lemma {:induction false} MoreTimes(d: nat, k: nat, q: nat)
    requires k < q
    ensures d * k + d <= d * q
  {
    assert d * q == d * (q - 1) + d;
    if k < q - 1 {
      MoreTimes(d, k, q - 1);
    }
  }

  /** Quotient and remainder are determined. */
  lemma Quotient(d: nat, q: nat, rest: nat)
    requires rest < d
    ensures (d * q + rest) / d == q
  {
    var k := (d * q + rest) / d;
    assert d * k <= d * q + rest < d * k + d;
    if k < q {
      MoreTimes(d, k, q);
    } else if q < k {
      MoreTimes(d, q, k);
    }
  }

  lemma DivideTwice(n: nat, r: nat)
    requires r > 0
    ensures n / 256 / r == n / (256 * r)
  {
    var m, low := n / 256, n % 256;
    var q, high := m / r, m % r;
    assert m == r * q + high;
    assert 256 * (r * q) == 256 * r * q;
    assert n == 256 * r * q + (256 * high + low);
    Quotient(256 * r, q, 256 * high + low);
  }
}

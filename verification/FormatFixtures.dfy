/** The compatibility fixtures of version 1: seven files, byte by byte, and what each of them decodes to. */
module FormatFixtures {
  import opened Crc32c
  import opened BigEndian
  import opened Envelope
  import opened EnvelopeErrors

  /** The format under which the fixtures are read: the tag BLOBTEST and version 1. */
  const BLOBTEST := Format([0x42, 0x4C, 0x4F, 0x42, 0x54, 0x45, 0x53, 0x54], 1)
  const FIXTURE_MAXIMUM: nat := 1024

  const ABC: seq<Byte> := [0x61, 0x62, 0x63]

  /** The tag, the version and the length 3, and then the three letters abc. */
  const ABC_BODY: seq<Byte> :=
    [0x42, 0x4C, 0x4F, 0x42, 0x54, 0x45, 0x53, 0x54, 0x00, 0x01,
     0x00, 0x00, 0x00, 0x00, 0x00, 0x00, 0x00, 0x03, 0x61, 0x62, 0x63]

  /** Four bytes at a time: the registers before and after each of them. */
  lemma FourFed(s: seq<Byte>, i: nat, r0: bv32, r1: bv32, r2: bv32, r3: bv32, r4: bv32)
    requires i + 4 <= |s|
    requires Feed(r0, s[i]) == r1 && Feed(r1, s[i + 1]) == r2 && Feed(r2, s[i + 2]) == r3 && Feed(r3, s[i + 3]) == r4
    ensures Absorb(r0, s[i..]) == Absorb(r4, s[i + 4..])
  {
    hide Feed, Absorb;
    AbsorbAt(r0, s, i);
    AbsorbAt(r1, s, i + 1);
    AbsorbAt(r2, s, i + 2);
    AbsorbAt(r3, s, i + 3);
  }

  lemma TagFront(s: seq<Byte>)
    requires |s| >= 4 && s[0] == 0x42 && s[1] == 0x4C && s[2] == 0x4F && s[3] == 0x42
    ensures Absorb(0xFFFFFFFF, s[0..]) == Absorb(0x7A9D73EA, s[4..])
  {
    hide Feed, Absorb;
    FeedBits(0xFFFFFFFF, 0x42, 0x0DC2C1E5);
    FeedBits(0x0DC2C1E5, 0x4C, 0xDAF4ACAB);
    FeedBits(0xDAF4ACAB, 0x4F, 0x2470CBA9);
    FeedBits(0x2470CBA9, 0x42, 0x7A9D73EA);
    FourFed(s, 0, 0xFFFFFFFF, 0x0DC2C1E5, 0xDAF4ACAB, 0x2470CBA9, 0x7A9D73EA);
  }

  lemma TagBack(s: seq<Byte>)
    requires |s| >= 8 && s[4] == 0x54 && s[5] == 0x45 && s[6] == 0x53 && s[7] == 0x54
    ensures Absorb(0x7A9D73EA, s[4..]) == Absorb(0x627DF21A, s[8..])
  {
    hide Feed, Absorb;
    FeedBits(0x7A9D73EA, 0x54, 0x1E17509D);
    FeedBits(0x1E17509D, 0x45, 0x5914AE34);
    FeedBits(0x5914AE34, 0x53, 0xB555E327);
    FeedBits(0xB555E327, 0x54, 0x627DF21A);
    FourFed(s, 4, 0x7A9D73EA, 0x1E17509D, 0x5914AE34, 0xB555E327, 0x627DF21A);
  }

  lemma VersionFed(s: seq<Byte>)
    requires |s| >= 12 && s[8] == 0x00 && s[9] == 0x01 && s[10] == 0x00 && s[11] == 0x00
    ensures Absorb(0x627DF21A, s[8..]) == Absorb(0x68554D2C, s[12..])
  {
    hide Feed, Absorb;
    FeedBits(0x627DF21A, 0x00, 0x7BDE92A5);
    FeedBits(0x7BDE92A5, 0x01, 0x65AAFC2B);
    FeedBits(0x65AAFC2B, 0x00, 0xB9518F19);
    FeedBits(0xB9518F19, 0x00, 0x68554D2C);
    FourFed(s, 8, 0x627DF21A, 0x7BDE92A5, 0x65AAFC2B, 0xB9518F19, 0x68554D2C);
  }

  lemma LengthFed(s: seq<Byte>)
    requires |s| >= 16 && s[12] == 0x00 && s[13] == 0x00 && s[14] == 0x00 && s[15] == 0x00
    ensures Absorb(0x68554D2C, s[12..]) == Absorb(0xE80DCB65, s[16..])
  {
    hide Feed, Absorb;
    FeedBits(0x68554D2C, 0x00, 0x6D961443);
    FeedBits(0x6D961443, 0x00, 0x5246785C);
    FeedBits(0x5246785C, 0x00, 0x1C34537B);
    FeedBits(0x1C34537B, 0x00, 0xE80DCB65);
    FourFed(s, 12, 0x68554D2C, 0x6D961443, 0x5246785C, 0x1C34537B, 0xE80DCB65);
  }

  lemma LastFed(s: seq<Byte>)
    requires |s| >= 20 && s[16] == 0x00 && s[17] == 0x03 && s[18] == 0x61 && s[19] == 0x62
    ensures Absorb(0xE80DCB65, s[16..]) == Absorb(0x14E18D5A, s[20..])
  {
    hide Feed, Absorb;
    FeedBits(0xE80DCB65, 0x00, 0x54DF8AB5);
    FeedBits(0x54DF8AB5, 0x03, 0x94E04AAB);
    FeedBits(0x94E04AAB, 0x61, 0xA8FBEEB6);
    FeedBits(0xA8FBEEB6, 0x62, 0x14E18D5A);
    FourFed(s, 16, 0xE80DCB65, 0x54DF8AB5, 0x94E04AAB, 0xA8FBEEB6, 0x14E18D5A);
  }

  lemma AbcChecksum()
    ensures Crc(ABC_BODY) == 0xB7BA_8C0F
  {
    hide Feed, Absorb;
    TagFront(ABC_BODY);
    TagBack(ABC_BODY);
    VersionFed(ABC_BODY);
    LengthFed(ABC_BODY);
    LastFed(ABC_BODY);
    AbsorbAt(0x14E18D5A, ABC_BODY, 20);
    FeedBits(0x14E18D5A, 0x63, 0x484573F0);
    assert ABC_BODY[0..] == ABC_BODY && ABC_BODY[21..] == [];
    AbsorbNone(0x484573F0);
  }

  lemma {:induction false} SmallBytes(n: nat, width: nat)
    requires n < 256 && width > 0
    ensures n < Range(width)
    ensures ToBytes(n, width) == seq(width - 1, i => 0 as Byte) + [ToByte(n)]
  {
    hide ToByte;
    if width == 1 {
      assert Range(1) == 256 * Range(0);
      NoBytes([]);
      assert ToBytes(n, 1) == ToBytes(0, 0) + [ToByte(n)];
    } else {
      ZeroBytes(width - 1);
      assert n / 256 == 0 && n % 256 == n;
    }
  }

  lemma {:induction false} ZeroBytes(width: nat)
    ensures Range(width) > 0 && ToBytes(0, width) == seq(width, i => 0 as Byte)
  {
    if width > 0 {
      ZeroBytes(width - 1);
      assert ToBytes(0, width) == ToBytes(0, width - 1) + [ToByte(0)];
    }
  }

  lemma AbcHeader()
    ensures Header(BLOBTEST, 3) == ABC_BODY[..18]
  {
    hide ToBytes;
    HeaderBytes(BLOBTEST, 3);
    SmallBytes(1, 2);
    SmallBytes(3, 8);
    SameByte(ToByte(1), 1);
    SameByte(ToByte(3), 3);
    assert seq(1, i => 0 as Byte) == [0];
    assert seq(7, i => 0 as Byte) == [0, 0, 0, 0, 0, 0, 0];
  }

  lemma AbcBody()
    ensures Body(BLOBTEST, ABC) == ABC_BODY
  {
    hide Header;
    AbcHeader();
    assert ABC_BODY == ABC_BODY[..18] + ABC;
  }

  lemma AbcStored()
    ensures CrcBytes(0xB7BA_8C0F) == [0xB7, 0xBA, 0x8C, 0x0F]
    ensures CrcOf([0xB7, 0xBA, 0x8C, 0x0F]) == 0xB7BA_8C0F && CrcOf([0xB7, 0xBA, 0x8C, 0x0E]) == 0xB7BA_8C0E
  {
  }

  /** The fixture files valid, checksum-invalid, trailing-data and truncated. */
  lemma AbcFixtures()
    ensures Encode(BLOBTEST, ABC) == ABC_BODY + [0xB7, 0xBA, 0x8C, 0x0F]
    ensures DecodeBytes(BLOBTEST, ABC_BODY + [0xB7, 0xBA, 0x8C, 0x0F], FIXTURE_MAXIMUM) == Success(ABC)
    ensures DecodeBytes(BLOBTEST, ABC_BODY + [0xB7, 0xBA, 0x8C, 0x0E], FIXTURE_MAXIMUM)
         == Failure(ChecksumMismatch(0xB7BA_8C0E, 0xB7BA_8C0F))
    ensures DecodeBytes(BLOBTEST, ABC_BODY + [0xB7, 0xBA, 0x8C, 0x0F, 0x00], FIXTURE_MAXIMUM) == Failure(TrailingData)
    ensures DecodeBytes(BLOBTEST, ABC_BODY + [0xB7, 0xBA, 0x8C], FIXTURE_MAXIMUM)
         == Failure(TruncatedEnvelope(Checksum))
  {
    hide Header, Crc, CrcOf, CrcBytes, Encode, DecodeBytes, Body;
    AbcBody();
    AbcChecksum();
    AbcStored();
    EncodeIs(BLOBTEST, ABC);
    RoundTrip(BLOBTEST, ABC, FIXTURE_MAXIMUM);
    MismatchDiagnosed(BLOBTEST, ABC, FIXTURE_MAXIMUM, [0xB7, 0xBA, 0x8C, 0x0E]);
    AppendedDiagnosed(BLOBTEST, ABC, FIXTURE_MAXIMUM, [0xB7, 0xBA, 0x8C, 0x0F], [0x00]);
    assert ABC_BODY + [0xB7, 0xBA, 0x8C, 0x0F] + [0x00] == ABC_BODY + [0xB7, 0xBA, 0x8C, 0x0F, 0x00];
    CutDiagnosed(BLOBTEST, ABC, FIXTURE_MAXIMUM, 24);
    assert (ABC_BODY + [0xB7, 0xBA, 0x8C, 0x0F])[..24] == ABC_BODY + [0xB7, 0xBA, 0x8C];
  }

  /** The fixture files oversized, wrong-domain and unsupported-version, whatever follows the field that is wrong. */
  lemma HeaderFixtures(more: seq<Byte>)
    ensures DecodeBytes(BLOBTEST, ABC_BODY[..16] + [0x04, 0x01] + more, FIXTURE_MAXIMUM)
         == Failure(BlobTooLarge(1025, 1024))
    ensures DecodeBytes(BLOBTEST, [0x43] + ABC_BODY[1..8] + more, FIXTURE_MAXIMUM)
         == Failure(InvalidEnvelopeDomain(BLOBTEST.domainTag, [0x43] + ABC_BODY[1..8]))
    ensures DecodeBytes(BLOBTEST, ABC_BODY[..8] + [0x00, 0x02] + more, FIXTURE_MAXIMUM)
         == Failure(UnsupportedEnvelopeVersion(2))
  {
    hide DecodeBytes, Header, FromBytes;
    OversizedFixture(more);
    var foreign := [0x43] + ABC_BODY[1..8] + more;
    assert foreign[..8] == [0x43] + ABC_BODY[1..8] && foreign[..8][0] != BLOBTEST.domainTag[0];
    DiagnosisExact(BLOBTEST, foreign, FIXTURE_MAXIMUM, InvalidEnvelopeDomain(BLOBTEST.domainTag, foreign[..8]));
    var newer := ABC_BODY[..8] + [0x00, 0x02] + more;
    assert newer[..8] == BLOBTEST.domainTag && newer[8..10] == [0x00, 0x02];
    ZerosThen(newer[8..10]);
    DiagnosisExact(BLOBTEST, newer, FIXTURE_MAXIMUM, UnsupportedEnvelopeVersion(2));
  }

  lemma OversizedFixture(more: seq<Byte>)
    ensures DecodeBytes(BLOBTEST, ABC_BODY[..16] + [0x04, 0x01] + more, FIXTURE_MAXIMUM)
         == Failure(BlobTooLarge(1025, 1024))
  {
    hide DecodeBytes, FromBytes;
    var data := ABC_BODY[..16] + [0x04, 0x01] + more;
    assert data[..8] == BLOBTEST.domainTag;
    assert forall i :: 0 <= i < 16 ==> data[i] == ABC_BODY[i];
    LengthValue(data);
    FieldsDeclare(BLOBTEST, data, 1025);
    DiagnosisExact(BLOBTEST, data, FIXTURE_MAXIMUM, BlobTooLarge(1025, 1024));
  }

  lemma ZerosThen(s: seq<Byte>)
    requires s != [] && forall i :: 0 <= i < |s| - 1 ==> s[i] == 0
    ensures FromBytes(s) == s[|s| - 1] as nat
  {
    hide FromBytes, ToBytes;
    var last := s[|s| - 1];
    SmallBytes(last as nat, |s|);
    FromTo(last as nat, |s|);
    SameByte(ToByte(last as nat), last);
    assert s == seq(|s| - 1, i => 0 as Byte) + [last];
  }

  lemma LengthValue(data: seq<Byte>)
    requires |data| >= 18 && data[8] == 0 && data[9] == 1 && data[16] == 4 && data[17] == 1
    requires forall i :: 10 <= i < 16 ==> data[i] == 0
    ensures FromBytes(data[8..10]) == 1 && FromBytes(data[10..18]) == 1025
  {
    hide FromBytes;
    ZerosThen(data[8..10]);
    ZerosThen(data[10..17]);
    FromOne(data[10..17], data[17]);
    assert data[10..17] + [data[17]] == data[10..18];
  }
}

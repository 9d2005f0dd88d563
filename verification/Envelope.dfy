/** The version 1 envelope: what the encoder writes and what a byte string decodes to. */
module Envelope {
  import opened Collections
  import opened Crc32c
  import opened BigEndian

  const DOMAIN_TAG_LEN := 8
  const HEADER_LEN := 18
  const CHECKSUM_LEN := 4
  const OVERHEAD := 22
  const WORD_MAX: nat := 0xFFFF_FFFF_FFFF_FFFF
  const STREAM_CHUNK_SIZE: nat := 65536
  const STREAM_CHANNEL_CAPACITY: nat := 2

  datatype Format = Format(domainTag: seq<Byte>, version: nat)

  /** What the format constructor accepts: an eight-byte tag and version 1. */
  predicate ValidFormat(format: Format) {
    |format.domainTag| == DOMAIN_TAG_LEN && format.version == 1
  }

  /** A maximum that leaves room for the envelope in a 64-bit length. */
  predicate ValidMaximum(maximum: nat) {
    maximum + OVERHEAD <= WORD_MAX
  }

  datatype Section = Magic | Version | PayloadLength | Payload | Checksum

  datatype BlobError =
    | InvalidEnvelopeDomain(expectedTag: seq<Byte>, found: seq<Byte>)
    | UnsupportedEnvelopeVersion(version: nat)
    | TruncatedEnvelope(section: Section)
    | BlobTooLarge(size: nat, maximum: nat)
    | InvalidPayloadLength(declared: nat)
    | TrailingData
    | ChecksumMismatch(expected: bv32, actual: bv32)
    | InputEndedEarly(declared: nat, received: nat)
    | InputHasTrailingData(declared: nat)
    | StreamCancelled
    | Io

  datatype Outcome<+T> = Success(value: T) | Failure(failure: BlobError)

  function Header(format: Format, size: nat): (header: seq<Byte>)
    requires ValidFormat(format) && size <= WORD_MAX
    ensures |header| == HEADER_LEN
  {
    Ranges();
    format.domainTag + ToBytes(format.version, 2) + ToBytes(size, 8)
  }

  function Body(format: Format, payload: seq<Byte>): seq<Byte>
    requires ValidFormat(format) && |payload| <= WORD_MAX
  {
    Header(format, |payload|) + payload
  }

  /** The complete file for a payload. */
  function Encode(format: Format, payload: seq<Byte>): seq<Byte>
    requires ValidFormat(format) && |payload| <= WORD_MAX
  {
    Body(format, payload) + CrcBytes(Crc(Body(format, payload)))
  }

  // ---- Reading ------------------------------------------------------------------------------

  /** Bytes that can be read in order, and the position at which reading starts to fail, if any. */
  datatype Source = Source(data: seq<Byte>, fault: Option<nat>)

  function Available(source: Source): nat {
    if source.fault.Some? && source.fault.value < |source.data| then source.fault.value else |source.data|
  }

  predicate Faulty(source: Source) {
    source.fault.Some? && source.fault.value <= |source.data|
  }

  /** What goes wrong when n bytes are wanted at pos, if anything. */
  function Shortage(source: Source, pos: nat, n: nat, section: Section): Option<BlobError> {
    if n == 0 || pos + n <= Available(source) then None
    else if Faulty(source) then Some(Io)
    else Some(TruncatedEnvelope(section))
  }

  function Trailing(source: Source, pos: nat): Option<BlobError> {
    if pos < Available(source) then Some(TrailingData)
    else if Faulty(source) then Some(Io)
    else None
  }

  function DeclaredIn(data: seq<Byte>): nat
    requires |data| >= HEADER_LEN
  {
    FromBytes(data[10..18])
  }

  /** The checks up to and including the declared length, in the order they are made. */
  function HeaderProblem(format: Format, source: Source, maximum: nat): Option<BlobError> {
    var data := source.data;
    if Shortage(source, 0, 8, Magic).Some? then Shortage(source, 0, 8, Magic)
    else if data[..8] != format.domainTag then Some(InvalidEnvelopeDomain(format.domainTag, data[..8]))
    else if Shortage(source, 8, 2, Version).Some? then Shortage(source, 8, 2, Version)
    else if FromBytes(data[8..10]) != format.version then Some(UnsupportedEnvelopeVersion(FromBytes(data[8..10])))
    else if Shortage(source, 10, 8, PayloadLength).Some? then Shortage(source, 10, 8, PayloadLength)
    else if DeclaredIn(data) > maximum then Some(BlobTooLarge(DeclaredIn(data), maximum))
    else None
  }

  /** The checks after the header. */
  function BodyProblem(source: Source, declared: nat): Option<BlobError> {
    var data := source.data;
    var end := HEADER_LEN + declared;
    if Shortage(source, HEADER_LEN, declared, Payload).Some? then Shortage(source, HEADER_LEN, declared, Payload)
    else if Shortage(source, end, 4, Checksum).Some? then Shortage(source, end, 4, Checksum)
    else if Trailing(source, end + 4).Some? then Trailing(source, end + 4)
    else if end + 4 <= |data| && CrcOf(data[end..end + 4]) != Crc(data[..end]) then
      Some(ChecksumMismatch(CrcOf(data[end..end + 4]), Crc(data[..end])))
    else None
  }

  /** The first problem with what is read, on a machine without limits. */
  function Problem(format: Format, source: Source, maximum: nat): (p: Option<BlobError>)
    ensures p.None? ==>
      |source.data| >= HEADER_LEN && |source.data| == HEADER_LEN + DeclaredIn(source.data) + CHECKSUM_LEN
  {
    var header := HeaderProblem(format, source, maximum);
    if header.Some? then header else BodyProblem(source, DeclaredIn(source.data))
  }

  /** The payload that is read, or why there is none. */
  function DecodeSource(format: Format, source: Source, maximum: nat): Outcome<seq<Byte>> {
    var problem := Problem(format, source, maximum);
    if problem.Some? then Failure(problem.value)
    else Success(source.data[HEADER_LEN..HEADER_LEN + DeclaredIn(source.data)])
  }

  /** What a byte string holds. */
  function DecodeBytes(format: Format, data: seq<Byte>, maximum: nat): Outcome<seq<Byte>> {
    DecodeSource(format, Source(data, None), maximum)
  }

  // ---- Decoding on a machine ----------------------------------------------------------------

  /** A call that returns, or that panics and is unwound. */
  datatype Call<+T> = Ended(value: T) | Unwound

  /** The largest buffer that can be asked for: half of what a word counts. */
  function BufferMax(wordMax: nat): nat {
    wordMax / 2
  }

  /** A length beyond the given limit, or whose envelope would overflow the machine word. */
  function LengthProblem(declared: nat, usizeLimit: nat, wordMax: nat): Option<BlobError> {
    if declared > usizeLimit || declared + OVERHEAD > wordMax then Some(InvalidPayloadLength(declared)) else None
  }

  /** What the decoder does on a machine whose largest word is wordMax. Asking for too large a buffer panics. */
  function Decode(format: Format, source: Source, maximum: nat, usizeLimit: nat,
                  wordMax: nat): Call<Outcome<seq<Byte>>>
  {
    if HeaderProblem(format, source, maximum).Some? then
      Ended(Failure(HeaderProblem(format, source, maximum).value))
    else
      var declared := DeclaredIn(source.data);
      if LengthProblem(declared, usizeLimit, wordMax).Some? then
        Ended(Failure(LengthProblem(declared, usizeLimit, wordMax).value))
      else if declared > BufferMax(wordMax) then Unwound
      else Ended(DecodeSource(format, source, maximum))
  }

  // ---- Canonicity ------------------------------------------------------------------------------

  /** Five parts of known lengths are found again in their concatenation. */
  lemma Parts(tag: seq<Byte>, version: seq<Byte>, length: seq<Byte>, payload: seq<Byte>, checksum: seq<Byte>)
    requires |tag| == 8 && |version| == 2 && |length| == 8 && |checksum| == 4
    ensures var front := tag + version + length + payload; var e := front + checksum; var n := |payload|;
            && |e| == n + OVERHEAD
            && e[..8] == tag && e[8..10] == version && e[10..18] == length
            && e[18..18 + n] == payload && e[..18 + n] == front && e[18 + n..22 + n] == checksum
  {
  }

  lemma EnvelopeFields(format: Format, payload: seq<Byte>)
    requires ValidFormat(format) && |payload| <= WORD_MAX
    ensures var e := Encode(format, payload); var n := |payload|;
            && |e| == n + OVERHEAD == n + 22
            && e[..8] == format.domainTag
            && e[8..10] == ToBytes(format.version, 2)
            && e[10..18] == ToBytes(n, 8)
            && e[18..18 + n] == payload
            && e[..18 + n] == Body(format, payload)
            && e[18 + n..22 + n] == CrcBytes(Crc(Body(format, payload)))
  {
    hide Crc, ToBytes;
    var n := |payload|;
    HeaderBytes(format, n);
    var body := Body(format, payload);
    Parts(format.domainTag, ToBytes(format.version, 2), ToBytes(n, 8), payload, CrcBytes(Crc(body)));
  }

  lemma FieldValues(format: Format, size: nat)
    requires ValidFormat(format) && size <= WORD_MAX
    ensures Range(2) > format.version && Range(8) > size
    ensures FromBytes(ToBytes(format.version, 2)) == format.version
    ensures FromBytes(ToBytes(size, 8)) == size
  {
    Ranges();
    FromTo(format.version, 2);
    FromTo(size, 8);
  }

  /** Decoding inverts encoding, for every payload within the maximum. */
  lemma RoundTrip(format: Format, payload: seq<Byte>, maximum: nat)
    requires ValidFormat(format) && ValidMaximum(maximum) && |payload| <= maximum
    ensures DecodeBytes(format, Encode(format, payload), maximum) == Success(payload)
  {
    hide Crc, Header, Encode, CrcBytes, CrcOf;
    EnvelopeFields(format, payload);
    FieldValues(format, |payload|);
    StoredChecksum(Crc(Body(format, payload)), [0, 0, 0, 0]);
  }

  /** A byte string that decodes is the encoding of what it decodes to. */
  lemma Canonical(format: Format, data: seq<Byte>, maximum: nat, payload: seq<Byte>)
    requires ValidFormat(format) && ValidMaximum(maximum)
    requires DecodeBytes(format, data, maximum) == Success(payload)
    ensures |payload| <= maximum && data == Encode(format, payload)
  {
    hide Crc, Header, Encode, CrcBytes, CrcOf, Body, DecodeBytes, ToBytes, FromBytes;
    var n := |payload|;
    DecodedFields(format, data, maximum, payload);
    ToFrom(data[8..10]);
    ToFrom(data[10..18]);
    StoredChecksum(0, data[18 + n..22 + n]);
    HeaderBytes(format, n);
    FourParts(data, n);
    EncodeIs(format, payload);
  }

  lemma DecodedFields(format: Format, data: seq<Byte>, maximum: nat, payload: seq<Byte>)
    requires ValidFormat(format) && ValidMaximum(maximum)
    requires DecodeBytes(format, data, maximum) == Success(payload)
    ensures var n := |payload|;
            && n <= maximum && |data| == n + OVERHEAD
            && data[..8] == format.domainTag
            && FromBytes(data[8..10]) == format.version
            && FromBytes(data[10..18]) == n
            && data[18..18 + n] == payload
            && CrcOf(data[18 + n..22 + n]) == Crc(data[..18 + n])
  {
    hide Crc, CrcOf, FromBytes;
  }

  lemma FourParts(data: seq<Byte>, n: nat)
    requires |data| == n + OVERHEAD
    ensures data[..18 + n] == data[..8] + data[8..10] + data[10..18] + data[18..18 + n]
    ensures data == data[..18 + n] + data[18 + n..22 + n]
  {
  }

  lemma EncodeIs(format: Format, payload: seq<Byte>)
    requires ValidFormat(format) && |payload| <= WORD_MAX
    ensures Body(format, payload) == Header(format, |payload|) + payload
    ensures Encode(format, payload) == Body(format, payload) + CrcBytes(Crc(Body(format, payload)))
  {
  }

  lemma HeaderBytes(format: Format, size: nat)
    requires ValidFormat(format) && size <= WORD_MAX
    ensures Range(2) > format.version && Range(8) > size
    ensures Header(format, size) == format.domainTag + ToBytes(format.version, 2) + ToBytes(size, 8)
  {
    Ranges();
  }

  /** A byte string decodes to a payload exactly when it is that payload's encoding. */
  lemma DecodesExactlyEncodings(format: Format, data: seq<Byte>, maximum: nat, payload: seq<Byte>)
    requires ValidFormat(format) && ValidMaximum(maximum)
    ensures DecodeBytes(format, data, maximum) == Success(payload)
       <==> |payload| <= maximum && data == Encode(format, payload)
  {
    hide DecodeBytes, Encode;
    if DecodeBytes(format, data, maximum) == Success(payload) {
      Canonical(format, data, maximum, payload);
    }
    if |payload| <= maximum && data == Encode(format, payload) {
      RoundTrip(format, payload, maximum);
    }
  }

  /** No envelope is a proper prefix of another, so a file cannot be read as two payloads. */
  lemma EnvelopeInjective(format: Format, a: seq<Byte>, b: seq<Byte>)
    requires ValidFormat(format) && |a| + OVERHEAD <= WORD_MAX && |b| + OVERHEAD <= WORD_MAX
    requires Encode(format, a) <= Encode(format, b)
    ensures a == b
  {
    hide Encode, Crc, Body;
    EnvelopeFields(format, a);
    EnvelopeFields(format, b);
    FieldValues(format, |a|);
    FieldValues(format, |b|);
    assert Encode(format, a)[10..18] == Encode(format, b)[10..18];
    assert Encode(format, a)[18..18 + |a|] == Encode(format, b)[18..18 + |a|];
  }

  // ---- Damage is noticed -------------------------------------------------------------------------

  /** Any damage to the header alone makes decoding fail, whatever it says. */
  lemma HeaderDamage(format: Format, payload: seq<Byte>, maximum: nat, damaged: seq<Byte>)
    requires ValidFormat(format) && ValidMaximum(maximum) && |payload| <= maximum
    requires |damaged| == |Encode(format, payload)|
    requires damaged[..HEADER_LEN] != Encode(format, payload)[..HEADER_LEN]
    ensures DecodeBytes(format, damaged, maximum).Failure?
  {
    hide Encode, DecodeBytes, Body, Crc;
    var e := Encode(format, payload);
    EnvelopeFields(format, payload);
    assert e[..18] == e[..8] + e[8..10] + e[10..18];
    assert damaged[..18] == damaged[..8] + damaged[8..10] + damaged[10..18];
    if DecodeBytes(format, damaged, maximum).Success? {
      var other := DecodeBytes(format, damaged, maximum).value;
      Canonical(format, damaged, maximum, other);
      EnvelopeFields(format, other);
    }
  }

  /** With an intact header, the payload must match the checksum. */
  lemma BodyDamage(format: Format, payload: seq<Byte>, maximum: nat, damaged: seq<Byte>)
    requires ValidFormat(format) && ValidMaximum(maximum) && |payload| <= maximum
    requires |damaged| == |payload| + OVERHEAD
    requires DecodeBytes(format, damaged, maximum).Success?
    ensures damaged[18 + |payload|..22 + |payload|] == CrcBytes(Crc(damaged[..18 + |payload|]))
  {
    hide Encode, DecodeBytes, Body, Crc, CrcBytes;
    var other := DecodeBytes(format, damaged, maximum).value;
    Canonical(format, damaged, maximum, other);
    EnvelopeFields(format, other);
  }

  lemma CrcBytesInjective(a: bv32, b: bv32)
    requires CrcBytes(a) == CrcBytes(b)
    ensures a == b
  {
    hide CrcOf, CrcBytes;
    StoredChecksum(a, [0, 0, 0, 0]);
    StoredChecksum(b, [0, 0, 0, 0]);
  }

  /** Changing any single byte of a valid envelope makes decoding fail. */
  lemma SingleByteCorruption(format: Format, payload: seq<Byte>, maximum: nat, i: nat, b: Byte)
    requires ValidFormat(format) && ValidMaximum(maximum) && |payload| <= maximum
    requires i < |Encode(format, payload)| && Encode(format, payload)[i] != b
    ensures DecodeBytes(format, Encode(format, payload)[i := b], maximum).Failure?
  {
    hide Encode, DecodeBytes, Body, Crc, CrcBytes;
    var e := Encode(format, payload);
    var damaged := e[i := b];
    var n := 18 + |payload|;
    EnvelopeFields(format, payload);
    if i < 18 {
      assert damaged[..18][i] != e[..18][i];
      HeaderDamage(format, payload, maximum, damaged);
    } else if i < n {
      assert e[..n] == e[..i] + [e[i]] + e[i + 1..n];
      assert damaged[..n] == e[..i] + [b] + e[i + 1..n];
      ByteDetected(e[..i], e[i], b, e[i + 1..n]);
      assert damaged[n..n + 4] == e[n..n + 4];
      if DecodeBytes(format, damaged, maximum).Success? {
        BodyDamage(format, payload, maximum, damaged);
        CrcBytesInjective(Crc(e[..n]), Crc(damaged[..n]));
      }
    } else {
      assert damaged[..n] == e[..n];
      assert damaged[n..n + 4][i - n] != e[n..n + 4][i - n];
      if DecodeBytes(format, damaged, maximum).Success? {
        BodyDamage(format, payload, maximum, damaged);
      }
    }
  }

  /** So does replacing any four consecutive payload bytes by different ones. */
  lemma BurstCorruption(format: Format, payload: seq<Byte>, maximum: nat, i: nat, burst: seq<Byte>)
    requires ValidFormat(format) && ValidMaximum(maximum) && |payload| <= maximum
    requires i + 4 <= |payload| && |burst| == 4 && burst != payload[i..i + 4]
    ensures var e := Encode(format, payload);
            DecodeBytes(format, e[..18 + i] + burst + e[22 + i..], maximum).Failure?
  {
    hide Encode, DecodeBytes, Body, Crc, CrcBytes;
    var e := Encode(format, payload);
    var n := 18 + |payload|;
    EnvelopeFields(format, payload);
    var damaged := e[..18 + i] + burst + e[22 + i..];
    if DecodeBytes(format, damaged, maximum).Success? {
      BodyDamage(format, payload, maximum, damaged);
      assert e[18 + i..22 + i] == e[18..n][i..i + 4] == payload[i..i + 4];
      assert e[..n] == e[..18 + i] + e[18 + i..22 + i] + e[22 + i..n];
      assert damaged[..n] == e[..18 + i] + burst + e[22 + i..n];
      BurstDetected(e[..18 + i], e[18 + i..22 + i], burst, e[22 + i..n]);
      assert damaged[n..n + 4] == e[n..n + 4];
      CrcBytesInjective(Crc(e[..n]), Crc(damaged[..n]));
    }
  }

  /** Every proper prefix of an envelope decodes to a truncation. */
  lemma PrefixTruncated(format: Format, payload: seq<Byte>, maximum: nat, k: nat)
    requires ValidFormat(format) && ValidMaximum(maximum) && |payload| <= maximum
    requires k < |Encode(format, payload)|
    ensures DecodeBytes(format, Encode(format, payload)[..k], maximum).Failure?
    ensures DecodeBytes(format, Encode(format, payload)[..k], maximum).failure.TruncatedEnvelope?
  {
    hide Encode, Body, Crc, CrcBytes, CrcOf;
    var e := Encode(format, payload);
    EnvelopeFields(format, payload);
    ShortHeader(format, e, |payload|, maximum, k);
  }

  /** Any bytes that start with a header whose declared body they do not complete are truncated. */
  lemma ShortHeader(format: Format, e: seq<Byte>, size: nat, maximum: nat, k: nat)
    requires ValidFormat(format) && ValidMaximum(maximum) && size <= maximum
    requires |e| >= HEADER_LEN && e[..8] == format.domainTag
    requires Range(2) > format.version && e[8..10] == ToBytes(format.version, 2)
    requires Range(8) > size && e[10..18] == ToBytes(size, 8)
    requires k <= |e| && k < size + OVERHEAD
    ensures DecodeBytes(format, e[..k], maximum).Failure?
    ensures DecodeBytes(format, e[..k], maximum).failure.TruncatedEnvelope?
  {
    hide Crc, CrcOf;
    FieldValues(format, size);
    var d := e[..k];
    if k >= 8 {
      assert d[..8] == e[..8];
    }
    if k >= 10 {
      assert d[8..10] == e[8..10];
    }
    if k >= 18 {
      assert d[10..18] == e[10..18];
    }
  }
}

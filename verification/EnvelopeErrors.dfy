/** Which error each malformed file gets, in terms of the bytes that the encoder would have written. */
module EnvelopeErrors {
  import opened Collections
  import opened Crc32c
  import opened BigEndian
  import opened Envelope

  // ---- The last four bytes --------------------------------------------------------------------

  /** An envelope ends in its checksum as a big-endian number: of all that comes before it. */
  lemma EndsInChecksum(format: Format, payload: seq<Byte>)
    requires ValidFormat(format) && |payload| <= WORD_MAX
    ensures var e := Encode(format, payload); var n := |e| - 4;
            && n == HEADER_LEN + |payload|
            && FromBytes(e[n..]) == Number(Crc(e[..n]))
            && FromBytes(e[10..18]) == |payload|
            && FromBytes(e[8..10]) == 1
  {
    hide Crc, CrcBytes, Encode, Body, FromBytes, ToBytes, Number;
    EnvelopeFields(format, payload);
    FieldValues(format, |payload|);
    var e := Encode(format, payload);
    assert e[|e| - 4..] == e[18 + |payload|..22 + |payload|];
    StoredIsBigEndian(Crc(Body(format, payload)));
  }

  // ---- The exact error --------------------------------------------------------------------------

  /** The bytes start as an envelope of a payload of this size does. */
  predicate Declares(format: Format, data: seq<Byte>, size: nat)
    requires ValidFormat(format)
  {
    size <= WORD_MAX && Header(format, size) <= data
  }

  /** The two bytes of a format's version. */
  function VersionBytes(format: Format): seq<Byte>
    requires ValidFormat(format)
  {
    Ranges();
    ToBytes(format.version, 2)
  }

  /** What is wrong with these bytes, under this maximum. */
  ghost predicate Diagnosis(format: Format, data: seq<Byte>, maximum: nat, error: BlobError)
    requires ValidFormat(format)
  {
    match error
    case InvalidEnvelopeDomain(expected, found) =>
      |data| >= 8 && expected == format.domainTag && found == data[..8] && found != expected
    case UnsupportedEnvelopeVersion(version) =>
      |data| >= 10 && format.domainTag <= data && version == FromBytes(data[8..10]) && version != format.version
    case BlobTooLarge(size, limit) =>
      limit == maximum && size > maximum && Declares(format, data, size)
    case TruncatedEnvelope(section) =>
      (match section
       case Magic => |data| < 8
       case Version => format.domainTag <= data && |data| < 10
       case PayloadLength => format.domainTag + VersionBytes(format) <= data && |data| < 18
       case Payload => exists size: nat :: size <= maximum && Declares(format, data, size) && |data| < 18 + size
       case Checksum =>
         exists size: nat :: size <= maximum && Declares(format, data, size) && 18 + size <= |data| < 22 + size)
    case TrailingData =>
      exists size: nat :: size <= maximum && Declares(format, data, size) && 22 + size < |data|
    case ChecksumMismatch(expected, actual) =>
      exists size: nat :: size <= maximum && Declares(format, data, size) && 22 + size == |data|
                  && Number(expected) == FromBytes(data[18 + size..]) && actual == Crc(data[..18 + size])
                  && expected != actual
    case _ => false
  }

  /** The bytes of a header determine its fields, and the other way round. */
  lemma DeclaresFields(format: Format, data: seq<Byte>, size: nat)
    requires ValidFormat(format)
    ensures Declares(format, data, size)
       <==> && |data| >= 18 && data[..8] == format.domainTag && FromBytes(data[8..10]) == format.version
            && FromBytes(data[10..18]) == size
  {
    hide Declares, FromBytes;
    if Declares(format, data, size) {
      DeclaredFields(format, data, size);
    }
    if |data| >= 18 && data[..8] == format.domainTag && FromBytes(data[8..10]) == format.version
       && FromBytes(data[10..18]) == size {
      FieldsDeclare(format, data, size);
    }
  }

  lemma DeclaredFields(format: Format, data: seq<Byte>, size: nat)
    requires ValidFormat(format) && Declares(format, data, size)
    ensures |data| >= 18 && data[..8] == format.domainTag && FromBytes(data[8..10]) == format.version
    ensures FromBytes(data[10..18]) == size
  {
    hide FromBytes, ToBytes, Header;
    HeaderBytes(format, size);
    FieldValues(format, size);
    HeaderParts(format.domainTag, ToBytes(format.version, 2), ToBytes(size, 8));
    assert data[..18] == Header(format, size);
    assert data[8..10] == data[..18][8..10] && data[10..18] == data[..18][10..18] && data[..8] == data[..18][..8];
  }

  lemma FieldsDeclare(format: Format, data: seq<Byte>, size: nat)
    requires ValidFormat(format)
    requires |data| >= 18 && data[..8] == format.domainTag && FromBytes(data[8..10]) == format.version
    requires FromBytes(data[10..18]) == size
    ensures Declares(format, data, size)
  {
    hide FromBytes, ToBytes, Header, Range;
    Ranges();
    assert |data[8..10]| == 2 && |data[10..18]| == 8;
    ToFrom(data[8..10]);
    ToFrom(data[10..18]);
    HeaderBytes(format, size);
    assert data[..18] == data[..8] + data[8..10] + data[10..18];
  }

  lemma HeaderParts(tag: seq<Byte>, version: seq<Byte>, length: seq<Byte>)
    requires |tag| == 8 && |version| == 2 && |length| == 8
    ensures var h := tag + version + length; h[..8] == tag && h[8..10] == version && h[10..18] == length
  {
  }

  lemma DeclaresAtMostOne(format: Format, data: seq<Byte>, a: nat, b: nat)
    requires ValidFormat(format) && Declares(format, data, a) && Declares(format, data, b)
    ensures a == b
  {
    hide Declares, FromBytes;
    DeclaresFields(format, data, a);
    DeclaresFields(format, data, b);
  }

  lemma HeaderDiagnosed(format: Format, data: seq<Byte>, maximum: nat, error: BlobError)
    requires ValidFormat(format) && HeaderProblem(format, Source(data, None), maximum) == Some(error)
    ensures Diagnosis(format, data, maximum, error)
  {
    hide FromBytes, ToBytes, Header, Declares, Crc, Number;
    if |data| >= 18 {
      DeclaresFields(format, data, FromBytes(data[10..18]));
    } else if |data| >= 10 && data[..8] == format.domainTag && FromBytes(data[8..10]) == format.version {
      VersionDeclared(format, data);
    }
  }

  lemma VersionDeclared(format: Format, data: seq<Byte>)
    requires ValidFormat(format) && |data| >= 10 && data[..8] == format.domainTag
    requires FromBytes(data[8..10]) == format.version
    ensures format.domainTag + VersionBytes(format) <= data
  {
    hide FromBytes, ToBytes, Range;
    Ranges();
    ToFrom(data[8..10]);
    assert data[..10] == data[..8] + data[8..10];
  }

  lemma BodyDiagnosed(format: Format, data: seq<Byte>, maximum: nat, error: BlobError)
    requires ValidFormat(format) && HeaderProblem(format, Source(data, None), maximum) == None
    requires BodyProblem(Source(data, None), DeclaredIn(data)) == Some(error)
    ensures Diagnosis(format, data, maximum, error)
  {
    hide FromBytes, ToBytes, Header, Declares, Crc, CrcOf, Number;
    var size := DeclaredIn(data);
    DeclaresFields(format, data, size);
    if |data| == 22 + size {
      assert data[18 + size..] == data[18 + size..22 + size];
      ChecksumIsBigEndian(data[18 + size..]);
    }
  }

  /** Each error has its diagnosis. */
  lemma ErrorDiagnosed(format: Format, data: seq<Byte>, maximum: nat, error: BlobError)
    requires ValidFormat(format) && DecodeBytes(format, data, maximum) == Failure(error)
    ensures Diagnosis(format, data, maximum, error)
  {
    hide Diagnosis, HeaderProblem, BodyProblem;
    if HeaderProblem(format, Source(data, None), maximum).Some? {
      HeaderDiagnosed(format, data, maximum, error);
    } else {
      BodyDiagnosed(format, data, maximum, error);
    }
  }

  lemma ShortDiagnosed(format: Format, data: seq<Byte>, maximum: nat, error: BlobError)
    requires ValidFormat(format) && Diagnosis(format, data, maximum, error)
    requires error.InvalidEnvelopeDomain? || error.UnsupportedEnvelopeVersion?
          || (error.TruncatedEnvelope? && !error.section.Payload? && !error.section.Checksum?)
    ensures DecodeBytes(format, data, maximum) == Failure(error)
  {
    hide FromBytes, ToBytes, Crc, CrcOf, Number, BodyProblem, Declares;
    if |data| >= 8 && format.domainTag <= data {
      assert data[..8] == format.domainTag;
    }
    if error == TruncatedEnvelope(PayloadLength) {
      DeclaredVersion(format, data);
    }
  }

  lemma DeclaredVersion(format: Format, data: seq<Byte>)
    requires ValidFormat(format) && format.domainTag + VersionBytes(format) <= data
    ensures |data| >= 10 && data[..8] == format.domainTag && FromBytes(data[8..10]) == format.version
  {
    hide FromBytes, ToBytes, Range;
    Ranges();
    FromTo(format.version, 2);
    var start := format.domainTag + VersionBytes(format);
    assert data[..10] == start;
    assert start[8..10] == VersionBytes(format) && start[..8] == format.domainTag;
    assert data[8..10] == data[..10][8..10] && data[..8] == data[..10][..8];
  }

  /** The error is found only once the header is complete. */
  predicate BehindHeader(error: BlobError) {
    || error.BlobTooLarge? || error.TrailingData? || error.ChecksumMismatch?
    || (error.TruncatedEnvelope? && (error.section.Payload? || error.section.Checksum?))
  }

  lemma LongDiagnosed(format: Format, data: seq<Byte>, maximum: nat, error: BlobError, size: nat)
    requires ValidFormat(format) && Diagnosis(format, data, maximum, error) && Declares(format, data, size)
    requires BehindHeader(error)
    ensures DecodeBytes(format, data, maximum) == Failure(error)
  {
    hide FromBytes, ToBytes, Crc, CrcOf, Number, Declares;
    DeclaresFields(format, data, size);
    forall other: nat | Declares(format, data, other) ensures other == size {
      DeclaresAtMostOne(format, data, size, other);
    }
    if |data| == 22 + size {
      assert data[18 + size..] == data[18 + size..22 + size];
      ChecksumIsBigEndian(data[18 + size..]);
      if error.ChecksumMismatch? {
        SameNumber(error.expected, CrcOf(data[18 + size..]));
      }
    }
  }

  lemma SameNumber(a: bv32, b: bv32)
    requires Number(a) == Number(b)
    ensures a == b
  {
    hide Number, ToBytes, CrcBytes, CrcOf;
    StoredIsBigEndian(a);
    StoredIsBigEndian(b);
    CrcBytesInjective(a, b);
  }

  /** Every malformed file gets exactly the error that names its first defect, whatever comes after it. */
  lemma DiagnosisExact(format: Format, data: seq<Byte>, maximum: nat, error: BlobError)
    requires ValidFormat(format)
    ensures DecodeBytes(format, data, maximum) == Failure(error) <==> Diagnosis(format, data, maximum, error)
  {
    hide DecodeBytes, Declares, FromBytes, Number, Crc;
    if DecodeBytes(format, data, maximum) == Failure(error) {
      ErrorDiagnosed(format, data, maximum, error);
    }
    if Diagnosis(format, data, maximum, error) {
      if size: nat :| Declares(format, data, size) && BehindHeader(error) {
        LongDiagnosed(format, data, maximum, error, size);
      } else {
        ShortDiagnosed(format, data, maximum, error);
      }
    }
  }

  // ---- What damage is reported as ------------------------------------------------------------------

  /** The section in which an envelope of this payload size ends when it is cut to k bytes. */
  function SectionAt(k: nat, size: nat): Section {
    if k < 8 then Magic
    else if k < 10 then Version
    else if k < 18 then PayloadLength
    else if k < 18 + size then Payload
    else Checksum
  }

  lemma EncodeDeclares(format: Format, payload: seq<Byte>)
    requires ValidFormat(format) && |payload| <= WORD_MAX
    ensures var e := Encode(format, payload);
            && Declares(format, e, |payload|) && |e| == |payload| + OVERHEAD && e[18..18 + |payload|] == payload
            && format.domainTag + VersionBytes(format) <= e
  {
    hide Crc, CrcBytes, ToBytes;
    EnvelopeFields(format, payload);
    Ranges();
    EncodeIs(format, payload);
    var e := Encode(format, payload);
    assert e[..10] == e[..8] + e[8..10];
  }

  /** A cut envelope is reported as truncated in the section in which it ends. */
  lemma CutDiagnosed(format: Format, payload: seq<Byte>, maximum: nat, k: nat)
    requires ValidFormat(format) && ValidMaximum(maximum) && |payload| <= maximum
    requires k < |payload| + OVERHEAD
    ensures k <= |Encode(format, payload)|
    ensures DecodeBytes(format, Encode(format, payload)[..k], maximum)
         == Failure(TruncatedEnvelope(SectionAt(k, |payload|)))
  {
    hide Encode, DecodeBytes, VersionBytes, Header;
    var e, size := Encode(format, payload), |payload|;
    EncodeDeclares(format, payload);
    var d, error := e[..k], TruncatedEnvelope(SectionAt(k, size));
    if 8 <= k < 10 {
      assert d[..8] == e[..8] == (format.domainTag + VersionBytes(format))[..8] == format.domainTag;
    } else if 10 <= k < 18 {
      assert |VersionBytes(format)| == 2 by { VersionWidth(format); }
      assert d[..10] == e[..10] == format.domainTag + VersionBytes(format);
    } else if 18 <= k {
      assert d[..18] == e[..18] == Header(format, size);
      assert Declares(format, d, size);
    }
    DiagnosisExact(format, d, maximum, error);
  }

  lemma VersionWidth(format: Format)
    requires ValidFormat(format)
    ensures |VersionBytes(format)| == 2
  {
  }

  /** Whatever follows an envelope, and whatever its checksum, it is reported as trailing data. */
  lemma AppendedDiagnosed(format: Format, payload: seq<Byte>, maximum: nat, checksum: seq<Byte>, more: seq<Byte>)
    requires ValidFormat(format) && ValidMaximum(maximum) && |payload| <= maximum && |checksum| == 4 && more != []
    ensures DecodeBytes(format, Body(format, payload) + checksum + more, maximum) == Failure(TrailingData)
  {
    hide DecodeBytes, Header;
    var data := Body(format, payload) + checksum + more;
    assert data[..18] == Header(format, |payload|);
    assert Declares(format, data, |payload|);
    DiagnosisExact(format, data, maximum, TrailingData);
  }

  /** A payload and a stored checksum that do not match are reported with the stored and the computed one. */
  lemma MismatchDiagnosed(format: Format, payload: seq<Byte>, maximum: nat, checksum: seq<Byte>)
    requires ValidFormat(format) && ValidMaximum(maximum) && |payload| <= maximum && |checksum| == 4
    requires CrcOf(checksum) != Crc(Body(format, payload))
    ensures DecodeBytes(format, Body(format, payload) + checksum, maximum)
         == Failure(ChecksumMismatch(CrcOf(checksum), Crc(Body(format, payload))))
  {
    hide DecodeBytes, Header, Crc, CrcOf, Number, FromBytes;
    var body, size := Body(format, payload), |payload|;
    var data, error := body + checksum, ChecksumMismatch(CrcOf(checksum), Crc(body));
    assert data[..18] == Header(format, size);
    assert Declares(format, data, size);
    assert data[18 + size..] == checksum && data[..18 + size] == body;
    ChecksumIsBigEndian(checksum);
    assert Diagnosis(format, data, maximum, error);
    DiagnosisExact(format, data, maximum, error);
  }

  /** A length above the maximum is reported with the maximum, whatever follows the header. */
  lemma OversizedDiagnosed(format: Format, size: nat, maximum: nat, more: seq<Byte>)
    requires ValidFormat(format) && maximum < size <= WORD_MAX
    ensures DecodeBytes(format, Header(format, size) + more, maximum) == Failure(BlobTooLarge(size, maximum))
  {
    hide DecodeBytes, Header;
    assert Declares(format, Header(format, size) + more, size);
    DiagnosisExact(format, Header(format, size) + more, maximum, BlobTooLarge(size, maximum));
  }

  /** The error for a header that is in order but whose length is not that of the file. */
  function LengthError(declared: nat, size: nat, maximum: nat): BlobError {
    if declared > maximum then BlobTooLarge(declared, maximum)
    else if declared > size + 4 then TruncatedEnvelope(Payload)
    else if declared > size then TruncatedEnvelope(Checksum)
    else TrailingData
  }

  /** What one wrong byte is reported as: a wrong tag, a wrong version, a length that is too large or that the file does
      not fit, or a checksum that does not match. */
  predicate ByteReported(format: Format, payload: seq<Byte>, damaged: seq<Byte>, maximum: nat, i: nat,
                         error: BlobError)
    requires ValidFormat(format) && |payload| <= WORD_MAX && |damaged| == |payload| + OVERHEAD
  {
    var size, declared := |payload|, FromBytes(damaged[10..18]);
    if i < 8 then error == InvalidEnvelopeDomain(format.domainTag, damaged[..8])
    else if i < 10 then error == UnsupportedEnvelopeVersion(FromBytes(damaged[8..10]))
    else if i < 18 then
      declared != size && error == LengthError(declared, size, maximum)
    else if i < 18 + size then
      error == ChecksumMismatch(Crc(Body(format, payload)), Crc(damaged[..18 + size]))
    else error == ChecksumMismatch(CrcOf(damaged[18 + size..]), Crc(Body(format, payload)))
  }

  /** Changing any single byte of a valid envelope is noticed, and reported as damage of the part it is in. */
  lemma ByteDiagnosed(format: Format, payload: seq<Byte>, maximum: nat, i: nat, b: Byte)
    requires ValidFormat(format) && ValidMaximum(maximum) && |payload| <= maximum
    requires i < |payload| + OVERHEAD == |Encode(format, payload)| && Encode(format, payload)[i] != b
    ensures var damaged, outcome := Encode(format, payload)[i := b],
                                    DecodeBytes(format, Encode(format, payload)[i := b], maximum);
            outcome.Failure? && ByteReported(format, payload, damaged, maximum, i, outcome.failure)
  {
    hide Encode, DecodeBytes, Body, Crc, CrcOf, CrcBytes, FromBytes, ToBytes, Header, Declares;
    EnvelopeFields(format, payload);
    if i < 8 {
      TagByte(format, payload, maximum, i, b);
    } else if i < 10 {
      VersionByte(format, payload, maximum, i, b);
    } else if i < 18 {
      LengthByte(format, payload, maximum, i, b);
    } else {
      BodyByte(format, payload, maximum, i, b);
    }
  }

  lemma TagByte(format: Format, payload: seq<Byte>, maximum: nat, i: nat, b: Byte)
    requires ValidFormat(format) && |payload| <= WORD_MAX && i < 8
    requires |Encode(format, payload)| == |payload| + OVERHEAD && Encode(format, payload)[i] != b
    ensures var d := Encode(format, payload)[i := b];
            DecodeBytes(format, d, maximum) == Failure(InvalidEnvelopeDomain(format.domainTag, d[..8]))
  {
    hide Encode, DecodeBytes, Crc, CrcOf, CrcBytes, FromBytes, ToBytes, Header, Body;
    var e := Encode(format, payload);
    var d := e[i := b];
    EnvelopeFields(format, payload);
    assert d[..8][i] == b && e[..8][i] == e[i];
    DiagnosisExact(format, d, maximum, InvalidEnvelopeDomain(format.domainTag, d[..8]));
  }

  lemma VersionByte(format: Format, payload: seq<Byte>, maximum: nat, i: nat, b: Byte)
    requires ValidFormat(format) && |payload| <= WORD_MAX && 8 <= i < 10
    requires |Encode(format, payload)| == |payload| + OVERHEAD && Encode(format, payload)[i] != b
    ensures var d := Encode(format, payload)[i := b];
            DecodeBytes(format, d, maximum) == Failure(UnsupportedEnvelopeVersion(FromBytes(d[8..10])))
  {
    hide Encode, DecodeBytes, Crc, CrcOf, CrcBytes, FromBytes, ToBytes, Header, Body;
    var e := Encode(format, payload);
    var d := e[i := b];
    EnvelopeFields(format, payload);
    assert d[..8] == e[..8] == format.domainTag;
    assert d[8..10][i - 8] == b && e[8..10][i - 8] == e[i];
    FieldValues(format, |payload|);
    if FromBytes(d[8..10]) == format.version {
      FromBytesInjective(d[8..10], e[8..10]);
    }
    DiagnosisExact(format, d, maximum, UnsupportedEnvelopeVersion(FromBytes(d[8..10])));
  }

  lemma FromBytesInjective(a: seq<Byte>, b: seq<Byte>)
    requires |a| == |b| && FromBytes(a) == FromBytes(b)
    ensures a == b
  {
    hide FromBytes, ToBytes;
    ToFrom(a);
    ToFrom(b);
  }

  lemma WrongLength(format: Format, d: seq<Byte>, maximum: nat, size: nat, declared: nat)
    requires ValidFormat(format) && Declares(format, d, declared) && |d| == size + OVERHEAD && declared != size
    ensures DecodeBytes(format, d, maximum) == Failure(LengthError(declared, size, maximum))
  {
    hide DecodeBytes, Declares;
    DiagnosisExact(format, d, maximum, LengthError(declared, size, maximum));
  }

  lemma LengthByte(format: Format, payload: seq<Byte>, maximum: nat, i: nat, b: Byte)
    requires ValidFormat(format) && |payload| <= WORD_MAX && 10 <= i < 18
    requires |Encode(format, payload)| == |payload| + OVERHEAD && Encode(format, payload)[i] != b
    ensures var d := Encode(format, payload)[i := b];
            && FromBytes(d[10..18]) != |payload|
            && DecodeBytes(format, d, maximum) == Failure(LengthError(FromBytes(d[10..18]), |payload|, maximum))
  {
    hide Encode, DecodeBytes, Crc, CrcOf, CrcBytes, FromBytes, ToBytes, Header, Body, Declares;
    var e := Encode(format, payload);
    var d := e[i := b];
    EnvelopeFields(format, payload);
    assert d[..8] == e[..8] && d[8..10] == e[8..10];
    assert d[10..18][i - 10] == b && e[10..18][i - 10] == e[i];
    FieldValues(format, |payload|);
    if FromBytes(d[10..18]) == |payload| {
      FromBytesInjective(d[10..18], e[10..18]);
    }
    FieldsDeclare(format, d, FromBytes(d[10..18]));
    WrongLength(format, d, maximum, |payload|, FromBytes(d[10..18]));
  }

  lemma BodyByte(format: Format, payload: seq<Byte>, maximum: nat, i: nat, b: Byte)
    requires ValidFormat(format) && ValidMaximum(maximum) && |payload| <= maximum
    requires 18 <= i < |payload| + OVERHEAD == |Encode(format, payload)| && Encode(format, payload)[i] != b
    ensures var d, outcome := Encode(format, payload)[i := b],
                              DecodeBytes(format, Encode(format, payload)[i := b], maximum);
            outcome.Failure? && ByteReported(format, payload, d, maximum, i, outcome.failure)
  {
    hide Encode, DecodeBytes, Crc, CrcOf, CrcBytes, FromBytes, ToBytes, Header, Body;
    var e, size := Encode(format, payload), |payload|;
    var d := e[i := b];
    EnvelopeFields(format, payload);
    EncodeIs(format, payload);
    var stored := d[18 + size..];
    var error := ChecksumMismatch(CrcOf(stored), Crc(d[..18 + size]));
    SameHeader(format, payload, d);
    ChecksumIsBigEndian(stored);
    SingleByteCorruption(format, payload, maximum, i, b);
    StoredChecksum(Crc(Body(format, payload)), stored);
    if i < 18 + size {
      assert stored == e[18 + size..22 + size];
    } else {
      assert d[..18 + size] == e[..18 + size];
    }
    if CrcOf(stored) == Crc(d[..18 + size]) {
      MatchingDecodes(format, d, maximum, size);
    }
    assert Diagnosis(format, d, maximum, error);
    DiagnosisExact(format, d, maximum, error);
  }

  lemma SameHeader(format: Format, payload: seq<Byte>, d: seq<Byte>)
    requires ValidFormat(format) && |payload| <= WORD_MAX
    requires |d| >= 18 && |Encode(format, payload)| >= 18 && d[..18] == Encode(format, payload)[..18]
    ensures Declares(format, d, |payload|)
  {
    hide Encode, Header, Crc, CrcBytes;
    EncodeDeclares(format, payload);
  }

  lemma MatchingDecodes(format: Format, d: seq<Byte>, maximum: nat, size: nat)
    requires ValidFormat(format) && size <= maximum && Declares(format, d, size) && |d| == size + OVERHEAD
    requires CrcOf(d[18 + size..]) == Crc(d[..18 + size])
    ensures DecodeBytes(format, d, maximum).Success?
  {
    hide FromBytes, Crc, CrcOf, Declares;
    DeclaresFields(format, d, size);
    assert d[18 + size..] == d[18 + size..22 + size];
  }

  // ---- Read faults -----------------------------------------------------------------------------------

  /** A fault is reported as what it is exactly if what was read before it has no earlier defect: it hides a truncation,
      and the checksum, which is compared last. */
  predicate HiddenByFault(outcome: Outcome<seq<Byte>>) {
    outcome.Success? || outcome.failure.TruncatedEnvelope? || outcome.failure.ChecksumMismatch?
  }

  lemma FaultDiagnosed(format: Format, data: seq<Byte>, fault: nat, maximum: nat)
    requires ValidFormat(format) && fault <= |data|
    ensures var before := DecodeBytes(format, data[..fault], maximum);
            DecodeSource(format, Source(data, Some(fault)), maximum)
            == if HiddenByFault(before) then Failure(Io) else before
  {
    hide FromBytes, Crc, CrcOf;
    var d := data[..fault];
    if fault >= 8 {
      assert d[..8] == data[..8];
    }
    if fault >= 10 {
      assert d[8..10] == data[8..10];
    }
    if fault >= 18 {
      assert d[10..18] == data[10..18];
    }
  }
}

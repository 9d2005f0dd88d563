/** The loops that read and write envelopes piece by piece, proved against the whole-file definition. */
module StreamFormat {
  import opened Collections
  import opened Crc32c
  import opened BigEndian
  import opened Envelope

  // ---- Readers --------------------------------------------------------------------------------

  /** Bytes of data from pos on now take the place of was[from..at]. */
  predicate Filled(was: seq<Byte>, now: seq<Byte>, data: seq<Byte>, from: nat, at: nat, pos: nat) {
    from <= at <= |was| && pos + (at - from) <= |data|
    && now == was[..from] + data[pos..pos + (at - from)] + was[at..]
  }

  datatype ReadResult = Count(count: nat) | ReadError

  /** A reader that returns as many bytes as it likes, up to its end or its fault. */
  class Reader {
    const source: Source
    var pos: nat

    predicate Valid()
      reads this
    {
      pos <= Available(source)
    }

    constructor (source: Source, pos: nat)
      requires pos <= Available(source)
      ensures Valid() && this.source == source && this.pos == pos
    {
      this.source, this.pos := source, pos;
    }

    method Read(buffer: array<Byte>, from: nat, to: nat) returns (r: ReadResult)
      requires Valid() && from <= to <= buffer.Length
      modifies this`pos, buffer
      ensures Valid()
      ensures r.ReadError? <==> from < to && old(pos) == Available(source) && Faulty(source)
      ensures r.Count? ==> r.count <= to - from && pos == old(pos) + r.count
      ensures r.Count? ==> (r.count == 0 <==> from == to || old(pos) == Available(source))
      ensures r.Count? ==> Filled(old(buffer[..]), buffer[..], source.data, from, from + r.count, old(pos))
      ensures r.ReadError? ==> pos == old(pos) && buffer[..] == old(buffer[..])
    {
      if from == to {
        return Count(0);
      }
      if pos == Available(source) {
        return if Faulty(source) then ReadError else Count(0);
      }
      var count: nat :| 1 <= count <= to - from && count <= Available(source) - pos;
      ghost var was := buffer[..];
      forall i | from <= i < from + count {
        buffer[i] := source.data[pos + (i - from)];
      }
      assert buffer[..] == was[..from] + source.data[pos..pos + count] + was[from + count..];
      pos := pos + count;
      return Count(count);
    }

    /** Fills buffer[from..to], or says why it cannot. */
    method ReadSection(buffer: array<Byte>, from: nat, to: nat, section: Section) returns (problem: Option<BlobError>)
      requires Valid() && from <= to <= buffer.Length
      modifies this`pos, buffer
      ensures Valid()
      ensures problem == Shortage(source, old(pos), to - from, section)
      ensures problem.None? ==> pos == old(pos) + (to - from) && buffer[from..to] == source.data[old(pos)..pos]
      ensures problem.None? ==> Filled(old(buffer[..]), buffer[..], source.data, from, to, old(pos))
    {
      hide Filled;
      ghost var was := buffer[..];
      var at := from;
      FilledFirst(was, source.data, from, pos);
      while at < to
        invariant from <= at <= to
        invariant Valid()
        invariant pos == old(pos) + (at - from)
        invariant Filled(was, buffer[..], source.data, from, at, old(pos))
      {
        ghost var before, start := buffer[..], pos;
        var r := Read(buffer, at, to);
        if r.ReadError? {
          return Some(Io);
        }
        if r.count == 0 {
          return Some(TruncatedEnvelope(section));
        }
        ghost var next := at + r.count;
        FilledNext(was, before, buffer[..], source.data, from, at, next, old(pos));
        at := at + r.count;
      }
      FilledPart(was, buffer[..], source.data, from, to, old(pos));
      assert buffer[..][from..to] == buffer[from..to];
      return None;
    }

    /** The one-byte probe after the checksum. */
    method ExpectEnd() returns (problem: Option<BlobError>)
      requires Valid()
      modifies this`pos
      ensures Valid() && problem == Trailing(source, old(pos))
    {
      var trailing := new Byte[1];
      var r := Read(trailing, 0, 1);
      match r
      case ReadError => return Some(Io);
      case Count(count) => return if count == 0 then None else Some(TrailingData);
    }
  }

  lemma FilledFirst(was: seq<Byte>, data: seq<Byte>, from: nat, pos: nat)
    requires from <= |was| && pos <= |data|
    ensures Filled(was, was, data, from, from, pos)
  {
  }

  lemma FilledNext(was: seq<Byte>, before: seq<Byte>, now: seq<Byte>, data: seq<Byte>, from: nat, at: nat, next: nat,
                   pos: nat)
    requires Filled(was, before, data, from, at, pos)
    requires Filled(before, now, data, at, next, pos + (at - from))
    ensures Filled(was, now, data, from, next, pos)
  {
    Adjacent(data, pos, pos + (at - from), pos + (next - from));
    assert before[..at] == was[..from] + data[pos..pos + (at - from)];
    assert before[next..] == was[next..];
  }

  lemma FilledPart(was: seq<Byte>, now: seq<Byte>, data: seq<Byte>, from: nat, at: nat, pos: nat)
    requires Filled(was, now, data, from, at, pos)
    ensures |now| == |was| && now[from..at] == data[pos..pos + (at - from)]
  {
  }

  lemma Adjacent(s: seq<Byte>, i: nat, j: nat, k: nat)
    requires i <= j <= k <= |s|
    ensures s[i..j] + s[j..k] == s[i..k]
  {
  }

  // ---- The whole-file decoder --------------------------------------------------------------

  lemma CrcExtends(data: seq<Byte>, i: nat, j: nat)
    requires i <= j <= |data|
    ensures Crc(data[..j]) == CrcAppend(Crc(data[..i]), data[i..j])
  {
    hide Crc, CrcAppend;
    CrcAppends(data[..i], data[i..j]);
    assert data[..i] + data[i..j] == data[..j];
  }

  lemma ChecksumOfParts(data: seq<Byte>, n: nat)
    requires |data| >= HEADER_LEN + n
    ensures CrcAppend(CrcAppend(CrcAppend(Crc(data[..8]), data[8..10]), data[10..18]), data[18..18 + n])
         == Crc(data[..18 + n])
  {
    hide Crc, CrcAppend;
    CrcExtends(data, 8, 10);
    CrcExtends(data, 10, 18);
    CrcExtends(data, 18, 18 + n);
  }

  method DecodeReader(format: Format, reader: Reader, maximum: nat, usizeLimit: nat, wordMax: nat)
      returns (r: Call<Outcome<seq<Byte>>>)
    requires ValidFormat(format) && reader.Valid() && reader.pos == 0
    modifies reader
    ensures r == Decode(format, reader.source, maximum, usizeLimit, wordMax)
  {
    hide HeaderProblem, BodyProblem;
    var header := DecodeHeader(format, reader, maximum);
    if header.Failure? {
      return Ended(Failure(header.failure));
    }
    var declared := header.value;
    if declared > usizeLimit || declared + OVERHEAD > wordMax {
      return Ended(Failure(InvalidPayloadLength(declared)));
    }
    if declared > BufferMax(wordMax) {
      return Unwound;
    }
    var body := DecodeBody(format, reader, declared);
    return Ended(body);
  }

  method DecodeHeader(format: Format, reader: Reader, maximum: nat) returns (r: Outcome<nat>)
    requires ValidFormat(format) && reader.Valid() && reader.pos == 0
    modifies reader
    ensures reader.Valid()
    ensures var problem := HeaderProblem(format, reader.source, maximum); var data := reader.source.data;
            && (problem.Some? ==> r == Failure(problem.value))
            && (problem.None? ==> reader.pos == HEADER_LEN && r == Success(DeclaredIn(data)))
            && (problem.None? ==> data[..8] == format.domainTag && FromBytes(data[8..10]) == format.version)
  {
    hide Filled, FromBytes;
    ghost var data := reader.source.data;
    var magic := new Byte[8];
    var problem := reader.ReadSection(magic, 0, 8, Magic);
    if problem.Some? {
      return Failure(problem.value);
    }
    assert magic[..] == magic[0..8] == data[..8];
    if magic[..] != format.domainTag {
      return Failure(InvalidEnvelopeDomain(format.domainTag, magic[..]));
    }
    var version := new Byte[2];
    problem := reader.ReadSection(version, 0, 2, Version);
    if problem.Some? {
      return Failure(problem.value);
    }
    assert version[..] == version[0..2] == data[8..10];
    if FromBytes(version[..]) != format.version {
      return Failure(UnsupportedEnvelopeVersion(FromBytes(version[..])));
    }
    var length := new Byte[8];
    problem := reader.ReadSection(length, 0, 8, PayloadLength);
    if problem.Some? {
      return Failure(problem.value);
    }
    assert length[..] == length[0..8] == data[10..18];
    var declared := FromBytes(length[..]);
    return if declared > maximum then Failure(BlobTooLarge(declared, maximum)) else Success(declared);
  }

  method DecodeBody(format: Format, reader: Reader, declared: nat) returns (r: Outcome<seq<Byte>>)
    requires ValidFormat(format) && reader.Valid() && reader.pos == HEADER_LEN
    requires declared == DeclaredIn(reader.source.data)
    requires reader.source.data[..8] == format.domainTag && FromBytes(reader.source.data[8..10]) == format.version
    modifies reader
    ensures var problem := BodyProblem(reader.source, declared);
            if problem.Some? then r == Failure(problem.value)
            else r == Success(reader.source.data[HEADER_LEN..HEADER_LEN + declared])
  {
    hide Crc, CrcAppend, CrcOf, Filled, FromBytes;
    ghost var data := reader.source.data;
    var payload := new Byte[declared];
    var problem := reader.ReadSection(payload, 0, declared, Payload);
    if problem.Some? {
      return Failure(problem.value);
    }
    assert payload[..] == payload[0..declared] == data[18..18 + declared];
    var tail := ReadTail(reader);
    if tail.Failure? {
      return Failure(tail.failure);
    }
    Ranges();
    ToFrom(data[8..10]);
    ToFrom(data[10..18]);
    var actual := Crc(format.domainTag);
    actual := CrcAppend(actual, ToBytes(format.version, 2));
    actual := CrcAppend(actual, ToBytes(declared, 8));
    actual := CrcAppend(actual, payload[..]);
    ChecksumOfParts(data, declared);
    var expected := tail.value;
    return if expected != actual then Failure(ChecksumMismatch(expected, actual)) else Success(payload[..]);
  }

  /** The stored checksum, if it is there and nothing follows it. */
  method ReadTail(reader: Reader) returns (r: Outcome<bv32>)
    requires reader.Valid()
    modifies reader
    ensures reader.Valid()
    ensures var source, end := reader.source, old(reader.pos);
            && (Shortage(source, end, 4, Checksum).Some? ==> r == Failure(Shortage(source, end, 4, Checksum).value))
            && (Shortage(source, end, 4, Checksum).None? ==>
              if Trailing(source, end + 4).Some? then r == Failure(Trailing(source, end + 4).value)
              else end + 4 <= |source.data| && r == Success(CrcOf(source.data[end..end + 4])))
  {
    hide CrcOf;
    var checksum := new Byte[4];
    var problem := reader.ReadSection(checksum, 0, 4, Checksum);
    if problem.Some? {
      return Failure(problem.value);
    }
    problem := reader.ExpectEnd();
    assert checksum[..] == checksum[0..4];
    return if problem.Some? then Failure(problem.value) else Success(CrcOf(checksum[..]));
  }

  // ---- The chunked validator -----------------------------------------------------------------

  function Validate(format: Format, source: Source, maximum: nat): Outcome<nat> {
    var problem := Problem(format, source, maximum);
    if problem.Some? then Failure(problem.value) else Success(DeclaredIn(source.data))
  }

  method ValidateEnvelopeReader(format: Format, reader: Reader, maximum: nat) returns (r: Outcome<nat>)
    requires ValidFormat(format) && reader.Valid() && reader.pos == 0
    modifies reader
    ensures r == Validate(format, reader.source, maximum)
  {
    hide Crc, CrcAppend, CrcOf;
    ghost var source, data := reader.source, reader.source.data;
    var header := new Byte[HEADER_LEN];
    var problem := reader.ReadSection(header, 0, 8, Magic);
    if problem.Some? {
      return Failure(problem.value);
    }
    assert header[..8] == data[..8];
    if header[..8] != format.domainTag {
      return Failure(InvalidEnvelopeDomain(format.domainTag, header[..8]));
    }
    problem := reader.ReadSection(header, 8, 10, Version);
    if problem.Some? {
      return Failure(problem.value);
    }
    assert header[8..10] == data[8..10] && header[..10] == data[..10];
    if FromBytes(header[8..10]) != format.version {
      return Failure(UnsupportedEnvelopeVersion(FromBytes(header[8..10])));
    }
    problem := reader.ReadSection(header, 10, 18, PayloadLength);
    if problem.Some? {
      return Failure(problem.value);
    }
    assert header[10..18] == data[10..18] && header[..] == data[..18];
    var declared := FromBytes(header[10..]);
    assert header[10..] == header[10..18];
    if declared > maximum {
      return Failure(BlobTooLarge(declared, maximum));
    }
    assert HeaderProblem(format, source, maximum).None? && declared == DeclaredIn(data);
    r := ValidateBody(reader, header[..], declared);
  }

  /** The part of the validator after the header. */
  method ValidateBody(reader: Reader, header: seq<Byte>, declared: nat) returns (r: Outcome<nat>)
    requires reader.Valid() && reader.pos == HEADER_LEN && header == reader.source.data[..HEADER_LEN]
    modifies reader
    ensures r == if BodyProblem(reader.source, declared).Some? then Failure(BodyProblem(reader.source, declared).value)
                 else Success(declared)
  {
    hide Crc, CrcAppend, CrcOf;
    ghost var source, data := reader.source, reader.source.data;
    var end := HEADER_LEN + declared;
    var actual := Crc(header);
    var remaining := declared;
    var buffer := new Byte[STREAM_CHUNK_SIZE];
    while remaining != 0
      invariant 0 <= remaining <= declared && reader.Valid() && reader.pos == end - remaining
      invariant buffer.Length == STREAM_CHUNK_SIZE
      invariant actual == Crc(data[..reader.pos])
    {
      ghost var start := reader.pos;
      var requested := if remaining < STREAM_CHUNK_SIZE then remaining else STREAM_CHUNK_SIZE;
      var problem := reader.ReadSection(buffer, 0, requested, Payload);
      if problem.Some? {
        assert Shortage(source, HEADER_LEN, declared, Payload) == problem;
        return Failure(problem.value);
      }
      assert buffer[..requested] == data[start..reader.pos];
      CrcExtends(data, start, reader.pos);
      actual := CrcAppend(actual, buffer[..requested]);
      remaining := remaining - requested;
    }
    assert Shortage(source, HEADER_LEN, declared, Payload).None?;
    var tail := ReadTail(reader);
    if tail.Failure? {
      return Failure(tail.failure);
    }
    var expected := tail.value;
    if expected != actual {
      return Failure(ChecksumMismatch(expected, actual));
    }
    return Success(declared);
  }

  predicate Agree(format: Format, source: Source, maximum: nat, usizeLimit: nat, wordMax: nat) {
    match Decode(format, source, maximum, usizeLimit, wordMax)
    case Ended(Success(payload)) => Validate(format, source, maximum) == Success(|payload|)
    case Ended(Failure(error)) => Validate(format, source, maximum) == Failure(error)
    case Unwound => false
  }

  /** The largest payload is one the decoder can hold: it is within the limit, its envelope can be counted, and a buffer
      for it can be asked for. */
  predicate Room(maximum: nat, usizeLimit: nat, wordMax: nat) {
    maximum <= usizeLimit && maximum + OVERHEAD <= wordMax && maximum <= BufferMax(wordMax)
  }

  /** The validator says of every input what the format says of it, whatever the machine. */
  lemma ValidatorFollowsFormat(format: Format, source: Source, maximum: nat)
    ensures match DecodeSource(format, source, maximum)
            case Success(payload) => Validate(format, source, maximum) == Success(|payload|)
            case Failure(error) => Validate(format, source, maximum) == Failure(error)
  {
    hide Crc, CrcOf, HeaderProblem, BodyProblem;
  }

  /** With room, so does the decoder: the two agree on every input, on sizes and on every error. */
  lemma ValidatorAgrees(format: Format, source: Source, maximum: nat, usizeLimit: nat, wordMax: nat)
    requires Room(maximum, usizeLimit, wordMax)
    ensures Agree(format, source, maximum, usizeLimit, wordMax)
  {
    hide Crc, CrcOf, HeaderProblem, BodyProblem;
    if HeaderProblem(format, source, maximum).None? {
      DeclaredBounded(format, source, maximum);
    }
  }

  lemma DeclaredBounded(format: Format, source: Source, maximum: nat)
    requires HeaderProblem(format, source, maximum).None?
    ensures |source.data| >= HEADER_LEN && DeclaredIn(source.data) <= maximum
  {
  }

  /** A file that is nothing but a header ends too early for the validator. The decoder finds that too only if it has
      room for what the header declares; otherwise it refuses the length or panics. */
  lemma BareHeader(format: Format, size: nat, usizeLimit: nat, wordMax: nat)
    requires ValidFormat(format) && size <= WORD_MAX
    ensures var source := Source(Header(format, size), None);
            var truncated := TruncatedEnvelope(if size == 0 then Checksum else Payload);
            && Validate(format, source, size) == Failure(truncated)
            && Decode(format, source, size, usizeLimit, wordMax)
               == if Room(size, usizeLimit, wordMax) then Ended(Failure(truncated))
                  else if size > usizeLimit || size + OVERHEAD > wordMax then Ended(Failure(InvalidPayloadLength(size)))
                  else Unwound
  {
    hide Crc, CrcOf;
    FieldValues(format, size);
    HeaderBytes(format, size);
    var h := Header(format, size);
    assert h[..8] == format.domainTag && h[8..10] == ToBytes(format.version, 2) && h[10..18] == ToBytes(size, 8);
  }

  /** For every word size, validator and decoder agree on all inputs exactly when there is room for the maximum. */
  lemma AgreementNeedsRoom(format: Format, maximum: nat, usizeLimit: nat, wordMax: nat)
    requires ValidFormat(format) && maximum <= WORD_MAX
    ensures (forall source :: Agree(format, source, maximum, usizeLimit, wordMax))
       <==> Room(maximum, usizeLimit, wordMax)
  {
    hide Decode, Validate;
    if Room(maximum, usizeLimit, wordMax) {
      forall source ensures Agree(format, source, maximum, usizeLimit, wordMax) {
        ValidatorAgrees(format, source, maximum, usizeLimit, wordMax);
      }
    } else {
      BareHeader(format, maximum, usizeLimit, wordMax);
      assert !Agree(format, Source(Header(format, maximum), None), maximum, usizeLimit, wordMax);
    }
  }

  /** There is room for the maxima below half the word range, and no others: with 64-bit words for those below 2^63 and
      with 32-bit words for those below 2^31, although larger ones are accepted. */
  lemma RoomByWordSize(maximum: nat)
    ensures Room(maximum, WORD_MAX, WORD_MAX) <==> maximum < 0x8000_0000_0000_0000
    ensures Room(maximum, 0xFFFF_FFFF, 0xFFFF_FFFF) <==> maximum < 0x8000_0000
  {
  }

  /** Files on which the two passes disagree under maxima that are accepted: bare headers that declare the smallest
      payload without room, for either word size, where the decoder panics, and the largest 32-bit word, which it
      refuses. */
  lemma Disagreements(format: Format)
    requires ValidFormat(format)
    ensures var size := 0x8000_0000; var word := 0xFFFF_FFFF; var source := Source(Header(format, size), None);
            && ValidMaximum(size) && Validate(format, source, size) == Failure(TruncatedEnvelope(Payload))
            && Decode(format, source, size, word, word) == Unwound
    ensures var size := 0x8000_0000_0000_0000; var source := Source(Header(format, size), None);
            && ValidMaximum(size) && Validate(format, source, size) == Failure(TruncatedEnvelope(Payload))
            && Decode(format, source, size, WORD_MAX, WORD_MAX) == Unwound
    ensures var word := 0xFFFF_FFFF; var source := Source(Header(format, word), None);
            && ValidMaximum(word) && Validate(format, source, word) == Failure(TruncatedEnvelope(Payload))
            && Decode(format, source, word, word, word) == Ended(Failure(InvalidPayloadLength(word)))
  {
    hide Decode, Validate, Header;
    BareHeader(format, 0x8000_0000, 0xFFFF_FFFF, 0xFFFF_FFFF);
    BareHeader(format, 0x8000_0000_0000_0000, WORD_MAX, WORD_MAX);
    BareHeader(format, 0xFFFF_FFFF, 0xFFFF_FFFF, 0xFFFF_FFFF);
  }

  /** On any machine the decoder returns a payload exactly for its encoding, if there is room for this payload. */
  lemma MachineDecodesExactly(format: Format, data: seq<Byte>, maximum: nat, payload: seq<Byte>, usizeLimit: nat,
                              wordMax: nat)
    requires ValidFormat(format) && ValidMaximum(maximum)
    ensures Decode(format, Source(data, None), maximum, usizeLimit, wordMax) == Ended(Success(payload))
       <==> |payload| <= maximum && Room(|payload|, usizeLimit, wordMax) && data == Encode(format, payload)
  {
    hide Crc, CrcOf, Encode, HeaderProblem, BodyProblem;
    DecodesExactlyEncodings(format, data, maximum, payload);
    var source := Source(data, None);
    if DecodeBytes(format, data, maximum) == Success(payload) {
      assert HeaderProblem(format, source, maximum).None? && DeclaredIn(data) == |payload|;
    }
  }

  // ---- The second pass -------------------------------------------------------------------------

  /** A payload cut into full chunks, with what is left over last. */
  function Chunked(payload: seq<Byte>): (chunks: seq<seq<Byte>>) {
    if payload == [] then []
    else if |payload| <= STREAM_CHUNK_SIZE then [payload]
    else [payload[..STREAM_CHUNK_SIZE]] + Chunked(payload[STREAM_CHUNK_SIZE..])
  }

  function Flatten(chunks: seq<seq<Byte>>): seq<Byte> {
    if chunks == [] then [] else chunks[0] + Flatten(chunks[1..])
  }

  lemma {:induction false} FlattenAppend(a: seq<seq<Byte>>, b: seq<seq<Byte>>)
    ensures Flatten(a + b) == Flatten(a) + Flatten(b)
  {
    if a == [] {
      assert a + b == b;
    } else {
      assert (a + b)[1..] == a[1..] + b;
      FlattenAppend(a[1..], b);
    }
  }

  /** The chunks make up the payload; each but the last is full, with 64 KiB, and the last is not empty. */
  lemma {:induction false} ChunksMakePayload(payload: seq<Byte>)
    ensures Flatten(Chunked(payload)) == payload
    ensures forall i :: 0 <= i < |Chunked(payload)| ==> 0 < |Chunked(payload)[i]| <= 65536
    ensures forall i :: 0 <= i < |Chunked(payload)| - 1 ==> |Chunked(payload)[i]| == 65536
  {
    if |payload| > STREAM_CHUNK_SIZE {
      ChunksMakePayload(payload[STREAM_CHUNK_SIZE..]);
      assert payload == payload[..STREAM_CHUNK_SIZE] + payload[STREAM_CHUNK_SIZE..];
    } else if payload != [] {
      assert Flatten([payload]) == payload + Flatten([]);
    }
  }

  /** Cutting k chunks off the front leaves the chunks of the rest. */
  lemma {:induction false} ChunkedAt(payload: seq<Byte>, k: nat)
    requires k * STREAM_CHUNK_SIZE < |payload|
    ensures var rest := payload[k * STREAM_CHUNK_SIZE..];
            && k < |Chunked(payload)|
            && Chunked(payload)[k] == (if |rest| <= STREAM_CHUNK_SIZE then rest else rest[..STREAM_CHUNK_SIZE])
            && (k + 1 == |Chunked(payload)| <==> |rest| <= STREAM_CHUNK_SIZE)
  {
    if k > 0 {
      var tail := payload[STREAM_CHUNK_SIZE..];
      ChunkedAt(tail, k - 1);
      assert tail[(k - 1) * STREAM_CHUNK_SIZE..] == payload[k * STREAM_CHUNK_SIZE..];
    }
  }

  /** The sending half of the chunk channel; the receiver hangs up after taking `accepts` chunks. */
  class ChunkSender {
    const accepts: Option<nat>
    var chunks: seq<seq<Byte>>
    var dropped: bool

    constructor (accepts: Option<nat>)
      ensures this.accepts == accepts && chunks == [] && !dropped
    {
      this.accepts, chunks, dropped := accepts, [], false;
    }

    method Send(chunk: seq<Byte>) returns (ok: bool)
      modifies this`chunks
      ensures ok == (accepts.None? || |old(chunks)| < accepts.value)
      ensures chunks == if ok then old(chunks) + [chunk] else old(chunks)
    {
      ok := accepts.None? || |chunks| < accepts.value;
      if ok {
        chunks := chunks + [chunk];
      }
    }
  }

  /** How opening the file went, and how many payload bytes the second pass can read. */
  datatype Opening =
    | NotFound(namespaceProblem: Option<BlobError>)
    | OpenFailed
    | Opened(first: Source, seekable: bool, again: Option<nat>)

  /** Whether chunk k of an n-byte payload can be read on the second pass. */
  predicate Readable(n: nat, again: Option<nat>, k: nat) {
    var end := (k + 1) * STREAM_CHUNK_SIZE;
    again.None? || (if end < n then end else n) <= again.value
  }

  /** A streaming load that succeeds has found a missing file, or validated this one and sent all of it. */
  predicate StreamExplained(format: Format, opening: Opening, maximum: nat, r: Outcome<Option<nat>>,
                            chunks: seq<seq<Byte>>)
  {
    r.Success? ==>
      match opening
      case NotFound(problem) => problem.None? && r.value.None?
      case OpenFailed => false
      case Opened(first, _, _) =>
        var outcome := DecodeSource(format, first, maximum);
        outcome.Success? && r.value == Some(|outcome.value|) && chunks == Chunked(outcome.value)
  }

  method LoadBlobIntoSender(format: Format, opening: Opening, maximum: nat, chunks: ChunkSender, acknowledged: bool)
      returns (r: Outcome<Option<nat>>)
    requires ValidFormat(format) && chunks.chunks == [] && !chunks.dropped
    modifies chunks
    ensures opening.NotFound? ==> chunks.chunks == []
    ensures opening == NotFound(None) ==> r == Success(None)
    ensures opening.NotFound? && opening.namespaceProblem.Some? ==> r == Failure(opening.namespaceProblem.value)
    ensures opening.OpenFailed? ==> chunks.chunks == [] && r == Failure(Io)
    // Nothing is sent before the whole file has been validated.
    ensures opening.Opened? && DecodeSource(format, opening.first, maximum).Failure? ==>
      chunks.chunks == [] && r == Failure(DecodeSource(format, opening.first, maximum).failure)
    // What is sent is a prefix of the payload's chunks, and all of it exactly when the load succeeds.
    ensures opening.Opened? && DecodeSource(format, opening.first, maximum).Success? ==>
      var payload := DecodeSource(format, opening.first, maximum).value;
      var sent := |chunks.chunks|;
      && chunks.chunks <= Chunked(payload)
      && (chunks.accepts.Some? ==> sent <= chunks.accepts.value)
      && (r.Success? <==> chunks.chunks == Chunked(payload) && opening.seekable && acknowledged)
      && (r.Success? ==> r.value == Some(|payload|) && chunks.dropped)
      && (r.Failure? ==> r.failure == Io || r.failure == StreamCancelled)
      && (r == Failure(Io) <==>
           !opening.seekable || (sent < |Chunked(payload)| && !Readable(|payload|, opening.again, sent)))
      && (r == Failure(StreamCancelled) && sent < |Chunked(payload)| ==> chunks.accepts == Some(sent))
    ensures StreamExplained(format, opening, maximum, r, chunks.chunks)
  {
    hide Crc, CrcOf, CrcAppend, Problem, Readable, Chunked;
    match opening
    case NotFound(problem) =>
      return if problem.Some? then Failure(problem.value) else Success(None);
    case OpenFailed =>
      return Failure(Io);
    case Opened(first, seekable, again) =>
      var reader := new Reader(first, 0);
      var metadata := ValidateEnvelopeReader(format, reader, maximum);
      ValidatorFollowsFormat(format, first, maximum);
      if metadata.Failure? {
        return Failure(metadata.failure);
      }
      ghost var payload := DecodeSource(format, first, maximum).value;
      if !seekable {
        return Failure(Io);
      }
      r := SendPayload(first.data, metadata.value, again, chunks, acknowledged);
  }

  lemma ChunkIn(data: seq<Byte>, size: nat, k: nat)
    requires |data| >= HEADER_LEN + size && k * STREAM_CHUNK_SIZE < size
    ensures var payload, at := data[HEADER_LEN..HEADER_LEN + size], k * STREAM_CHUNK_SIZE;
            var length := if size - at < STREAM_CHUNK_SIZE then size - at else STREAM_CHUNK_SIZE;
            && k < |Chunked(payload)|
            && Chunked(payload)[k] == data[HEADER_LEN + at..HEADER_LEN + at + length]
            && (k + 1 == |Chunked(payload)| <==> size - at <= STREAM_CHUNK_SIZE)
  {
    hide Chunked;
    ChunkedAt(data[HEADER_LEN..HEADER_LEN + size], k);
  }

  /** One chunk of a file that is known to be long enough, so that only a fault can be in the way. */
  method ReadChunk(reader: Reader, n: nat) returns (r: Outcome<seq<Byte>>)
    requires reader.Valid() && n > 0 && reader.pos + n <= |reader.source.data|
    modifies reader
    ensures reader.Valid()
    ensures r == if old(reader.pos) + n <= Available(reader.source)
                 then Success(reader.source.data[old(reader.pos)..old(reader.pos) + n]) else Failure(Io)
    ensures r.Success? ==> reader.pos == old(reader.pos) + n
  {
    var chunk := new Byte[n];
    var problem := reader.ReadSection(chunk, 0, n, Payload);
    assert chunk[0..n] == chunk[..];
    return if problem.Some? then Failure(problem.value) else Success(chunk[..]);
  }

  /** The second pass: reads the payload again, chunk by chunk. */
  method SendPayload(data: seq<Byte>, size: nat, again: Option<nat>, chunks: ChunkSender, acknowledged: bool)
      returns (r: Outcome<Option<nat>>)
    requires |data| == size + OVERHEAD && chunks.chunks == [] && !chunks.dropped
    modifies chunks
    ensures
      var payload := data[HEADER_LEN..HEADER_LEN + size];
      var sent := |chunks.chunks|;
      && chunks.chunks <= Chunked(payload)
      && (chunks.accepts.Some? ==> sent <= chunks.accepts.value)
      && (r.Success? <==> chunks.chunks == Chunked(payload) && acknowledged)
      && (r.Success? ==> r.value == Some(size) && chunks.dropped)
      && (r.Failure? ==> r.failure == Io || r.failure == StreamCancelled)
      && (r == Failure(Io) <==> sent < |Chunked(payload)| && !Readable(size, again, sent))
      && (r == Failure(StreamCancelled) && sent < |Chunked(payload)| ==> chunks.accepts == Some(sent))
  {
    hide Chunked;
    ghost var payload := data[HEADER_LEN..HEADER_LEN + size];
    var source := Source(data, if again.Some? then Some(HEADER_LEN + again.value) else None);
    var reader := new Reader(source, HEADER_LEN);
    var remaining := size;
    ghost var k := 0;
    assert size == 0 ==> Chunked(payload) == [] by {
      ChunksMakePayload(payload);
      NoChunks(payload);
    }
    while remaining != 0
      invariant 0 <= remaining <= size && reader.Valid() && reader.source == source
      invariant reader.pos == HEADER_LEN + size - remaining
      invariant remaining > 0 ==> size - remaining == k * STREAM_CHUNK_SIZE
      invariant remaining == 0 ==> k == |Chunked(payload)|
      invariant k == |chunks.chunks| && chunks.chunks <= Chunked(payload)
      invariant chunks.accepts.Some? ==> k <= chunks.accepts.value
      invariant !chunks.dropped
    {
      ChunkIn(data, size, k);
      var requested := if remaining < STREAM_CHUNK_SIZE then remaining else STREAM_CHUNK_SIZE;
      var chunk := ReadChunk(reader, requested);
      if chunk.Failure? {
        return Failure(chunk.failure);
      }
      remaining := remaining - requested;
      var ok := chunks.Send(chunk.value);
      if !ok {
        return Failure(StreamCancelled);
      }
      k := k + 1;
    }
    chunks.dropped := true;
    assert chunks.chunks == Chunked(payload);
    return if acknowledged then Success(Some(size)) else Failure(StreamCancelled);
  }

  lemma NoChunks(payload: seq<Byte>)
    ensures Chunked(payload) == [] <==> payload == []
  {
  }

  // ---- The streaming writer --------------------------------------------------------------------

  datatype Message = Chunk(bytes: seq<Byte>) | Complete

  /** A staging file that stops accepting bytes at its capacity, possibly in the middle of a write. */
  class Writer {
    const capacity: Option<nat>
    var staged: seq<Byte>

    constructor (capacity: Option<nat>)
      ensures this.capacity == capacity && staged == []
    {
      this.capacity, staged := capacity, [];
    }

    method WriteAll(bytes: seq<Byte>) returns (ok: bool)
      requires Fits(staged, capacity)
      modifies this`staged
      ensures ok == Fits(old(staged) + bytes, capacity)
      ensures staged == Cut(old(staged) + bytes, capacity)
    {
      ok := Fits(staged + bytes, capacity);
      staged := Cut(staged + bytes, capacity);
    }
  }

  predicate Fits(bytes: seq<Byte>, capacity: Option<nat>) {
    capacity.None? || |bytes| <= capacity.value
  }

  function Cut(bytes: seq<Byte>, capacity: Option<nat>): seq<Byte> {
    if Fits(bytes, capacity) then bytes else bytes[..capacity.value]
  }

  method CopyInto(target: array<Byte>, at: nat, bytes: seq<Byte>)
    requires at + |bytes| <= target.Length
    modifies target
    ensures target[..] == old(target[..at]) + bytes + old(target[at + |bytes|..])
  {
    forall i | 0 <= i < |bytes| {
      target[at + i] := bytes[i];
    }
  }

  method EnvelopeHeader(format: Format, size: nat, maximum: nat) returns (r: Outcome<seq<Byte>>)
    requires ValidFormat(format) && size <= WORD_MAX
    ensures r == if size > maximum then Failure(BlobTooLarge(size, maximum)) else Success(Header(format, size))
  {
    if size > maximum {
      return Failure(BlobTooLarge(size, maximum));
    }
    Ranges();
    var header := new Byte[HEADER_LEN];
    CopyInto(header, 0, format.domainTag);
    assert header[..8] == format.domainTag;
    CopyInto(header, 8, ToBytes(format.version, 2));
    assert header[..10] == format.domainTag + ToBytes(format.version, 2);
    CopyInto(header, 10, ToBytes(size, 8));
    assert header[..] == Header(format, size);
    return Success(header[..]);
  }

  /** Asking for a buffer that holds the whole envelope panics if it is too large. */
  method EncodeEnvelope(format: Format, payload: seq<Byte>, maximum: nat, wordMax: nat)
      returns (r: Call<Outcome<seq<Byte>>>)
    requires ValidFormat(format) && |payload| <= WORD_MAX
    ensures r ==
      if |payload| > maximum then Ended(Failure(BlobTooLarge(|payload|, maximum)))
      else if |payload| + OVERHEAD > BufferMax(wordMax) then Unwound
      else Ended(Success(Encode(format, payload)))
  {
    hide Crc, CrcAppend;
    var header := EnvelopeHeader(format, |payload|, maximum);
    if header.Failure? {
      return Ended(header);
    }
    CrcAppends(header.value, payload);
    var checksum := CrcBytes(CrcAppend(Crc(header.value), payload));
    if |header.value| + |payload| + |checksum| > BufferMax(wordMax) {
      return Unwound;
    }
    return Ended(Success(header.value + payload + checksum));
  }

  /** The chunks in front of the completion marker. */
  function Sent(messages: seq<Message>): seq<Byte> {
    if messages == [] || messages[0].Complete? then [] else messages[0].bytes + Sent(messages[1..])
  }

  predicate Completed(messages: seq<Message>) {
    messages != [] && (messages[0].Complete? || Completed(messages[1..]))
  }

  /** What the sender's messages amount to, however they are cut up. */
  function Verdict(declared: nat, messages: seq<Message>): Outcome<()> {
    if |Sent(messages)| > declared then Failure(InputHasTrailingData(declared))
    else if !Completed(messages) then Failure(StreamCancelled)
    else if |Sent(messages)| < declared then Failure(InputEndedEarly(declared, |Sent(messages)|))
    else Success(())
  }

  /** The leading chunks that fit in room bytes. */
  function Fitting(room: nat, messages: seq<Message>): (bytes: seq<Byte>)
    ensures |bytes| <= room
  {
    if messages == [] || messages[0].Complete? || |messages[0].bytes| > room then []
    else messages[0].bytes + Fitting(room - |messages[0].bytes|, messages[1..])
  }

  lemma {:induction false} FittingIsSent(room: nat, messages: seq<Message>)
    ensures Fitting(room, messages) <= Sent(messages)
    ensures |Sent(messages)| <= room ==> Fitting(room, messages) == Sent(messages)
  {
    if messages != [] && messages[0].Chunk? && |messages[0].bytes| <= room {
      FittingIsSent(room - |messages[0].bytes|, messages[1..]);
    }
  }

  /** The staged body, with its checksum if the stream is complete. */
  function Finished(body: seq<Byte>, declared: nat, messages: seq<Message>): seq<Byte> {
    if Verdict(declared, messages).Success? then body + CrcBytes(Crc(body)) else body
  }

  /** What reaches a staging file that never fills up. */
  function Wanted(format: Format, declared: nat, maximum: nat, messages: seq<Message>): seq<Byte>
    requires ValidFormat(format) && declared <= WORD_MAX
  {
    if declared > maximum then []
    else Finished(Header(format, declared) + Fitting(declared, messages), declared, messages)
  }

  lemma CutPrefix(written: seq<Byte>, wanted: seq<Byte>, capacity: Option<nat>)
    requires written <= wanted
    ensures written == [] ==> Fits(written, capacity)
    ensures Fits(written, capacity) ==> Cut(written, capacity) == written
    ensures !Fits(written, capacity) ==> !Fits(wanted, capacity) && Cut(written, capacity) == Cut(wanted, capacity)
  {
  }

  lemma Unrolled(room: nat, messages: seq<Message>)
    ensures messages == [] || messages[0].Complete? ==> Sent(messages) == [] && Fitting(room, messages) == []
    ensures messages == [] ==> !Completed(messages)
    ensures messages != [] && messages[0].Complete? ==> Completed(messages)
    ensures messages != [] && messages[0].Chunk? ==>
      && |Sent(messages)| == |messages[0].bytes| + |Sent(messages[1..])|
      && Completed(messages) == Completed(messages[1..])
      && Fitting(room, messages) == if |messages[0].bytes| > room then []
                                    else messages[0].bytes + Fitting(room - |messages[0].bytes|, messages[1..])
  {
  }

  method WriteStreamEnvelope(format: Format, maximum: nat, declared: nat, writer: Writer, messages: seq<Message>)
      returns (r: Outcome<()>)
    requires ValidFormat(format) && declared <= WORD_MAX && writer.staged == []
    modifies writer
    ensures writer.staged == Cut(Wanted(format, declared, maximum, messages), writer.capacity)
    ensures r ==
      if declared > maximum then Failure(BlobTooLarge(declared, maximum))
      else if !Fits(Wanted(format, declared, maximum, messages), writer.capacity) then Failure(Io)
      else Verdict(declared, messages)
  {
    hide Header, Finished, Verdict;
    var head := EnvelopeHeader(format, declared, maximum);
    if head.Failure? {
      return Failure(head.failure);
    }
    var header := head.value;
    ghost var wanted := Wanted(format, declared, maximum, messages);
    assert header <= wanted by {
      StartsBody(header, declared, messages);
    }
    assert writer.staged + header == header;
    var ok := writer.WriteAll(header);
    CutPrefix(header, wanted, writer.capacity);
    if !ok {
      return Failure(Io);
    }
    r := WriteChunks(header, declared, writer, messages);
  }

  lemma StartsBody(header: seq<Byte>, declared: nat, messages: seq<Message>)
    ensures header <= Finished(header + Fitting(declared, messages), declared, messages)
  {
  }

  /** The receive loop, once the header is staged. */
  method WriteChunks(header: seq<Byte>, declared: nat, writer: Writer, messages: seq<Message>) returns (r: Outcome<()>)
    requires writer.staged == header && Fits(header, writer.capacity)
    modifies writer
    ensures var wanted := Finished(header + Fitting(declared, messages), declared, messages);
            && writer.staged == Cut(wanted, writer.capacity)
            && r == if !Fits(wanted, writer.capacity) then Failure(Io) else Verdict(declared, messages)
  {
    hide Crc, CrcAppend, CrcBytes, Sent, Completed, Fitting, Cut, Fits;
    ghost var all := header + Fitting(declared, messages);
    ghost var wanted := Finished(all, declared, messages);
    var checksum := Crc(header);
    var written := 0;
    var queue := messages;
    ghost var body := header;
    while queue != []
      invariant written <= declared
      invariant writer.staged == body && Fits(body, writer.capacity) && checksum == Crc(body)
      invariant all == body + Fitting(declared - written, queue)
      invariant |Sent(messages)| == written + |Sent(queue)|
      invariant Completed(messages) == Completed(queue)
      decreases |queue|
    {
      Unrolled(declared - written, queue);
      var message := queue[0];
      queue := queue[1..];
      match message {
      case Chunk(chunk) =>
        if written + |chunk| > declared {
          assert all == body;
          CutPrefix(body, wanted, writer.capacity);
          return Failure(InputHasTrailingData(declared));
        }
        assert all == body + chunk + Fitting(declared - written - |chunk|, queue);
        var ok := writer.WriteAll(chunk);
        CutPrefix(body + chunk, wanted, writer.capacity);
        if !ok {
          return Failure(Io);
        }
        CrcAppends(body, chunk);
        checksum := CrcAppend(checksum, chunk);
        body := body + chunk;
        written := written + |chunk|;
      case Complete =>
        assert all == body;
        CutPrefix(body, wanted, writer.capacity);
        if written != declared {
          return Failure(InputEndedEarly(declared, written));
        }
        var ok := writer.WriteAll(CrcBytes(checksum));
        return if ok then Success(()) else Failure(Io);
      }
    }
    Unrolled(declared - written, queue);
    assert body == all;
    CutPrefix(body, wanted, writer.capacity);
    return Failure(StreamCancelled);
  }

  /** A completed stream of the declared length stages exactly the encoder's output, however it is cut up. */
  lemma WriterRefinesEncoder(format: Format, declared: nat, maximum: nat, messages: seq<Message>)
    requires ValidFormat(format) && declared <= WORD_MAX && declared <= maximum
    ensures Verdict(declared, messages).Success? <==> Completed(messages) && |Sent(messages)| == declared
    ensures Verdict(declared, messages).Success? ==>
      Wanted(format, declared, maximum, messages) == Encode(format, Sent(messages))
  {
    hide Crc, CrcBytes, Header;
    FittingIsSent(declared, messages);
  }

  /** Whatever else a streaming save leaves staged is read back as truncated, never as a blob. */
  lemma FailedWritesAreTruncated(format: Format, declared: nat, maximum: nat, messages: seq<Message>,
                                 capacity: Option<nat>)
    requires ValidFormat(format) && ValidMaximum(maximum) && declared <= maximum
    requires Verdict(declared, messages).Failure? || !Fits(Wanted(format, declared, maximum, messages), capacity)
    ensures var staged := Cut(Wanted(format, declared, maximum, messages), capacity);
            var r := DecodeBytes(format, staged, maximum);
            r.Failure? && r.failure.TruncatedEnvelope?
  {
    hide Crc, DecodeBytes, Sent;
    HeaderBytes(format, declared);
    var wanted := Wanted(format, declared, maximum, messages);
    assert wanted[..8] == format.domainTag;
    assert wanted[8..10] == ToBytes(format.version, 2) && wanted[10..18] == ToBytes(declared, 8);
    var staged := Cut(wanted, capacity);
    assert |Header(format, declared)| == HEADER_LEN;
    assert |wanted| <= declared + OVERHEAD;
    assert Verdict(declared, messages).Failure? ==> |wanted| <= declared + HEADER_LEN;
    if Fits(wanted, capacity) {
      assert wanted == wanted[..|wanted|];
    }
    ShortHeader(format, wanted, declared, maximum, |staged|);
  }
}

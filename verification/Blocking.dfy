/** The caller's side of streaming saves and loads: the loops that move bytes to and from the engine. */
module Blocking {
  import opened Collections
  import opened Crc32c
  import opened Envelope
  import opened StreamFormat

  /** The sending half of the message channel; the receiver hangs up after taking `accepts` messages. */
  class MessageSender {
    const accepts: Option<nat>
    var sent: seq<Message>
    var dropped: bool

    constructor (accepts: Option<nat>)
      ensures this.accepts == accepts && sent == [] && !dropped
    {
      this.accepts, sent, dropped := accepts, [], false;
    }

    method Send(message: Message) returns (ok: bool)
      modifies this`sent
      ensures ok == (accepts.None? || |old(sent)| < accepts.value)
      ensures sent == if ok then old(sent) + [message] else old(sent)
    {
      ok := accepts.None? || |sent| < accepts.value;
      if ok {
        sent := sent + [message];
      }
    }
  }

  /** What a streaming save returns: a fault of its input, or whatever the engine answers. */
  datatype SaveReturn =
    | EngineAnswer
    | InputFault
    | EndedEarly(declared: nat, actual: nat)
    | TrailingInput(declared: nat)

  predicate WellCut(messages: seq<Message>) {
    forall i :: 0 <= i < |messages| && messages[i].Chunk? ==> 0 < |messages[i].bytes| <= STREAM_CHUNK_SIZE
  }

  lemma {:induction false} SentPush(messages: seq<Message>, message: Message)
    requires !Completed(messages)
    ensures Completed(messages + [message]) <==> message.Complete?
    ensures Sent(messages + [message]) == Sent(messages) + if message.Chunk? then message.bytes else []
  {
    if messages == [] {
      assert [] + [message] == [message];
      assert message.Chunk? ==> Sent([message]) == message.bytes + Sent([]);
      assert [message][1..] == [];
    } else {
      assert (messages + [message])[1..] == messages[1..] + [message];
      SentPush(messages[1..], message);
    }
  }

  /** The bytes that a save may take from its input. */
  function Usable(source: Source, declared: nat): nat {
    if Available(source) < declared then Available(source) else declared
  }

  /** What is wrong with the input of a save of `declared` bytes, if anything. */
  function InputProblem(source: Source, declared: nat): SaveReturn {
    if Available(source) > declared then TrailingInput(declared)
    else if Faulty(source) then InputFault
    else if Available(source) < declared then EndedEarly(declared, Available(source))
    else EngineAnswer
  }

  /** An input that reads without a fault is taken exactly if it has the declared length; one that fails is reported as
      faulty, unless more than the declared length was read before. */
  lemma InputProblems(data: seq<Byte>, declared: nat, fault: nat)
    ensures var problem := InputProblem(Source(data, None), declared);
            && (|data| == declared <==> problem.EngineAnswer?)
            && (|data| > declared <==> problem == TrailingInput(declared))
            && (|data| < declared <==> problem == EndedEarly(declared, |data|))
    ensures fault <= |data| ==>
      InputProblem(Source(data, Some(fault)), declared)
      == if fault > declared then TrailingInput(declared) else InputFault
  {
  }

  /** One read of at most n bytes. */
  method ReadSome(reader: Reader, n: nat) returns (r: ReadResult, chunk: seq<Byte>)
    requires reader.Valid() && n > 0
    modifies reader
    ensures reader.Valid()
    ensures r.ReadError? <==> old(reader.pos) == Available(reader.source) && Faulty(reader.source)
    ensures r.ReadError? ==> reader.pos == old(reader.pos)
    ensures r.Count? ==> r.count <= n && reader.pos == old(reader.pos) + r.count
    ensures r.Count? ==> (r.count == 0 <==> old(reader.pos) == Available(reader.source))
    ensures r.Count? ==>
      reader.source.data[..old(reader.pos)] + chunk == reader.source.data[..reader.pos] && |chunk| == r.count
  {
    var buffer := new Byte[n];
    r := reader.Read(buffer, 0, n);
    chunk := if r.Count? then buffer[..r.count] else [];
    if r.Count? {
      assert chunk == reader.source.data[old(reader.pos)..reader.pos];
    }
  }

  /** Nothing is sent after the marker. */
  predicate MarkerLast(messages: seq<Message>) {
    forall i :: 0 <= i < |messages| - 1 ==> messages[i].Chunk?
  }

  /** What a streaming save may have sent, and may return, for this input. */
  predicate SavedFrom(source: Source, declared: nat, sent: seq<Message>, r: SaveReturn) {
    var usable := Usable(source, declared);
    && WellCut(sent) && MarkerLast(sent) && Sent(sent) <= source.data[..usable]
    // The completion marker vouches for an input of exactly the declared length.
    && (Completed(sent) ==>
         InputProblem(source, declared).EngineAnswer? && Sent(sent) == source.data && r.EngineAnswer?)
    // An input problem is reported as such, after all that could be used was sent, and without the marker.
    && (!r.EngineAnswer? ==>
         r == InputProblem(source, declared) && Sent(sent) == source.data[..usable] && !Completed(sent))
    // Otherwise the engine hung up on a chunk or on the marker.
    && (r.EngineAnswer? && !Completed(sent) ==>
         |Sent(sent)| < usable || (Sent(sent) == source.data && InputProblem(source, declared).EngineAnswer?))
  }

  method SaveFrom(chunks: MessageSender, reader: Reader, declared: nat) returns (r: SaveReturn)
    requires reader.Valid() && reader.pos == 0 && chunks.sent == [] && !chunks.dropped
    modifies chunks, reader
    ensures SavedFrom(reader.source, declared, chunks.sent, r)
    ensures !r.EngineAnswer? || Completed(chunks.sent) ==> chunks.dropped
    ensures r.EngineAnswer? && !Completed(chunks.sent) ==> chunks.accepts == Some(|chunks.sent|)
    // If the engine keeps listening, everything usable is sent.
    ensures chunks.accepts.None? ==>
      && r == InputProblem(reader.source, declared)
      && (r.EngineAnswer? <==> Completed(chunks.sent))
      && Sent(chunks.sent) == reader.source.data[..Usable(reader.source, declared)]
  {
    hide Sent, Completed, WellCut, MarkerLast, AllChunks;
    var read := 0;
    ghost var source := reader.source;
    NothingSent();
    while read < declared
      invariant MarkerLast(chunks.sent)
      invariant read <= declared && reader.Valid() && reader.pos == read && reader.source == source
      invariant WellCut(chunks.sent) && AllChunks(chunks.sent) && !Completed(chunks.sent) && !chunks.dropped
      invariant Sent(chunks.sent) == source.data[..read]
      invariant chunks.accepts.Some? ==> |chunks.sent| <= chunks.accepts.value
    {
      var requested := if declared - read < STREAM_CHUNK_SIZE then declared - read else STREAM_CHUNK_SIZE;
      var result, chunk := ReadSome(reader, requested);
      if result.ReadError? {
        chunks.dropped := true;
        return InputFault;
      }
      if result.count == 0 {
        chunks.dropped := true;
        return EndedEarly(declared, read);
      }
      assert source.data[..read] <= source.data[..Usable(source, declared)];
      read := read + result.count;
      SentPush(chunks.sent, Chunk(chunk));
      CutPush(chunks.sent, Chunk(chunk));
      var ok := chunks.Send(Chunk(chunk));
      if !ok {
        return EngineAnswer;
      }
    }
    var result, trailing := ReadSome(reader, 1);
    if result.ReadError? {
      chunks.dropped := true;
      return InputFault;
    }
    if result.count != 0 {
      chunks.dropped := true;
      return TrailingInput(declared);
    }
    assert source.data[..read] + [] == source.data[..read];
    SentPush(chunks.sent, Complete);
    CutPush(chunks.sent, Complete);
    var ok := chunks.Send(Complete);
    if ok {
      chunks.dropped := true;
    }
    return EngineAnswer;
  }

  predicate AllChunks(messages: seq<Message>) {
    forall i :: 0 <= i < |messages| ==> messages[i].Chunk?
  }

  lemma NothingSent()
    ensures Sent([]) == [] && !Completed([]) && WellCut([]) && AllChunks([]) && MarkerLast([])
  {
  }

  lemma CutPush(messages: seq<Message>, message: Message)
    requires WellCut(messages) && (message.Chunk? ==> 0 < |message.bytes| <= STREAM_CHUNK_SIZE)
    ensures WellCut(messages + [message])
    ensures AllChunks(messages) ==> MarkerLast(messages) && MarkerLast(messages + [message])
    ensures AllChunks(messages) && message.Chunk? ==> AllChunks(messages + [message])
  {
  }

  /** Whatever prefix of these messages the worker sees, it never blames the input: it completes or is cancelled. */
  lemma WorkerSeesNoInputFault(declared: nat, messages: seq<Message>)
    requires |Sent(messages)| <= declared && (Completed(messages) ==> |Sent(messages)| == declared)
    ensures Verdict(declared, messages) == if Completed(messages) then Success(()) else Failure(StreamCancelled)
  {
  }

  function AsMessages(chunks: seq<seq<Byte>>): (messages: seq<Message>)
    ensures |messages| == |chunks|
  {
    if chunks == [] then [] else [Chunk(chunks[0])] + AsMessages(chunks[1..])
  }

  lemma SentPop(chunk: seq<Byte>, rest: seq<Message>)
    ensures Sent([Chunk(chunk)] + rest) == chunk + Sent(rest)
    ensures Completed([Chunk(chunk)] + rest) <==> Completed(rest)
  {
    Headed(Chunk(chunk), rest);
  }

  lemma {:induction false} SentIsFlat(chunks: seq<seq<Byte>>, more: seq<Message>)
    ensures Sent(AsMessages(chunks) + more) == Flatten(chunks) + Sent(more)
    ensures Completed(AsMessages(chunks) + more) <==> Completed(more)
  {
    hide Sent, Completed;
    if chunks == [] {
      assert AsMessages(chunks) + more == more;
    } else {
      var rest := AsMessages(chunks[1..]);
      SentIsFlat(chunks[1..], more);
      SentPop(chunks[0], rest + more);
      assert AsMessages(chunks) + more == [Chunk(chunks[0])] + (rest + more);
    }
  }

  /** What the worker says of a stream: too many bytes are refused at once, a stream without a marker was cancelled, and
      at the marker, whatever follows it, the declared length decides. */
  lemma StreamEndings(declared: nat, chunks: seq<seq<Byte>>, more: seq<Message>)
    ensures Verdict(declared, AsMessages(chunks)) ==
      if |Flatten(chunks)| > declared then Failure(InputHasTrailingData(declared)) else Failure(StreamCancelled)
    ensures Verdict(declared, AsMessages(chunks) + [Complete] + more) ==
      if |Flatten(chunks)| > declared then Failure(InputHasTrailingData(declared))
      else if |Flatten(chunks)| < declared then Failure(InputEndedEarly(declared, |Flatten(chunks)|))
      else Success(())
  {
    NothingSent();
    SentIsFlat(chunks, []);
    assert AsMessages(chunks) + [] == AsMessages(chunks);
    SentIsFlat(chunks, [Complete] + more);
    assert AsMessages(chunks) + ([Complete] + more) == AsMessages(chunks) + [Complete] + more;
  }

  /** Writes the chunks out; acknowledges the end of the stream unless the output failed. */
  method LoadInto(chunks: seq<seq<Byte>>, writer: Writer) returns (outputFault: bool, acknowledged: bool)
    requires writer.staged == [] && Fits([], writer.capacity)
    modifies writer
    ensures writer.staged == Cut(Flatten(chunks), writer.capacity)
    ensures outputFault <==> !Fits(Flatten(chunks), writer.capacity)
    ensures acknowledged <==> !outputFault
  {
    hide Cut, Fits;
    var queue := chunks;
    ghost var body: seq<Byte> := [];
    CutPrefix([], Flatten(chunks), writer.capacity);
    while queue != []
      invariant writer.staged == body && Fits(body, writer.capacity)
      invariant Flatten(chunks) == body + Flatten(queue)
      decreases |queue|
    {
      var chunk := queue[0];
      queue := queue[1..];
      assert Flatten(chunks) == body + chunk + Flatten(queue);
      CutPrefix(body + chunk, Flatten(chunks), writer.capacity);
      var ok := writer.WriteAll(chunk);
      if !ok {
        return true, false;
      }
      body := body + chunk;
    }
    assert body == Flatten(chunks);
    CutPrefix(body, Flatten(chunks), writer.capacity);
    return false, true;
  }
}

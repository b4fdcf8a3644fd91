/** Postgres wire framing, apps/router/src/protocol.ts: `MessageReader` and `encodeMessage`. */
module Protocol {
  import opened Bytes

  const MAX_MESSAGE_BYTES: int := 512 * 1024 * 1024

  // Type bytes the router acts on.
  const BACKEND_KEY_DATA: byte := 0x4b
  const READY_FOR_QUERY: byte := 0x5a
  const QUERY: byte := 0x51
  const SYNC: byte := 0x53
  const FUNCTION_CALL: byte := 0x46
  const TERMINATE: byte := 0x58
  const COPY_DATA: byte := 0x64
  const COPY_DONE: byte := 0x63
  const COPY_FAIL: byte := 0x66

  // Transaction status carried by ReadyForQuery.
  const STATUS_IDLE: byte := 0x49

  /** `kind` is the type byte; None marks an untyped startup-phase message. */
  datatype RawMessage = RawMessage(kind: Option<byte>, payload: Bytes, raw: Bytes)

  datatype Framing =
    | Incomplete
    | Framed(message: RawMessage, rest: Bytes)
    | Implausible(length: int)

  function NextStartup(buffer: Bytes): Framing {
    if |buffer| < 4 then Incomplete
    else
      var length := ReadInt32BE(buffer, 0);
      if length < 4 || length > MAX_MESSAGE_BYTES then Implausible(length)
      else if |buffer| < length then Incomplete
      else
        var raw := buffer[..length];
        Framed(RawMessage(None, raw[4..], raw), buffer[length..])
  }

  function NextTyped(buffer: Bytes): Framing {
    if |buffer| < 5 then Incomplete
    else
      var length := ReadInt32BE(buffer, 1);
      if length < 4 || length > MAX_MESSAGE_BYTES then Implausible(length)
      else
        var total := length + 1;
        if |buffer| < total then Incomplete
        else
          var raw := buffer[..total];
          Framed(RawMessage(Some(buffer[0]), raw[5..], raw), buffer[total..])
  }

  function Next(startup: bool, buffer: Bytes): (f: Framing)
    ensures f.Framed? ==> buffer == f.message.raw + f.rest && |f.rest| < |buffer|
  {
    if startup then NextStartup(buffer) else NextTyped(buffer)
  }

  /** A decision about the head of the buffer is final: later bytes only extend the rest. */
  lemma NextIsStable(startup: bool, a: Bytes, b: Bytes)
    ensures Next(startup, a).Framed? ==>
              Next(startup, a + b) == Next(startup, a).(rest := Next(startup, a).rest + b)
    ensures Next(startup, a).Implausible? ==> Next(startup, a + b) == Next(startup, a)
  {
    if !Next(startup, a).Incomplete? {
      var at := if startup then 0 else 1;
      assert ReadInt32BE(a + b, at) == ReadInt32BE(a, at);
      if Next(startup, a).Framed? {
        var total := ReadInt32BE(a, at) + at;
        assert (a + b)[..total] == a[..total];
        assert (a + b)[total..] == a[total..] + b;
      }
    }
  }

  /** Everything a push-then-drain loop gets out of a buffer. */
  datatype Frames = Frames(messages: seq<RawMessage>, rest: Bytes, failed: bool)

  function FrameAll(startup: bool, buffer: Bytes): Frames
    decreases |buffer|
  {
    match Next(startup, buffer)
    case Incomplete => Frames([], buffer, false)
    case Implausible(_) => Frames([], buffer, true)
    case Framed(m, rest) =>
      var d := FrameAll(startup, rest);
      d.(messages := [m] + d.messages)
  }

  function Raws(messages: seq<RawMessage>): Bytes {
    if messages == [] then [] else messages[0].raw + Raws(messages[1..])
  }

  lemma {:induction false} RawsAppend(a: seq<RawMessage>, b: seq<RawMessage>)
    ensures Raws(a + b) == Raws(a) + Raws(b)
  {
    if a == [] {
      assert a + b == b;
    } else {
      RawsAppend(a[1..], b);
      assert (a + b)[0] == a[0] && (a + b)[1..] == a[1..] + b;
      ConcatAssoc(a[0].raw, Raws(a[1..]), Raws(b));
    }
  }

  /** Framing neither loses, invents nor reorders a byte. */
  lemma {:induction false} FramingConservesBytes(startup: bool, buffer: Bytes)
    ensures Raws(FrameAll(startup, buffer).messages) + FrameAll(startup, buffer).rest == buffer
    decreases |buffer|
  {
    var f := Next(startup, buffer);
    if f.Framed? {
      var m, d := f.message, FrameAll(startup, f.rest);
      FramingConservesBytes(startup, f.rest);
      assert FrameAll(startup, buffer) == d.(messages := [m] + d.messages);
      RawsAppend([m], d.messages);
      assert Raws([m]) == m.raw + Raws([m][1..]);
      assert m.raw + Raws(d.messages) + d.rest == m.raw + f.rest;
    }
  }

  /** Draining after the first part and again after the second equals draining once. */
  lemma {:induction false} FrameSplit(startup: bool, a: Bytes, b: Bytes)
    ensures var first := FrameAll(startup, a);
            var second := FrameAll(startup, first.rest + b);
            FrameAll(startup, a + b) == Frames(first.messages + second.messages, second.rest, second.failed)
    ensures FrameAll(startup, a).failed ==> FrameAll(startup, FrameAll(startup, a).rest + b).messages == []
    decreases |a|
  {
    NextIsStable(startup, a, b);
    var f := Next(startup, a);
    if f.Framed? {
      FrameSplit(startup, f.rest, b);
      var first := FrameAll(startup, f.rest);
      var second := FrameAll(startup, first.rest + b);
      assert FrameAll(startup, a).messages == [f.message] + first.messages;
      assert FrameAll(startup, a + b).messages == [f.message] + FrameAll(startup, f.rest + b).messages;
      ConcatAssoc([f.message], first.messages, second.messages);
    }
  }

  /** The reading loop: push a chunk, then take messages until none is complete. */
  function FeedAll(startup: bool, chunks: seq<Bytes>): Frames {
    if chunks == [] then Frames([], [], false)
    else
      var before := FeedAll(startup, chunks[..|chunks| - 1]);
      var d := FrameAll(startup, before.rest + chunks[|chunks| - 1]);
      d.(messages := before.messages + d.messages)
  }

  /** However TCP cuts the stream, the same messages, leftover and failure come out. */
  lemma {:induction false} ChunkIndependence(startup: bool, chunks: seq<Bytes>)
    ensures FeedAll(startup, chunks) == FrameAll(startup, Flatten(chunks))
  {
    if chunks != [] {
      var init, last := chunks[..|chunks| - 1], chunks[|chunks| - 1];
      ChunkIndependence(startup, init);
      FrameSplit(startup, Flatten(init), last);
      FlattenSnoc(chunks);
    }
  }

  /** `encodeMessage`. */
  function EncodeMessage(kind: byte, payload: Bytes): Bytes
    requires |payload| + 4 < 0x8000_0000
  {
    [kind] + WriteInt32BE(|payload| + 4) + payload
  }

  predicate Encodable(m: RawMessage) {
    && m.kind.Some?
    && |m.payload| + 4 <= MAX_MESSAGE_BYTES
    && m.raw == EncodeMessage(m.kind.value, m.payload)
  }

  lemma NextTypedOfEncoded(m: RawMessage, rest: Bytes)
    requires Encodable(m)
    ensures NextTyped(m.raw + rest) == Framed(m, rest)
  {
    var buffer := m.raw + rest;
    var total := |m.payload| + 5;
    ReadWriteInt32(|m.payload| + 4, [m.kind.value], m.payload + rest);
    assert buffer == [m.kind.value] + WriteInt32BE(|m.payload| + 4) + (m.payload + rest);
    assert buffer[..total] == m.raw && buffer[total..] == rest;
    assert m.raw[5..] == m.payload;
  }

  /** Encoded messages, concatenated, frame back into exactly the list they came from. */
  lemma {:induction false} EncodedMessagesDecode(messages: seq<RawMessage>)
    requires forall m :: m in messages ==> Encodable(m)
    ensures FrameAll(false, Raws(messages)) == Frames(messages, [], false)
  {
    if messages != [] {
      EncodedMessagesDecode(messages[1..]);
      NextTypedOfEncoded(messages[0], Raws(messages[1..]));
    }
  }

  /** Conversely, every message the reader frames is one `encodeMessage` would print. */
  lemma FramedIsEncodable(buffer: Bytes)
    requires NextTyped(buffer).Framed?
    ensures Encodable(NextTyped(buffer).message)
  {
    var m := NextTyped(buffer).message;
    WriteReadInt32(buffer, 1);
    assert m.raw == [buffer[0]] + buffer[1..5] + m.payload;
  }

  datatype NextResult = Message(message: RawMessage) | NoMessage | ProtocolError(length: int)

  class MessageReader {
    var buffer: Bytes
    var startupPhase: bool

    constructor (startupPhase: bool)
      ensures this.startupPhase == startupPhase && buffer == []
    {
      this.startupPhase := startupPhase;
      buffer := [];
    }

    method EnterMessagePhase()
      modifies this
      ensures !startupPhase && buffer == old(buffer)
    {
      startupPhase := false;
    }

    method Push(chunk: Bytes)
      modifies this
      ensures buffer == old(buffer) + chunk && startupPhase == old(startupPhase)
    {
      buffer := if |buffer| == 0 then chunk else buffer + chunk;
    }

    /** `drain`: the unframed bytes, handed over whole. */
    method TakeAll() returns (out: Bytes)
      modifies this
      ensures out == old(buffer) && buffer == [] && startupPhase == old(startupPhase)
    {
      out := buffer;
      buffer := [];
    }

    method TakeNext() returns (r: NextResult)
      modifies this
      ensures startupPhase == old(startupPhase)
      ensures match Next(startupPhase, old(buffer))
              case Incomplete => r == NoMessage && buffer == old(buffer)
              case Implausible(length) => r == ProtocolError(length) && buffer == old(buffer)
              case Framed(m, rest) => r == Message(m) && buffer == rest
    {
      if startupPhase {
        if |buffer| < 4 { return NoMessage; }
        var length := ReadInt32BE(buffer, 0);
        if length < 4 || length > MAX_MESSAGE_BYTES { return ProtocolError(length); }
        if |buffer| < length { return NoMessage; }
        var raw := buffer[..length];
        buffer := buffer[length..];
        return Message(RawMessage(None, raw[4..], raw));
      }
      if |buffer| < 5 { return NoMessage; }
      var kind := buffer[0];
      var length := ReadInt32BE(buffer, 1);
      if length < 4 || length > MAX_MESSAGE_BYTES { return ProtocolError(length); }
      var total := length + 1;
      if |buffer| < total { return NoMessage; }
      var raw := buffer[..total];
      buffer := buffer[total..];
      return Message(RawMessage(Some(kind), raw[5..], raw));
    }

    /** One socket event: push the chunk, then take messages until none is left. */
    method Feed(chunk: Bytes) returns (messages: seq<RawMessage>, failed: bool)
      modifies this
      ensures startupPhase == old(startupPhase)
      ensures FrameAll(startupPhase, old(buffer) + chunk) == Frames(messages, buffer, failed)
    {
      Push(chunk);
      messages, failed := [], false;
      while true
        invariant startupPhase == old(startupPhase)
        invariant var rest := FrameAll(startupPhase, buffer);
                  FrameAll(startupPhase, old(buffer) + chunk) == rest.(messages := messages + rest.messages)
        decreases |buffer|
      {
        ghost var f := Next(startupPhase, buffer);
        var r := TakeNext();
        match r
        case NoMessage =>
          assert messages + [] == messages;
          return;
        case ProtocolError(_) =>
          assert messages + [] == messages;
          failed := true;
          return;
        case Message(m) =>
          ConcatAssoc(messages, [m], FrameAll(startupPhase, f.rest).messages);
          messages := messages + [m];
      }
    }
  }
}

/**
 * Session mode: apps/router/src/framed.ts and the relay of apps/router/src/session.ts.
 *
 * A promise that has settled is read only when its continuation runs, so a message can be in
 * flight between the reader and the loop; socket events may come in between.
 */
module SessionRelay {
  import opened Bytes
  import opened Protocol
  import opened Codecs

  // ---------- FramedStream on values

  /** What a promise returned by `next` settles with; Given(None) is the null of an ended stream. */
  datatype Settlement = Given(message: Option<RawMessage>) | Failed

  /** What calling `next` does: settle at once, leave the promise pending, or throw. */
  datatype Pull = Settled(settlement: Settlement) | Unsettled | Thrown

  /** `waiting` stands for a non-null `resolveNext`. */
  datatype Framer = Framer(startup: bool, buffer: Bytes, waiting: bool, ended: bool, failed: bool, detached: bool)

  function NewFramer(startup: bool): Framer { Framer(startup, [], false, false, false, false) }

  function Pulled(f: Framer): (r: (Framer, Pull)) {
    if f.failed then (f, Settled(Failed))
    else
      match Next(f.startup, f.buffer)
      case Framed(m, rest) => (f.(buffer := rest), Settled(Given(Some(m))))
      case Implausible(_) => (f, Thrown)
      case Incomplete => if f.ended then (f, Settled(Given(None))) else (f.(waiting := true), Unsettled)
  }

  function AfterError(f: Framer): (Framer, Option<Settlement>) {
    (f.(failed := true, ended := true, waiting := false), if f.waiting then Some(Failed) else None)
  }

  function AfterData(f: Framer, chunk: Bytes): (Framer, Option<Settlement>) {
    var g := f.(buffer := f.buffer + chunk);
    if !f.waiting then (g, None)
    else
      match Next(g.startup, g.buffer)
      case Framed(m, rest) => (g.(buffer := rest, waiting := false), Some(Given(Some(m))))
      case Implausible(_) => AfterError(g)
      case Incomplete => (g, None)
  }

  function AfterEnd(f: Framer): (Framer, Option<Settlement>) {
    if f.ended then (f, None)
    else (f.(ended := true, waiting := false), if f.waiting then Some(Given(None)) else None)
  }

  function Detached(f: Framer): (Framer, Bytes) {
    if f.detached then (f, []) else (f.(detached := true, buffer := []), f.buffer)
  }

  // ---------- FramedStream as it is written

  class FramedStream {
    const reader: MessageReader
    var waiting: bool
    var ended: bool
    var failed: bool
    var detached: bool

    constructor (startupPhase: bool)
      ensures fresh(reader) && View() == NewFramer(startupPhase)
    {
      reader := new MessageReader(startupPhase);
      waiting, ended, failed, detached := false, false, false, false;
    }

    ghost function View(): Framer
      reads this, reader
    {
      Framer(reader.startupPhase, reader.buffer, waiting, ended, failed, detached)
    }

    method NextMessage() returns (r: Pull)
      modifies this, reader
      ensures (View(), r) == Pulled(old(View()))
    {
      if failed { return Settled(Failed); }
      var ready := reader.TakeNext();
      if ready.ProtocolError? { return Thrown; }
      if ready.Message? { return Settled(Given(Some(ready.message))); }
      if ended { return Settled(Given(None)); }
      waiting := true;
      return Unsettled;
    }

    method Detach() returns (pending: Bytes)
      modifies this, reader
      ensures (View(), pending) == Detached(old(View()))
    {
      if detached { return []; }
      detached := true;
      pending := reader.TakeAll();
    }

    method OnData(chunk: Bytes) returns (s: Option<Settlement>)
      modifies this, reader
      ensures (View(), s) == AfterData(old(View()), chunk)
    {
      reader.Push(chunk);
      if !waiting { return None; }
      var message := reader.TakeNext();
      if message.ProtocolError? {
        s := OnError();
        return;
      }
      if message.NoMessage? { return None; }
      waiting := false;
      return Some(Given(Some(message.message)));
    }

    method OnEnd() returns (s: Option<Settlement>)
      modifies this
      ensures (View(), s) == AfterEnd(old(View()))
    {
      if ended { return None; }
      ended := true;
      s := if waiting then Some(Given(None)) else None;
      waiting := false;
    }

    method OnError() returns (s: Option<Settlement>)
      modifies this
      ensures (View(), s) == AfterError(old(View()))
    {
      failed, ended := true, true;
      s := if waiting then Some(Failed) else None;
      waiting := false;
    }
  }

  // ---------- From the backend to the client

  /**
   * `received` is everything the backend has sent, `toClient` everything written to the client,
   * `written` the messages among it that the loop forwarded one by one.
   */
  datatype Leg = Leg(framer: Framer, inFlight: Option<Settlement>, piped: bool,
                     received: Bytes, toClient: Bytes, written: seq<RawMessage>)

  datatype Happening = Chunk(bytes: Bytes) | End | Error | Resume

  /** Leave the loop: detach, write what is left, pipe from here on. */
  function Pipe(leg: Leg): Leg {
    var (f, pending) := Detached(leg.framer);
    leg.(framer := f, inFlight := None, piped := true, toClient := leg.toClient + pending)
  }

  /** `await backendFramed.next()`. */
  function Ask(leg: Leg): Leg {
    var (f, pull) := Pulled(leg.framer);
    match pull
    case Settled(s) => leg.(framer := f, inFlight := Some(s))
    case Unsettled => leg.(framer := f)
    case Thrown => Pipe(leg.(framer := f))
  }

  /** Forwarding a message; a BackendKeyData too short for its key throws out of the loop. */
  function Forward(leg: Leg, m: RawMessage): Leg {
    var sent := leg.(inFlight := None, toClient := leg.toClient + m.raw, written := leg.written + [m]);
    if m.kind == Some(BACKEND_KEY_DATA) && |m.payload| < 8 then Pipe(sent)
    else if m.kind == Some(READY_FOR_QUERY) then Pipe(sent)
    else Ask(sent)
  }

  function Continue(leg: Leg, s: Settlement): Leg {
    if s.Given? && s.message.Some? then Forward(leg, s.message.value) else Pipe(leg)
  }

  function Settle(leg: Leg, r: (Framer, Option<Settlement>)): Leg {
    leg.(framer := r.0, inFlight := if r.1.Some? then r.1 else leg.inFlight)
  }

  function Step(leg: Leg, h: Happening): Leg {
    match h
    case Chunk(bytes) =>
      var next := leg.(received := leg.received + bytes);
      if leg.piped then next.(toClient := leg.toClient + bytes)
      else Settle(next, AfterData(leg.framer, bytes))
    case End => if leg.piped then leg else Settle(leg, AfterEnd(leg.framer))
    case Error => if leg.piped then leg else Settle(leg, AfterError(leg.framer))
    case Resume => if leg.inFlight.Some? then Continue(leg, leg.inFlight.value) else leg
  }

  function Run(leg: Leg, hs: seq<Happening>): Leg
    decreases |hs|
  {
    if hs == [] then leg else Run(Step(leg, hs[0]), hs[1..])
  }

  function Start(): Leg { Ask(Leg(NewFramer(false), None, false, [], [], [])) }

  function Flying(leg: Leg): seq<RawMessage> {
    if leg.inFlight.Some? && leg.inFlight.value.Given? && leg.inFlight.value.message.Some?
    then [leg.inFlight.value.message.value] else []
  }

  /** Bytes taken from the backend and not yet written: one message in flight, then the buffer. */
  function Withheld(leg: Leg): Bytes { Raws(Flying(leg)) + leg.framer.buffer }

  predicate NoReady(ms: seq<RawMessage>) { forall m :: m in ms ==> m.kind != Some(READY_FOR_QUERY) }

  predicate Looping(leg: Leg) {
    && !leg.framer.detached && !leg.framer.startup
    && (leg.framer.waiting <==> leg.inFlight.None?)
    && (leg.framer.waiting ==> !leg.framer.ended && !leg.framer.failed && Next(false, leg.framer.buffer).Incomplete?)
    && (leg.framer.failed ==> leg.framer.ended)
    && NoReady(leg.written)
  }

  predicate Piped(leg: Leg) {
    && leg.framer.detached && leg.framer.buffer == [] && leg.inFlight.None?
    && (leg.written != [] ==> NoReady(leg.written[..|leg.written| - 1]))
  }

  function Prepend(ms: seq<RawMessage>, d: Frames): Frames { d.(messages := ms + d.messages) }

  /** Framing the whole stream gives the messages forwarded, the one in flight, and the buffer's. */
  predicate InStep(leg: Leg) {
    FrameAll(false, leg.received) == Prepend(leg.written + Flying(leg), FrameAll(false, leg.framer.buffer))
  }

  predicate Forwarded(leg: Leg) { leg.written <= FrameAll(false, leg.received).messages }

  ghost predicate Inv(leg: Leg) {
    && leg.toClient + Withheld(leg) == leg.received
    && (if leg.piped then Piped(leg) && Forwarded(leg) else Looping(leg) && InStep(leg))
  }

  lemma RawsOne(m: RawMessage)
    ensures Raws([m]) == m.raw
  {
    assert [m][1..] == [];
  }

  lemma InStepForwards(leg: Leg)
    requires InStep(leg)
    ensures Forwarded(leg)
  {
  }

  lemma FrameStep(buffer: Bytes)
    requires Next(false, buffer).Framed?
    ensures var f := Next(false, buffer);
            FrameAll(false, buffer) == Prepend([f.message], FrameAll(false, f.rest))
  {
  }

  lemma PrependTwice(a: seq<RawMessage>, b: seq<RawMessage>, d: Frames)
    ensures Prepend(a, Prepend(b, d)) == Prepend(a + b, d)
    ensures Prepend(a + [], d) == Prepend(a, d)
  {
    ConcatAssoc(a, b, d.messages);
    assert a + [] == a;
  }

  lemma PipeKeepsInv(leg: Leg)
    requires !leg.framer.detached && leg.toClient + leg.framer.buffer == leg.received
    requires Forwarded(leg)
    requires leg.written != [] ==> NoReady(leg.written[..|leg.written| - 1])
    ensures Inv(Pipe(leg))
  {
    hide FrameAll;
    var next := Pipe(leg);
    assert Withheld(next) == [];
  }

  /** Between two messages: nothing in flight, nobody waiting, the loop about to ask again. */
  predicate Between(leg: Leg) {
    && !leg.piped && leg.inFlight.None? && !leg.framer.waiting && !leg.framer.detached && !leg.framer.startup
    && (leg.framer.failed ==> leg.framer.ended)
    && leg.toClient + leg.framer.buffer == leg.received
    && FrameAll(false, leg.received) == Prepend(leg.written, FrameAll(false, leg.framer.buffer))
  }

  lemma AskWithoutMessage(leg: Leg)
    requires Between(leg) && NoReady(leg.written)
    requires leg.framer.failed || Next(false, leg.framer.buffer).Incomplete?
    ensures Inv(Ask(leg))
  {
    hide FrameAll;
    var next := Ask(leg);
    PrependTwice(leg.written, [], FrameAll(false, leg.framer.buffer));
    assert Flying(next) == [] && Withheld(next) == leg.framer.buffer;
  }

  /** A message leaves the buffer and is in flight. */
  lemma TakeKeepsInv(leg: Leg, m: RawMessage, rest: Bytes)
    requires !leg.piped && !leg.framer.detached && !leg.framer.startup && NoReady(leg.written)
    requires leg.framer.failed ==> leg.framer.ended
    requires leg.toClient + leg.framer.buffer == leg.received
    requires FrameAll(false, leg.received) == Prepend(leg.written, FrameAll(false, leg.framer.buffer))
    requires Next(false, leg.framer.buffer) == Framed(m, rest)
    ensures Inv(leg.(framer := leg.framer.(buffer := rest, waiting := false), inFlight := Some(Given(Some(m)))))
  {
    FrameStep(leg.framer.buffer);
    hide FrameAll;
    var next := leg.(framer := leg.framer.(buffer := rest, waiting := false), inFlight := Some(Given(Some(m))));
    RawsOne(m);
    PrependTwice(leg.written, [m], FrameAll(false, rest));
    assert Flying(next) == [m] && Withheld(next) == leg.framer.buffer;
  }

  lemma AskKeepsInv(leg: Leg)
    requires Between(leg) && NoReady(leg.written)
    ensures Inv(Ask(leg))
  {
    hide FrameAll;
    var f := Next(false, leg.framer.buffer);
    if leg.framer.failed || f.Incomplete? {
      AskWithoutMessage(leg);
    } else if f.Framed? {
      TakeKeepsInv(leg, f.message, f.rest);
    } else {
      PrefixOfPrepend(leg);
      PipeKeepsInv(leg);
    }
  }

  lemma PrefixOfPrepend(leg: Leg)
    requires FrameAll(false, leg.received) == Prepend(leg.written, FrameAll(false, leg.framer.buffer))
    ensures Forwarded(leg)
  {
  }

  lemma ForwardKeepsInv(leg: Leg, m: RawMessage)
    requires Inv(leg) && !leg.piped && leg.inFlight == Some(Given(Some(m)))
    ensures Inv(Forward(leg, m))
  {
    hide FrameAll;
    var sent := leg.(inFlight := None, toClient := leg.toClient + m.raw, written := leg.written + [m]);
    RawsOne(m);
    ConcatAssoc(leg.toClient, m.raw, leg.framer.buffer);
    assert sent.written[..|sent.written| - 1] == leg.written;
    assert Between(sent);
    if m.kind == Some(READY_FOR_QUERY) || (m.kind == Some(BACKEND_KEY_DATA) && |m.payload| < 8) {
      PrefixOfPrepend(sent);
      PipeKeepsInv(sent);
    } else {
      AskKeepsInv(sent);
    }
  }

  lemma ResumeKeepsInv(leg: Leg)
    requires Inv(leg)
    ensures Inv(Step(leg, Resume))
  {
    if leg.inFlight.Some? {
      var s := leg.inFlight.value;
      if s.Given? && s.message.Some? {
        ForwardKeepsInv(leg, s.message.value);
      } else {
        InStepForwards(leg);
        assert Flying(leg) == [] && Withheld(leg) == leg.framer.buffer;
        PipeKeepsInv(leg);
      }
    }
  }

  lemma WrittenStaysPrefix(leg: Leg, chunk: Bytes)
    requires Forwarded(leg)
    ensures leg.written <= FrameAll(false, leg.received + chunk).messages
  {
    FrameSplit(false, leg.received, chunk);
  }

  /** A chunk extends the framing of the whole stream and of the buffer alike. */
  lemma ChunkInStep(leg: Leg, chunk: Bytes)
    requires InStep(leg)
    ensures FrameAll(false, leg.received + chunk) ==
            Prepend(leg.written + Flying(leg), FrameAll(false, leg.framer.buffer + chunk))
  {
    FrameSplit(false, leg.received, chunk);
    FrameSplit(false, leg.framer.buffer, chunk);
    hide FrameAll;
    var a, b := FrameAll(false, leg.received), FrameAll(false, leg.framer.buffer);
    ConcatAssoc(leg.written + Flying(leg), b.messages, FrameAll(false, b.rest + chunk).messages);
  }

  /** The leg once a chunk is in the buffer and no waiter has looked at it. */
  function Pushed(leg: Leg, chunk: Bytes): Leg {
    leg.(received := leg.received + chunk, framer := leg.framer.(buffer := leg.framer.buffer + chunk))
  }

  lemma PushConserves(leg: Leg, chunk: Bytes)
    requires leg.toClient + Withheld(leg) == leg.received
    ensures Pushed(leg, chunk).toClient + Withheld(Pushed(leg, chunk)) == Pushed(leg, chunk).received
  {
    ConcatAssoc(leg.toClient, Withheld(leg), chunk);
    ConcatAssoc(Raws(Flying(leg)), leg.framer.buffer, chunk);
  }

  lemma ChunkFindsMessage(leg: Leg, chunk: Bytes)
    requires Inv(leg) && !leg.piped && leg.framer.waiting
    requires Next(false, leg.framer.buffer + chunk).Framed?
    ensures Inv(Step(leg, Chunk(chunk)))
  {
    ChunkInStep(leg, chunk);
    PushConserves(leg, chunk);
    hide FrameAll;
    var p := Pushed(leg, chunk);
    assert Flying(leg) == [] && Withheld(p) == p.framer.buffer;
    PrependTwice(leg.written, [], FrameAll(false, p.framer.buffer));
    var f := Next(false, p.framer.buffer);
    TakeKeepsInv(p, f.message, f.rest);
  }

  lemma ChunkFindsNone(leg: Leg, chunk: Bytes)
    requires Inv(leg) && !leg.piped && leg.framer.waiting
    requires !Next(false, leg.framer.buffer + chunk).Framed?
    ensures Inv(Step(leg, Chunk(chunk)))
  {
    ChunkInStep(leg, chunk);
    PushConserves(leg, chunk);
    hide FrameAll, Next;
    var p, next := Pushed(leg, chunk), Step(leg, Chunk(chunk));
    assert next.framer.buffer == p.framer.buffer && Flying(next) == Flying(leg) == [];
    assert Withheld(next) == Withheld(p);
  }

  lemma ChunkKeepsInv(leg: Leg, chunk: Bytes)
    requires Inv(leg)
    ensures Inv(Step(leg, Chunk(chunk)))
  {
    hide FrameAll, Next, Step;
    if leg.piped {
      PipedChunkKeepsInv(leg, chunk);
    } else if leg.framer.waiting {
      if Next(false, leg.framer.buffer + chunk).Framed? {
        ChunkFindsMessage(leg, chunk);
      } else {
        ChunkFindsNone(leg, chunk);
      }
    } else {
      BusyChunkKeepsInv(leg, chunk);
    }
  }

  lemma PipedChunkKeepsInv(leg: Leg, chunk: Bytes)
    requires Inv(leg) && leg.piped
    ensures Inv(Step(leg, Chunk(chunk)))
  {
    WrittenStaysPrefix(leg, chunk);
    hide FrameAll, Next;
    var next := Step(leg, Chunk(chunk));
    assert Withheld(leg) == [] && Withheld(next) == [];
    assert leg.toClient == leg.received && next.toClient + [] == next.toClient;
  }

  lemma BusyChunkKeepsInv(leg: Leg, chunk: Bytes)
    requires Inv(leg) && !leg.piped && !leg.framer.waiting
    ensures Inv(Step(leg, Chunk(chunk)))
  {
    ChunkInStep(leg, chunk);
    PushConserves(leg, chunk);
    hide FrameAll;
    assert Step(leg, Chunk(chunk)) == Pushed(leg, chunk);
  }

  lemma EndKeepsInv(leg: Leg)
    requires Inv(leg)
    ensures Inv(Step(leg, End)) && Inv(Step(leg, Error))
  {
    hide FrameAll;
    assert Withheld(Step(leg, End)) == Withheld(leg) && Withheld(Step(leg, Error)) == Withheld(leg);
  }

  lemma StepKeepsInv(leg: Leg, h: Happening)
    requires Inv(leg)
    ensures Inv(Step(leg, h))
  {
    match h
    case Chunk(bytes) => ChunkKeepsInv(leg, bytes);
    case End => EndKeepsInv(leg);
    case Error => EndKeepsInv(leg);
    case Resume => ResumeKeepsInv(leg);
  }

  lemma {:induction false} RunKeepsInv(leg: Leg, hs: seq<Happening>)
    requires Inv(leg)
    ensures Inv(Run(leg, hs))
    decreases |hs|
  {
    if hs != [] {
      StepKeepsInv(leg, hs[0]);
      RunKeepsInv(Step(leg, hs[0]), hs[1..]);
    }
  }

  lemma StartIsSound()
    ensures Inv(Start())
  {
    var leg := Leg(NewFramer(false), None, false, [], [], []);
    assert [] + FrameAll(false, []).messages == [];
    AskKeepsInv(leg);
  }

  /** What the backend sent in a run. */
  function SentBy(hs: seq<Happening>): Bytes {
    if hs == [] then [] else (if hs[0].Chunk? then hs[0].bytes else []) + SentBy(hs[1..])
  }

  lemma {:induction false} ReceivedIsSent(leg: Leg, hs: seq<Happening>)
    ensures Run(leg, hs).received == leg.received + SentBy(hs)
    decreases |hs|
  {
    if hs != [] {
      ReceivedIsSent(Step(leg, hs[0]), hs[1..]);
      assert Step(leg, hs[0]).received == leg.received + (if hs[0].Chunk? then hs[0].bytes else []);
    }
  }

  /**
   * However the backend's bytes are cut, and whenever it ends or fails: the client has been
   * written a prefix of them, all of them once piped, and while the loop is idle nothing is
   * held back but the beginning of one message.
   */
  lemma RelayIsTransparent(hs: seq<Happening>)
    ensures var leg := Run(Start(), hs);
            && leg.toClient + Withheld(leg) == SentBy(hs)
            && (leg.piped ==> leg.toClient == SentBy(hs))
            && (!leg.piped && leg.inFlight.None? ==>
                  Withheld(leg) == leg.framer.buffer && Next(false, leg.framer.buffer).Incomplete?)
  {
    StartIsSound();
    RunKeepsInv(Start(), hs);
    ReceivedIsSent(Start(), hs);
  }

  /** Framing lasts until the first ReadyForQuery: what is forwarded before it is the stream's own messages. */
  lemma FramedUntilReady(hs: seq<Happening>)
    ensures var leg := Run(Start(), hs);
            && leg.written <= FrameAll(false, SentBy(hs)).messages
            && (!leg.piped ==> NoReady(leg.written))
            && (leg.written != [] ==> NoReady(leg.written[..|leg.written| - 1]))
  {
    hide FrameAll;
    StartIsSound();
    RunKeepsInv(Start(), hs);
    ReceivedIsSent(Start(), hs);
    assert Start().received == [] && [] + SentBy(hs) == SentBy(hs);
    if !Run(Start(), hs).piped { InStepForwards(Run(Start(), hs)); }
    ReceivedIsSent(Start(), hs);
  }

  // ---------- Once no event is pending

  /** How much the loop still has to do: what is in flight, then the bytes in the buffer. */
  function Work(leg: Leg): nat {
    3 * |leg.framer.buffer| + (if leg.inFlight.None? then 0 else if Flying(leg) == [] then 1 else 2)
  }

  lemma ResumeWorks(leg: Leg)
    requires leg.inFlight.Some?
    ensures Work(Step(leg, Resume)) < Work(leg)
    ensures Step(leg, Resume).received == leg.received
    ensures Step(leg, Resume).framer.ended == leg.framer.ended
  {
  }

  /** Running continuations until none is pending. */
  function Quiesced(leg: Leg): Leg
    decreases Work(leg)
  {
    if leg.inFlight.None? then leg
    else
      ResumeWorks(leg);
      Quiesced(Step(leg, Resume))
  }

  lemma {:induction false} QuiescedIsSound(leg: Leg)
    requires Inv(leg)
    ensures var q := Quiesced(leg);
            Inv(q) && q.inFlight.None? && q.received == leg.received && q.framer.ended == leg.framer.ended
    decreases Work(leg)
  {
    if leg.inFlight.Some? {
      ResumeWorks(leg);
      ResumeKeepsInv(leg);
      QuiescedIsSound(Step(leg, Resume));
    }
  }

  /**
   * When the loop has caught up it has either let go, with every byte written, or is waiting on a
   * live backend that has sent whole messages, none of them ReadyForQuery, and part of another.
   */
  lemma CaughtUp(hs: seq<Happening>)
    ensures var q := Quiesced(Run(Start(), hs));
            if q.piped then q.toClient == SentBy(hs)
            else
              && !Run(Start(), hs).framer.ended
              && q.written == FrameAll(false, SentBy(hs)).messages && NoReady(q.written)
              && q.toClient + FrameAll(false, SentBy(hs)).rest == SentBy(hs)
  {
    var leg := Run(Start(), hs);
    StartIsSound();
    RunKeepsInv(Start(), hs);
    ReceivedIsSent(Start(), hs);
    assert Start().received == [] && [] + SentBy(hs) == SentBy(hs);
    QuiescedIsSound(leg);
    CaughtUpWaiting(Quiesced(leg));
  }

  lemma CaughtUpWaiting(q: Leg)
    requires Inv(q) && q.inFlight.None?
    ensures if q.piped then q.toClient == q.received
            else
              && !q.framer.ended
              && q.written == FrameAll(false, q.received).messages && NoReady(q.written)
              && q.toClient + FrameAll(false, q.received).rest == q.received
  {
    assert Withheld(q) == q.framer.buffer;
    if !q.piped {
      assert FrameAll(false, q.framer.buffer) == Frames([], q.framer.buffer, false);
      assert q.written + [] + [] == q.written;
    }
  }

  // ---------- The relay loop as it is written

  class BackendRelay {
    const framed: FramedStream
    var inFlight: Option<Settlement>
    var piped: bool
    var toClient: Bytes
    ghost var received: Bytes
    ghost var written: seq<RawMessage>

    constructor ()
      ensures fresh(framed) && fresh(framed.reader) && View() == Start()
    {
      framed := new FramedStream(false);
      inFlight, piped, toClient, received, written := None, false, [], [], [];
      new;
      CallNext();
    }

    ghost function View(): Leg
      reads this, framed, framed.reader
    {
      Leg(framed.View(), inFlight, piped, received, toClient, written)
    }

    method LeaveLoop()
      modifies this, framed, framed.reader
      ensures View() == Pipe(old(View()))
    {
      var pending := framed.Detach();
      toClient := toClient + pending;
      inFlight, piped := None, true;
    }

    method CallNext()
      modifies this, framed, framed.reader
      ensures View() == Ask(old(View()))
    {
      var pull := framed.NextMessage();
      match pull
      case Settled(s) => inFlight := Some(s);
      case Unsettled =>
      case Thrown => LeaveLoop();
    }

    method OnBackendData(chunk: Bytes)
      modifies this, framed, framed.reader
      ensures View() == Step(old(View()), Chunk(chunk))
    {
      received := received + chunk;
      if piped {
        toClient := toClient + chunk;
      } else {
        var settled := framed.OnData(chunk);
        if settled.Some? { inFlight := settled; }
      }
    }

    method OnBackendEnd()
      modifies this, framed
      ensures View() == Step(old(View()), End)
    {
      if !piped {
        var settled := framed.OnEnd();
        if settled.Some? { inFlight := settled; }
      }
    }

    method OnBackendError()
      modifies this, framed
      ensures View() == Step(old(View()), Error)
    {
      if !piped {
        var settled := framed.OnError();
        if settled.Some? { inFlight := settled; }
      }
    }

    /** The loop body from one await to the next. */
    method OnSettled()
      modifies this, framed, framed.reader
      ensures View() == Step(old(View()), Resume)
    {
      if inFlight.None? { return; }
      var s := inFlight.value;
      if s.Failed? || s.message.None? {
        LeaveLoop();
        return;
      }
      var message := s.message.value;
      inFlight := None;
      toClient := toClient + message.raw;
      written := written + [message];
      if message.kind == Some(BACKEND_KEY_DATA) && |message.payload| < 8 {
        LeaveLoop();
        return;
      }
      if message.kind == Some(READY_FOR_QUERY) {
        LeaveLoop();
        return;
      }
      CallNext();
    }
  }

  // ---------- From the client to the backend

  const PROTOCOL_VERSION_3: int := 196608

  /** `"user"`. */
  const USER: Bytes := [0x75, 0x73, 0x65, 0x72]

  /** `{ ...parameters, user: role }`: an own key keeps its place, a new one goes last. */
  function WithUser(entries: seq<Entry>, role: Bytes): seq<Entry> {
    if entries == [] then [Entry(USER, role)]
    else if entries[0].key == USER then [Entry(USER, role)] + entries[1..]
    else [entries[0]] + WithUser(entries[1..], role)
  }

  predicate Object(entries: seq<Entry>) {
    && (forall e :: e in entries ==> Printable(e))
    && (forall i, j :: 0 <= i < j < |entries| ==> entries[i].key != entries[j].key)
  }

  lemma {:induction false} WithUserIsObject(entries: seq<Entry>, role: Bytes)
    requires Object(entries) && 0 !in role
    ensures Object(WithUser(entries, role))
    ensures forall e :: e in WithUser(entries, role) ==> e.key == USER || e in entries
  {
    var out := WithUser(entries, role);
    if entries != [] && entries[0].key != USER {
      var rest := entries[1..];
      assert forall i :: 0 <= i < |rest| ==> rest[i].key != entries[0].key;
      WithUserIsObject(rest, role);
      assert forall e :: e in WithUser(rest, role) ==> e.key != entries[0].key;
      assert out[1..] == WithUser(rest, role);
    }
  }

  lemma {:induction false} WithUserSets(entries: seq<Entry>, role: Bytes, p: Parameters)
    requires Object(entries)
    ensures AsParameters(WithUser(entries, role), p) == AsParameters(entries, p)[USER := role]
    decreases |entries|
  {
    var out := WithUser(entries, role);
    if entries == [] {
      assert out[1..] == [];
    } else if entries[0].key == USER {
      assert out[1..] == entries[1..];
      LaterEntriesCommute(entries[1..], p, entries[0].value, role);
    } else {
      assert out[1..] == WithUser(entries[1..], role);
      WithUserSets(entries[1..], role, p[entries[0].key := entries[0].value]);
    }
  }

  lemma {:induction false} LaterEntriesCommute(entries: seq<Entry>, p: Parameters, was: Bytes, role: Bytes)
    requires forall e :: e in entries ==> e.key != USER
    ensures AsParameters(entries, p[USER := role]) == AsParameters(entries, p[USER := was])[USER := role]
    decreases |entries|
  {
    if entries == [] {
      assert p[USER := role] == p[USER := was][USER := role];
    } else {
      var e := entries[0];
      assert e.key != USER;
      assert p[USER := role][e.key := e.value] == p[e.key := e.value][USER := role];
      assert p[USER := was][e.key := e.value] == p[e.key := e.value][USER := was];
      LaterEntriesCommute(entries[1..], p[e.key := e.value], was, role);
    }
  }

  /** Parameters that were parsed can be printed. */
  lemma {:induction false} ParsedIsPrintable(body: Bytes, offset: nat, p: Parameters, k: Bytes)
    requires forall e :: e in p ==> Printable(Entry(e, p[e]))
    requires ReadParameters(body, offset, p).Parsed? && k in ReadParameters(body, offset, p).value
    ensures Printable(Entry(k, ReadParameters(body, offset, p).value[k]))
    decreases |body| - offset
  {
    hide IndexOfNul;
    if offset < |body| {
      var keyEnd := IndexOfNul(body, offset);
      if keyEnd.Some? && keyEnd.value > offset {
        var valueEnd := IndexOfNul(body, keyEnd.value + 1).value;
        var key, value := body[offset..keyEnd.value], body[keyEnd.value + 1..valueEnd];
        assert key != PROTO ==> Printable(Entry(key, value));
        ParsedIsPrintable(body, valueEnd + 1, SetParameter(p, key, value), k);
      }
    }
  }

  /** The backend reads the client's own parameters with only the role replaced. */
  lemma BackendReadsTheRole(entries: seq<Entry>, role: Bytes)
    requires Object(entries) && 0 !in role && IsInt32(9 + |PrintEntries(WithUser(entries, role))|)
    ensures StartupPacketOf(StartupPacketBytes(PROTOCOL_VERSION_3, WithUser(entries, role))[4..]) ==
            Parsed(StartupPacket(PROTOCOL_VERSION_3, AsParameters(entries, map[])[USER := role], None))
  {
    WithUserIsObject(entries, role);
    WithUserSets(entries, role, map[]);
    ParseUndoesEncode(PROTOCOL_VERSION_3, WithUser(entries, role));
  }

  /**
   * The client side once its StartupMessage has been read; `received` is what the client has
   * sent since, `toBackend` everything written to the backend.
   */
  datatype ClientLeg = ClientLeg(framer: Framer, connected: bool, received: Bytes, toBackend: Bytes)

  datatype ClientEvent = ClientSends(bytes: Bytes) | ClientEnds | ClientFails | Connected

  function ClientStep(leg: ClientLeg, packet: Bytes, e: ClientEvent): ClientLeg {
    match e
    case ClientSends(bytes) =>
      var next := leg.(received := leg.received + bytes);
      if leg.connected then next.(toBackend := leg.toBackend + bytes)
      else next.(framer := AfterData(leg.framer, bytes).0)
    case ClientEnds => if leg.connected then leg else leg.(framer := AfterEnd(leg.framer).0)
    case ClientFails => if leg.connected then leg else leg.(framer := AfterError(leg.framer).0)
    case Connected =>
      if leg.connected then leg
      else
        var (f, pending) := Detached(leg.framer);
        leg.(framer := f, connected := true, toBackend := leg.toBackend + packet + pending)
  }

  function ClientRun(leg: ClientLeg, packet: Bytes, es: seq<ClientEvent>): ClientLeg
    decreases |es|
  {
    if es == [] then leg else ClientRun(ClientStep(leg, packet, es[0]), packet, es[1..])
  }

  predicate ClientInv(leg: ClientLeg, packet: Bytes) {
    if leg.connected then leg.toBackend == packet + leg.received
    else
      && leg.toBackend == [] && leg.framer.buffer == leg.received
      && !leg.framer.waiting && !leg.framer.detached
  }

  lemma {:induction false} ClientRunKeepsInv(leg: ClientLeg, packet: Bytes, es: seq<ClientEvent>)
    requires ClientInv(leg, packet)
    ensures ClientInv(ClientRun(leg, packet, es), packet)
    decreases |es|
  {
    if es != [] {
      ClientStepKeepsInv(leg, packet, es[0]);
      ClientRunKeepsInv(ClientStep(leg, packet, es[0]), packet, es[1..]);
    }
  }

  lemma ClientStepKeepsInv(leg: ClientLeg, packet: Bytes, e: ClientEvent)
    requires ClientInv(leg, packet)
    ensures ClientInv(ClientStep(leg, packet, e), packet)
  {
    if e.ClientSends? { ConcatAssoc(packet, leg.received, e.bytes); }
    if e.Connected? { assert [] + packet == packet; }
  }

  /** What the client sent in a run. */
  function SentByClient(es: seq<ClientEvent>): Bytes {
    if es == [] then [] else (if es[0].ClientSends? then es[0].bytes else []) + SentByClient(es[1..])
  }

  lemma {:induction false} ClientReceivedIsSent(leg: ClientLeg, packet: Bytes, es: seq<ClientEvent>)
    ensures ClientRun(leg, packet, es).received == leg.received + SentByClient(es)
    ensures ClientRun(leg, packet, es).connected <==> leg.connected || Connected in es
    decreases |es|
  {
    if es != [] {
      var next := ClientStep(leg, packet, es[0]);
      ClientReceivedIsSent(next, packet, es[1..]);
      assert next.received == leg.received + (if es[0].ClientSends? then es[0].bytes else []);
      assert Connected in es <==> es[0] == Connected || Connected in es[1..];
    }
  }

  /**
   * Whatever arrived while the backend was being reached, and however it was cut: the backend is
   * written the startup packet, then every byte the client sent after its own, in order.
   */
  lemma BackendGetsTheRest(leftover: Bytes, packet: Bytes, es: seq<ClientEvent>)
    ensures var leg := ClientRun(ClientLeg(NewFramer(true).(buffer := leftover), false, leftover, []), packet, es);
            leg.toBackend == if Connected in es then packet + (leftover + SentByClient(es)) else []
  {
    var leg := ClientLeg(NewFramer(true).(buffer := leftover), false, leftover, []);
    ClientRunKeepsInv(leg, packet, es);
    ClientReceivedIsSent(leg, packet, es);
  }
}

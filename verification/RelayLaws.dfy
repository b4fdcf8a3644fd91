/** Why and when the session relay lets go of the stream, and what it writes until then. */
module RelayLaws {
  import opened Bytes
  import opened Protocol
  import opened Codecs
  import opened SessionRelay

  /** A settled promise says null only of an ended stream, and fails only on an error. */
  predicate Settles(leg: Leg) {
    && (leg.inFlight == Some(Given(None)) ==> leg.framer.ended)
    && (leg.inFlight == Some(Failed) ==> leg.framer.failed && leg.framer.ended)
  }

  predicate LastIs(leg: Leg, kind: byte) {
    leg.written != [] && leg.written[|leg.written| - 1].kind == Some(kind)
  }

  /** What stands behind the forwarded messages has a length below 4 or above 512 MiB. */
  predicate Implausibly(leg: Leg) {
    var n := |Raws(leg.written)|;
    n + 5 <= |leg.received| && !(4 <= ReadInt32BE(leg.received, n + 1) <= 536_870_912)
  }

  /** Type `Z` last, or type `K` too short for a key, the stream's end or failure, or an impossible length. */
  predicate HasReason(leg: Leg) {
    || LastIs(leg, 0x5a)
    || (LastIs(leg, 0x4b) && |leg.written[|leg.written| - 1].payload| < 8)
    || leg.framer.ended
    || Implausibly(leg)
  }

  predicate Reasoned(leg: Leg) {
    && Settles(leg)
    && (if leg.piped then HasReason(leg) else leg.toClient == Raws(leg.written))
  }

  lemma ImplausibleBehind(leg: Leg)
    requires leg.toClient + leg.framer.buffer == leg.received && leg.toClient == Raws(leg.written)
    requires Next(false, leg.framer.buffer).Implausible?
    ensures Implausibly(leg)
  {
    var n := |leg.toClient|;
    assert leg.received[n..] == leg.framer.buffer;
    assert ReadInt32BE(leg.received, n + 1) == ReadInt32BE(leg.framer.buffer, 1);
  }

  lemma AskIsReasoned(leg: Leg)
    requires !leg.piped && !leg.framer.startup && leg.inFlight.None? && leg.toClient == Raws(leg.written)
    requires leg.toClient + leg.framer.buffer == leg.received
    requires leg.framer.failed ==> leg.framer.ended
    ensures Reasoned(Ask(leg))
  {
    if Pulled(leg.framer).1.Thrown? { ImplausibleBehind(leg); }
  }

  lemma ForwardIsReasoned(leg: Leg, m: RawMessage)
    requires Inv(leg) && !leg.piped && leg.inFlight == Some(Given(Some(m))) && leg.toClient == Raws(leg.written)
    ensures Reasoned(Forward(leg, m))
  {
    hide FrameAll, Next;
    var sent := leg.(inFlight := None, toClient := leg.toClient + m.raw, written := leg.written + [m]);
    RawsOne(m);
    RawsAppend(leg.written, [m]);
    ConcatAssoc(leg.toClient, m.raw, leg.framer.buffer);
    assert sent.written[|sent.written| - 1] == m;
    if !(m.kind == Some(BACKEND_KEY_DATA) && |m.payload| < 8) && m.kind != Some(READY_FOR_QUERY) {
      AskIsReasoned(sent);
    }
  }

  lemma ChunkIsReasoned(leg: Leg, chunk: Bytes)
    requires Inv(leg) && Reasoned(leg)
    ensures Reasoned(Step(leg, Chunk(chunk)))
  {
    var next := Step(leg, Chunk(chunk));
    assert next.received == leg.received + chunk && next.written == leg.written;
    if leg.piped && Implausibly(leg) {
      var n := |Raws(leg.written)|;
      assert ReadInt32BE(next.received, n + 1) == ReadInt32BE(leg.received, n + 1);
    }
  }

  lemma StepIsReasoned(leg: Leg, h: Happening)
    requires Inv(leg) && Reasoned(leg)
    ensures Reasoned(Step(leg, h))
  {
    match h
    case Chunk(bytes) => ChunkIsReasoned(leg, bytes);
    case Resume =>
      if leg.inFlight.Some? && leg.inFlight.value.Given? && leg.inFlight.value.message.Some? {
        ForwardIsReasoned(leg, leg.inFlight.value.message.value);
      }
    case _ =>
  }

  lemma {:induction false} RunIsReasoned(leg: Leg, hs: seq<Happening>)
    requires Inv(leg) && Reasoned(leg)
    ensures Reasoned(Run(leg, hs))
    decreases |hs|
  {
    hide Step, Inv, Reasoned;
    if hs != [] {
      StepIsReasoned(leg, hs[0]);
      StepKeepsInv(leg, hs[0]);
      RunIsReasoned(Step(leg, hs[0]), hs[1..]);
    }
  }

  /** The reader takes the stream for ended when told so, or where it met an impossible length. */
  predicate EndsForAReason(leg: Leg, told: bool) {
    leg.framer.ended ==> told || (Implausibly(leg) && (leg.piped || leg.inFlight == Some(Failed)))
  }

  lemma ChunkEndsForAReason(leg: Leg, chunk: Bytes, told: bool)
    requires Inv(leg) && Reasoned(leg) && EndsForAReason(leg, told)
    ensures EndsForAReason(Step(leg, Chunk(chunk)), told)
  {
    hide FrameAll;
    var next := Step(leg, Chunk(chunk));
    var n := |Raws(leg.written)|;
    assert next.received == leg.received + chunk && next.written == leg.written;
    if Implausibly(leg) { assert ReadInt32BE(next.received, n + 1) == ReadInt32BE(leg.received, n + 1); }
    if !leg.piped && leg.framer.waiting && Next(false, leg.framer.buffer + chunk).Implausible? {
      assert Withheld(leg) == leg.framer.buffer;
      ConcatAssoc(leg.toClient, leg.framer.buffer, chunk);
      ImplausibleBehind(next);
    }
  }

  lemma StepEndsForAReason(leg: Leg, h: Happening, told: bool)
    requires Inv(leg) && Reasoned(leg) && EndsForAReason(leg, told)
    ensures EndsForAReason(Step(leg, h), told || h == End || h == Error)
  {
    hide FrameAll, Next;
    match h
    case Chunk(bytes) => ChunkEndsForAReason(leg, bytes, told);
    case _ =>
  }

  lemma {:induction false} RunEndsForAReason(leg: Leg, hs: seq<Happening>, told: bool)
    requires Inv(leg) && Reasoned(leg) && EndsForAReason(leg, told)
    ensures EndsForAReason(Run(leg, hs), told || End in hs || Error in hs)
    decreases |hs|
  {
    hide Step, Inv, Reasoned, EndsForAReason;
    if hs != [] {
      StepIsReasoned(leg, hs[0]);
      StepKeepsInv(leg, hs[0]);
      StepEndsForAReason(leg, hs[0], told);
      RunEndsForAReason(Step(leg, hs[0]), hs[1..], told || hs[0] == End || hs[0] == Error);
      assert End in hs <==> hs[0] == End || End in hs[1..];
      assert Error in hs <==> hs[0] == Error || Error in hs[1..];
    }
  }

  /**
   * On every run: until it lets go, the relay has written exactly the messages it forwarded; and it
   * lets go only behind a ReadyForQuery or a key too short to read, once the backend has ended or
   * failed, or before a length no message can have.
   */
  lemma LetsGoForAReason(hs: seq<Happening>)
    ensures var leg := Run(Start(), hs);
            if leg.piped then
              || LastIs(leg, 0x5a)
              || (LastIs(leg, 0x4b) && |leg.written[|leg.written| - 1].payload| < 8)
              || End in hs || Error in hs || Implausibly(leg)
            else leg.toClient == Raws(leg.written)
  {
    StartIsSound();
    AskIsReasoned(Leg(NewFramer(false), None, false, [], [], []));
    RunIsReasoned(Start(), hs);
    assert EndsForAReason(Start(), false);
    RunEndsForAReason(Start(), hs, false);
  }

  /** And it does let go: behind the first ReadyForQuery, and of a stream that ended. */
  lemma LetsGoWhenItMust(hs: seq<Happening>)
    ensures var q := Quiesced(Run(Start(), hs));
            LastIs(q, 0x5a) || End in hs || Error in hs || Implausibly(q) ==> q.piped
  {
    var leg := Run(Start(), hs);
    StartIsSound();
    RunKeepsInv(Start(), hs);
    QuiescedIsSound(leg);
    var q := Quiesced(leg);
    AskIsReasoned(Leg(NewFramer(false), None, false, [], [], []));
    RunIsReasoned(Start(), hs);
    QuiescedIsReasoned(leg);
    EndIsNoticed(Start(), hs);
    if !q.piped {
      WaitingIsPlausible(q);
      QuiescedWasLooping(leg);
    }
  }

  lemma StepNotices(leg: Leg, h: Happening)
    ensures leg.piped ==> Step(leg, h).piped
    ensures leg.framer.ended ==> Step(leg, h).framer.ended
    ensures h == End || h == Error ==> Step(leg, h).piped || Step(leg, h).framer.ended
  {
  }

  lemma {:induction false} EndIsNoticed(leg: Leg, hs: seq<Happening>)
    ensures var end := Run(leg, hs);
            && (leg.piped ==> end.piped) && (leg.framer.ended ==> end.piped || end.framer.ended)
            && (End in hs || Error in hs ==> end.piped || end.framer.ended)
    decreases |hs|
  {
    hide Step;
    if hs != [] {
      StepNotices(leg, hs[0]);
      EndIsNoticed(Step(leg, hs[0]), hs[1..]);
      assert End in hs <==> hs[0] == End || End in hs[1..];
      assert Error in hs <==> hs[0] == Error || Error in hs[1..];
    }
  }

  lemma {:induction false} QuiescedWasLooping(leg: Leg)
    ensures leg.piped ==> Quiesced(leg).piped
    decreases Work(leg)
  {
    if leg.inFlight.Some? {
      ResumeWorks(leg);
      StepNotices(leg, Resume);
      hide Step;
      QuiescedWasLooping(Step(leg, Resume));
    }
  }

  lemma {:induction false} QuiescedIsReasoned(leg: Leg)
    requires Inv(leg) && Reasoned(leg)
    ensures Reasoned(Quiesced(leg))
    decreases Work(leg)
  {
    hide Inv, Reasoned, Step;
    if leg.inFlight.Some? {
      ResumeWorks(leg);
      StepIsReasoned(leg, Resume);
      StepKeepsInv(leg, Resume);
      QuiescedIsReasoned(Step(leg, Resume));
    }
  }

  lemma WaitingIsPlausible(q: Leg)
    requires Inv(q) && q.inFlight.None? && !q.piped && q.toClient == Raws(q.written)
    ensures !Implausibly(q) && !q.framer.ended && !LastIs(q, 0x5a)
  {
    hide FrameAll, Raws;
    WithheldIsBuffer(q);
    BufferIsRest(q, q.toClient);
  }

  lemma WithheldIsBuffer(q: Leg)
    requires q.inFlight.None?
    ensures Withheld(q) == q.framer.buffer
  {
  }

  lemma BufferIsRest(q: Leg, front: Bytes)
    requires q.received == front + q.framer.buffer && front == Raws(q.written)
    requires Next(false, q.framer.buffer).Incomplete?
    ensures !Implausibly(q)
  {
    var n := |front|;
    assert forall i :: 0 <= i < |q.framer.buffer| ==> q.received[n + i] == q.framer.buffer[i];
    if n + 5 <= |q.received| { assert ReadInt32BE(q.received, n + 1) == ReadInt32BE(q.framer.buffer, 1); }
  }

  // ---------------------------------------------------------------------------
  // The client's side while the backend is being reached

  /** Until then the reader keeps what comes and notes an end; from then on it is empty and detached. */
  predicate Keeps(leg: ClientLeg, over: bool, failed: bool) {
    if leg.connected then leg.framer.detached && leg.framer.buffer == []
    else leg.framer.ended == over && leg.framer.failed == failed && !leg.framer.detached && !leg.framer.waiting
  }

  lemma {:induction false} ClientRunKeeps(leg: ClientLeg, packet: Bytes, es: seq<ClientEvent>, over: bool, failed: bool)
    requires Keeps(leg, over, failed)
    ensures Keeps(ClientRun(leg, packet, es), over || ClientEnds in es || ClientFails in es, failed || ClientFails in es)
    decreases |es|
  {
    if es != [] {
      ClientRunKeeps(ClientStep(leg, packet, es[0]), packet, es[1..],
                     over || es[0] == ClientEnds || es[0] == ClientFails, failed || es[0] == ClientFails);
      assert ClientEnds in es <==> es[0] == ClientEnds || ClientEnds in es[1..];
      assert ClientFails in es <==> es[0] == ClientFails || ClientFails in es[1..];
    }
  }

  /** On every run: a reader that lets go keeps nothing, and one that has not knows what the client did. */
  lemma ClientReaderIs(leftover: Bytes, packet: Bytes, es: seq<ClientEvent>)
    ensures var leg := ClientRun(ClientLeg(NewFramer(true).(buffer := leftover), false, leftover, []), packet, es);
            if Connected in es then leg.framer.detached && leg.framer.buffer == []
            else
              && leg.framer.buffer == leftover + SentByClient(es)
              && (leg.framer.ended <==> ClientEnds in es || ClientFails in es)
              && (leg.framer.failed <==> ClientFails in es)
  {
    var leg := ClientLeg(NewFramer(true).(buffer := leftover), false, leftover, []);
    ClientRunKeeps(leg, packet, es, false, false);
    ClientRunKeepsInv(leg, packet, es);
    ClientReceivedIsSent(leg, packet, es);
  }

  // ---------------------------------------------------------------------------
  // The packet the backend gets

  /** Protocol version 3.0, the client's own parameters, and `user` set to the role. */
  lemma PacketForTheRole(entries: seq<Entry>, role: Bytes, k: Bytes)
    requires Object(entries) && 0 !in role && IsInt32(9 + |PrintEntries(WithUser(entries, role))|)
    ensures var read := StartupPacketOf(StartupPacketBytes(196_608, WithUser(entries, role))[4..]);
            && read.Parsed? && read.value.code == 196_608 && read.value.cancel.None?
            && (k == [0x75, 0x73, 0x65, 0x72] ==> k in read.value.parameters && read.value.parameters[k] == role)
            && (k != [0x75, 0x73, 0x65, 0x72] ==>
                  (k in read.value.parameters <==> exists e :: e in entries && e.key == k)
                  && (forall e :: e in entries && e.key == k ==> read.value.parameters[k] == e.value))
  {
    hide StartupPacketOf, StartupPacketBytes;
    BackendReadsTheRole(entries, role);
    EntriesInMap(entries, map[], k);
  }
}

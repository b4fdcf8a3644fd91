/** No message a client sends is lost, repeated or reordered by queueing and sharing. */
module PoolerOrder {
  import opened Bytes
  import opened Protocol
  import opened PoolModel
  import opened PoolerModel
  import opened PoolerSafety

  function Settled(fates: seq<Fate>): seq<RawMessage> {
    if fates == [] then [] else [fates[0].message] + Settled(fates[1..])
  }

  /** The session's books, oldest byte first. */
  function Ledger(session: Session): Bytes {
    Raws(Settled(session.fates) + session.queued) + session.farewell + session.buffer
  }

  ghost predicate Ordered(session: Session) {
    && session.received == Ledger(session)
    && (session.farewell != [] ==> session.closed)
    && (forall m :: m in Settled(session.fates) + session.queued ==> Encodable(m))
  }

  lemma {:induction false} SettledAppend(a: seq<Fate>, b: seq<Fate>)
    ensures Settled(a + b) == Settled(a) + Settled(b)
  {
    if a == [] {
      assert a + b == b;
    } else {
      SettledAppend(a[1..], b);
      assert (a + b)[0] == a[0] && (a + b)[1..] == a[1..] + b;
      ConcatAssoc([a[0].message], Settled(a[1..]), Settled(b));
    }
  }

  lemma SettledOne(f: Fate)
    ensures Settled([f]) == [f.message]
  {
    assert Settled([f]) == [f.message] + Settled([f][1..]);
  }

  lemma {:induction false} SettledDropAll(ms: seq<RawMessage>)
    ensures Settled(DropAll(ms)) == ms
  {
    if ms != [] {
      SettledDropAll(ms[1..]);
      assert DropAll(ms)[1..] == DropAll(ms[1..]);
    }
  }

  /** Flushing moves the queue, in order, to the end of what has been forwarded. */
  lemma {:induction false} FlushKeepsOrder(d: Duo, s: SessId)
    requires d.session.holding.Some?
    ensures var e := Flush(d, s).session;
            && Settled(e.fates) + e.queued == Settled(d.session.fates) + d.session.queued
            && e.(fates := d.session.fates, queued := d.session.queued) == d.session
    decreases |d.session.queued|
  {
    var q := d.session.queued;
    if q != [] {
      var popped := d.(session := d.session.(queued := q[1..]));
      var e := Forward(popped, s, q[0]);
      var f := Forwarded(d.session.holding.value, q[0]);
      SettledAppend(d.session.fates, [f]);
      SettledOne(f);
      ConcatAssoc(Settled(d.session.fates), [q[0]], q[1..]);
      assert [q[0]] + q[1..] == q;
      FlushKeepsOrder(e, s);
    }
  }

  lemma AcceptKeepsOrder(d: Duo, s: SessId, m: RawMessage, now: int)
    requires d.session.holding.Some? ==> d.session.queued == []
    ensures var e := Accept(d, s, m, now).session;
            && Settled(e.fates) + e.queued == Settled(d.session.fates) + d.session.queued + [m]
            && e.(fates := d.session.fates, queued := d.session.queued, acquiring := d.session.acquiring) == d.session
  {
    if d.session.holding.Some? {
      var f := Forwarded(d.session.holding.value, m);
      SettledAppend(d.session.fates, [f]);
      SettledOne(f);
    }
  }

  lemma RawsSnoc(ms: seq<RawMessage>, m: RawMessage)
    ensures Raws(ms + [m]) == Raws(ms) + m.raw
  {
    RawsAppend(ms, [m]);
    assert Raws([m]) == m.raw + Raws([m][1..]);
  }

  /** One framed message moves from the wire to the books. */
  lemma BookingKeepsOrder(a: Session, b: Session, m: RawMessage)
    requires Ordered(a) && a.farewell == [] && Encodable(m)
    requires a.buffer == m.raw + b.buffer
    requires Settled(b.fates) + b.queued == Settled(a.fates) + a.queued + [m]
    requires b.farewell == [] && b.received == a.received
    ensures Ordered(b)
  {
    var before := Settled(a.fates) + a.queued;
    ConcatAssoc(Raws(before), m.raw, b.buffer);
    RawsSnoc(before, m);
  }

  lemma FarewellKeepsOrder(a: Session, b: Session, m: RawMessage)
    requires Ordered(a) && a.farewell == []
    requires a.buffer == m.raw + b.buffer
    requires b.fates == a.fates && b.queued == a.queued
    requires b.farewell == m.raw && b.received == a.received && b.closed
    ensures Ordered(b)
  {
    ConcatAssoc(Raws(Settled(a.fates) + a.queued), m.raw, b.buffer);
  }

  lemma {:induction false} PumpKeepsOrder(d: Duo, s: SessId, now: int, others: set<ConnId>)
    requires DuoInv(d, s, others) && Ordered(d.session)
    ensures Ordered(Pump(d, s, now).session)
    decreases |d.session.buffer|
  {
    var f := Next(false, d.session.buffer);
    if !d.session.closed && f.Framed? {
      var m := f.message;
      var e := d.(session := d.session.(buffer := f.rest));
      if m.kind == Some(TERMINATE) {
        FarewellKeepsOrder(d.session, Teardown(e.(session := e.session.(farewell := m.raw))).session, m);
      } else {
        assert DuoInv(e, s, others);
        var g := Accept(e, s, m, now);
        AcceptKeepsOrder(e, s, m, now);
        FramedIsEncodable(d.session.buffer);
        BookingKeepsOrder(d.session, g.session, m);
        AcceptKeeps(e, s, m, now, others);
        PumpKeepsOrder(g, s, now, others);
      }
    }
  }

  lemma DeniedKeepsOrder(d: Duo)
    requires Ordered(d.session)
    ensures Ordered(Denied(d).session)
  {
    SettledAppend(d.session.fates, DropAll(d.session.queued));
    SettledDropAll(d.session.queued);
    var e := Denied(d).session;
    assert Settled(e.fates) + e.queued == Settled(d.session.fates) + d.session.queued;
  }

  ghost predicate OrderInv(sys: System) {
    SystemInv(sys) && forall s :: s in sys.sessions ==> Ordered(sys.sessions[s])
  }

  lemma GrantedKeepsOrder(d: Duo, s: SessId, c: ConnId, now: int)
    requires Ordered(d.session)
    ensures Ordered(Granted(d, s, c, now).session)
  {
    if !d.session.closed {
      FlushKeepsOrder(Duo(WithConn(d.pool, c, Conn(d.pool, c).(handler := Some(s))),
                          d.session.(holding := Some(c))), s);
    }
  }

  lemma ResumedKeepsOrder(d: Duo, s: SessId, now: int)
    requires Ordered(d.session) && ForSession(s) in d.pool.promises
    ensures Ordered(SessionResumed(d, s, now).session)
  {
    var spent := d.(pool := Spend(d.pool, ForSession(s)));
    match d.pool.promises[ForSession(s)]
    case Ready(c) => GrantedKeepsOrder(spent, s, c, now);
    case Refused => DeniedKeepsOrder(spent);
    case _ =>
  }

  lemma BytesInKeepOrder(sys: System, turn: Turn)
    requires OrderInv(sys) && (turn.event.SessionStart? || turn.event.ClientData?)
    ensures var s := turn.event.s;
            s in Step(sys, turn).sessions ==> Ordered(Step(sys, turn).sessions[s])
  {
    match turn.event
    case SessionStart(s, leftover) =>
      if s !in sys.sessions {
        FocusNew(sys, s, leftover);
        PumpKeepsOrder(Duo(sys.pool, NewSession(leftover)), s, turn.now, Others(sys, s));
      }
    case ClientData(s, chunk) =>
      if s in sys.sessions {
        var d := Pick(sys, s);
        var e := d.(session := d.session.(buffer := d.session.buffer + chunk,
                                          received := d.session.received + chunk));
        Focus(sys, s);
        var books := Raws(Settled(d.session.fates) + d.session.queued) + d.session.farewell;
        ConcatAssoc(books, d.session.buffer, chunk);
        assert Ordered(e.session);
        PumpKeepsOrder(e, s, turn.now, Others(sys, s));
      }
  }

  lemma ReplyKeepsOrder(sys: System, now: int, c: ConnId, m: RawMessage, s: SessId)
    requires s in sys.sessions && Ordered(sys.sessions[s])
    ensures var next := Step(sys, Turn(now, BackendSays(c, m)));
            s in next.sessions && Ordered(next.sessions[s])
  {
    var before, after := sys.sessions[s], Step(sys, Turn(now, BackendSays(c, m))).sessions[s];
    assert after.(written := before.written, holding := before.holding, acquiring := before.acquiring) == before;
  }

  /** Every other event leaves the books of each session balanced. */
  lemma QuietStepKeepsOrder(sys: System, turn: Turn, s: SessId)
    requires s in sys.sessions && Ordered(sys.sessions[s])
    requires !turn.event.SessionStart? && !turn.event.ClientData?
    ensures s in Step(sys, turn).sessions && Ordered(Step(sys, turn).sessions[s])
  {
    match turn.event
    case BackendSays(c, m) => ReplyKeepsOrder(sys, turn.now, c, m, s);
    case Resume(who) =>
      if who == ForSession(s) && who in sys.pool.promises {
        ResumedKeepsOrder(Pick(sys, s), s, turn.now);
      }
    case _ =>
  }

  lemma OneStepKeepsOrder(sys: System, turn: Turn, s: SessId)
    requires OrderInv(sys) && s in Step(sys, turn).sessions
    ensures Ordered(Step(sys, turn).sessions[s])
  {
    if !turn.event.SessionStart? && !turn.event.ClientData? {
      QuietStepKeepsOrder(sys, turn, s);
    } else if turn.event.s == s {
      BytesInKeepOrder(sys, turn);
    }
  }

  lemma StepKeepsOrder(sys: System, turn: Turn)
    requires OrderInv(sys)
    ensures OrderInv(Step(sys, turn))
  {
    StepKeepsInv(sys, turn);
    forall s | s in Step(sys, turn).sessions ensures Ordered(Step(sys, turn).sessions[s]) {
      OneStepKeepsOrder(sys, turn, s);
    }
  }

  /** What client `s` has put on the wire by the end of a run; None before it is accepted. */
  function ClientSent(sent: Option<Bytes>, turns: seq<Turn>, s: SessId): Option<Bytes>
    decreases |turns|
  {
    if turns == [] then sent
    else
      var next := match turns[0].event
        case SessionStart(t, leftover) => if t == s && sent.None? then Some(leftover) else sent
        case ClientData(t, chunk) => if t == s && sent.Some? then Some(sent.value + chunk) else sent
        case _ => sent;
      ClientSent(next, turns[1..], s)
  }

  function ReceivedBy(sys: System, s: SessId): Option<Bytes> {
    if s in sys.sessions then Some(sys.sessions[s].received) else None
  }

  lemma {:induction false} PumpReceivesNothing(d: Duo, s: SessId, now: int)
    ensures Pump(d, s, now).session.received == d.session.received
    decreases |d.session.buffer|
  {
    if !d.session.closed {
      var f := Next(false, d.session.buffer);
      if f.Framed? && f.message.kind != Some(TERMINATE) {
        var e := d.(session := d.session.(buffer := f.rest));
        PumpReceivesNothing(Accept(e, s, f.message, now), s, now);
      }
    }
  }

  lemma StepReceives(sys: System, turn: Turn, s: SessId)
    ensures ReceivedBy(Step(sys, turn), s) == ClientSent(ReceivedBy(sys, s), [turn], s)
  {
    assert ClientSent(ReceivedBy(sys, s), [turn], s)
        == ClientSent(ReceivedBy(Step(sys, turn), s), [turn][1..], s) by {
      match turn.event
      case SessionStart(t, leftover) =>
        PumpReceivesNothing(Duo(sys.pool, NewSession(leftover)), t, turn.now);
      case ClientData(t, chunk) =>
        if t in sys.sessions {
          var d := Pick(sys, t);
          PumpReceivesNothing(d.(session := d.session.(buffer := d.session.buffer + chunk,
                                                       received := d.session.received + chunk)), t, turn.now);
        }
      case Resume(ForSession(t)) =>
        if t == s && s in sys.sessions && ForSession(s) in sys.pool.promises
           && sys.pool.promises[ForSession(s)].Ready? {
          var c := sys.pool.promises[ForSession(s)].connection;
          var spent := Spend(sys.pool, ForSession(s));
          FlushKeepsOrder(Duo(WithConn(spent, c, Conn(spent, c).(handler := Some(s))),
                              sys.sessions[s].(holding := Some(c))), s);
        }
      case _ =>
    }
  }

  lemma {:induction false} RunKeepsOrder(sys: System, turns: seq<Turn>, s: SessId)
    requires OrderInv(sys)
    ensures OrderInv(Run(sys, turns))
    ensures ReceivedBy(Run(sys, turns), s) == ClientSent(ReceivedBy(sys, s), turns, s)
    decreases |turns|
  {
    hide Step, OrderInv, ReceivedBy;
    if turns != [] {
      StepKeepsOrder(sys, turns[0]);
      StepReceives(sys, turns[0], s);
      RunKeepsOrder(Step(sys, turns[0]), turns[1..], s);
    }
  }

  lemma {:induction false} EncodedPrefixFrames(ms: seq<RawMessage>, tail: Bytes)
    requires forall m :: m in ms ==> Encodable(m)
    ensures FrameAll(false, Raws(ms) + tail).messages == ms + FrameAll(false, tail).messages
  {
    EncodedMessagesDecode(ms);
    FrameSplit(false, Raws(ms), tail);
    assert [] + tail == tail;
  }

  /**
   * On every run and any sharing of connections: the messages session `s` handed to `send`
   * or dropped with a refused acquire, then its queue, are the framing of exactly the bytes
   * its client sent, in order; the Terminate message and unframed bytes are the rest.
   */
  lemma EveryRunKeepsOrder(size: nat, turns: seq<Turn>, s: SessId)
    requires s in Run(Start(size), turns).sessions
    ensures var session := Run(Start(size), turns).sessions[s];
            var handled := Settled(session.fates) + session.queued;
            && ClientSent(None, turns, s) == Some(Ledger(session))
            && FrameAll(false, Ledger(session)).messages
               == handled + FrameAll(false, session.farewell + session.buffer).messages
  {
    EveryRunIsExclusive(size, []);
    RunKeepsOrder(Start(size), turns, s);
    var session := Run(Start(size), turns).sessions[s];
    var handled := Settled(session.fates) + session.queued;
    EncodedPrefixFrames(handled, session.farewell + session.buffer);
    ConcatAssoc(Raws(handled), session.farewell, session.buffer);
  }
}

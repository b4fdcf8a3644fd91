/** What passes between a client and the backends: every reply, every request, and nothing else. */
module PoolerReplies {
  import opened Bytes
  import opened Protocol
  import opened PoolModel
  import opened PoolerModel
  import opened PoolerSafety

  // ---------------------------------------------------------------------------
  // Replies

  /** What a turn makes session `s` write to its client: a backend's message, or a refusal. */
  function WrittenBy(sys: System, e: Event, s: SessId): seq<ClientWrite> {
    if s !in sys.sessions || sys.sessions[s].closed then []
    else
      match e
      case BackendSays(c, m) =>
        if MaySay(sys.pool, c, m) && Conn(sys.pool, c).handler == Some(s)
        then [Relayed(Conn(sys.pool, c).unanswered[0].sender, m)] else []
      case Resume(ForSession(t)) =>
        if t == s && ForSession(s) in sys.pool.promises && sys.pool.promises[ForSession(s)] == Refused
        then [Refusal] else []
      case _ => []
  }

  function WrittenSoFar(sys: System, s: SessId): seq<ClientWrite> {
    if s in sys.sessions then sys.sessions[s].written else []
  }

  lemma {:induction false} FlushWritesNothing(d: Duo, s: SessId)
    requires d.session.holding.Some?
    ensures Flush(d, s).session.written == d.session.written
    decreases |d.session.queued|
  {
    var q := d.session.queued;
    if q != [] { FlushWritesNothing(Forward(d.(session := d.session.(queued := q[1..])), s, q[0]), s); }
  }

  lemma {:induction false} PumpWritesNothing(d: Duo, s: SessId, now: int)
    ensures Pump(d, s, now).session.written == d.session.written
    decreases |d.session.buffer|
  {
    var f := Next(false, d.session.buffer);
    if !d.session.closed && f.Framed? && f.message.kind != Some(TERMINATE) {
      PumpWritesNothing(Accept(d.(session := d.session.(buffer := f.rest)), s, f.message, now), s, now);
    }
  }

  lemma ResumedWrites(d: Duo, s: SessId, now: int)
    requires ForSession(s) in d.pool.promises
    ensures SessionResumed(d, s, now).session.written ==
            d.session.written + (if !d.session.closed && d.pool.promises[ForSession(s)] == Refused then [Refusal] else [])
  {
    var spent := Spend(d.pool, ForSession(s));
    if d.pool.promises[ForSession(s)].Ready? && !d.session.closed {
      var c := d.pool.promises[ForSession(s)].connection;
      FlushWritesNothing(Duo(WithConn(spent, c, Conn(spent, c).(handler := Some(s))), d.session.(holding := Some(c))), s);
    }
  }

  /** A turn adds exactly that to what a session has written, and nothing to anybody else's. */
  lemma TurnWrites(sys: System, turn: Turn, s: SessId)
    ensures WrittenSoFar(Step(sys, turn), s) == WrittenSoFar(sys, s) + WrittenBy(sys, turn.event, s)
  {
    match turn.event
    case SessionStart(t, leftover) => PumpWritesNothing(Duo(sys.pool, NewSession(leftover)), t, turn.now);
    case ClientData(t, chunk) =>
      if t in sys.sessions {
        var session := sys.sessions[t];
        PumpWritesNothing(Duo(sys.pool, session.(buffer := session.buffer + chunk,
                                                 received := session.received + chunk)), t, turn.now);
      }
    case Resume(ForSession(t)) =>
      if t in sys.sessions && ForSession(t) in sys.pool.promises { ResumedWrites(Pick(sys, t), t, turn.now); }
    case _ =>
  }

  /** A reply reaches the client of the session that holds the connection, whatever its type. */
  lemma ReplyReachesTheClient(sys: System, now: int, c: ConnId, m: RawMessage, s: SessId)
    requires SystemInv(sys) && Holds(sys, s, c) && MaySay(sys.pool, c, m)
    ensures var next := Step(sys, Turn(now, BackendSays(c, m)));
            && s in next.sessions
            && next.sessions[s].written ==
               sys.sessions[s].written + [Relayed(Conn(sys.pool, c).unanswered[0].sender, m)]
            && (forall t :: t in sys.sessions && t != s ==>
                  t in next.sessions && next.sessions[t].written == sys.sessions[t].written)
  {
    assert Flags(Pick(sys, s), s);
    assert Conn(sys.pool, c).handler == Some(s);
    TurnWrites(sys, Turn(now, BackendSays(c, m)), s);
    forall t | t in sys.sessions && t != s
      ensures var next := Step(sys, Turn(now, BackendSays(c, m)));
              t in next.sessions && next.sessions[t].written == sys.sessions[t].written
    {
      TurnWrites(sys, Turn(now, BackendSays(c, m)), t);
    }
  }

  function Replies(ws: seq<ClientWrite>): seq<RawMessage> {
    if ws == [] then [] else (if ws[0].Relayed? then [ws[0].reply] else []) + Replies(ws[1..])
  }

  lemma {:induction false} RepliesAppend(a: seq<ClientWrite>, b: seq<ClientWrite>)
    ensures Replies(a + b) == Replies(a) + Replies(b)
  {
    if a == [] {
      assert a + b == b;
    } else {
      RepliesAppend(a[1..], b);
      assert (a + b)[0] == a[0] && (a + b)[1..] == a[1..] + b;
      ConcatAssoc(if a[0].Relayed? then [a[0].reply] else [], Replies(a[1..]), Replies(b));
    }
  }

  /** What the backends said in a run on connections while session `s` held them. */
  ghost function Heard(sys: System, turns: seq<Turn>, s: SessId): seq<RawMessage>
    decreases |turns|
  {
    if turns == [] then []
    else
      var e := turns[0].event;
      (if e.BackendSays? && MaySay(sys.pool, e.c, e.m) && Holds(sys, s, e.c) then [e.m] else [])
      + Heard(Step(sys, turns[0]), turns[1..], s)
  }

  lemma TurnIsHeard(sys: System, turn: Turn, s: SessId)
    requires SystemInv(sys)
    ensures Replies(WrittenBy(sys, turn.event, s)) ==
            if turn.event.BackendSays? && MaySay(sys.pool, turn.event.c, turn.event.m) && Holds(sys, s, turn.event.c)
            then [turn.event.m] else []
  {
    if s in sys.sessions { assert Flags(Pick(sys, s), s); }
    if turn.event.BackendSays? && MaySay(sys.pool, turn.event.c, turn.event.m) {
      assert turn.event.c in sys.pool.connections;
      assert sys.pool.connections[turn.event.c].handler == Some(s) <==> Holds(sys, s, turn.event.c);
    }
    var ws := WrittenBy(sys, turn.event, s);
    if ws != [] { assert ws[1..] == []; }
  }

  lemma {:induction false} RunIsHeard(sys: System, turns: seq<Turn>, s: SessId)
    requires SystemInv(sys)
    ensures Replies(WrittenSoFar(Run(sys, turns), s)) == Replies(WrittenSoFar(sys, s)) + Heard(sys, turns, s)
    decreases |turns|
  {
    hide Step, SystemInv, WrittenSoFar, WrittenBy, MaySay, Holds, Replies;
    if turns != [] {
      var next := Step(sys, turns[0]);
      StepKeepsInv(sys, turns[0]);
      TurnWrites(sys, turns[0], s);
      TurnIsHeard(sys, turns[0], s);
      RunIsHeard(next, turns[1..], s);
      RepliesAppend(WrittenSoFar(sys, s), WrittenBy(sys, turns[0].event, s));
      ConcatAssoc(Replies(WrittenSoFar(sys, s)), Replies(WrittenBy(sys, turns[0].event, s)),
                  Heard(next, turns[1..], s));
    }
  }

  /** Refusals aside, a client gets exactly what the backends said while its session held them, in order. */
  lemma EveryReplyIsRelayed(size: nat, turns: seq<Turn>, s: SessId)
    ensures Replies(WrittenSoFar(Run(Start(size), turns), s)) == Heard(Start(size), turns, s)
  {
    EveryRunIsExclusive(size, []);
    RunIsHeard(Start(size), turns, s);
  }

  // ---------------------------------------------------------------------------
  // Requests

  /** The requests to connection `c` among what became of a session's messages. */
  function RequestsTo(s: SessId, c: ConnId, fates: seq<Fate>): seq<Request> {
    if fates == [] then []
    else (if fates[0].Forwarded? && fates[0].to == c then [Request(s, fates[0].message)] else [])
         + RequestsTo(s, c, fates[1..])
  }

  lemma {:induction false} RequestsAppend(s: SessId, c: ConnId, a: seq<Fate>, b: seq<Fate>)
    ensures RequestsTo(s, c, a + b) == RequestsTo(s, c, a) + RequestsTo(s, c, b)
  {
    if a == [] {
      assert a + b == b;
    } else {
      RequestsAppend(s, c, a[1..], b);
      assert (a + b)[0] == a[0] && (a + b)[1..] == a[1..] + b;
      ConcatAssoc(if a[0].Forwarded? && a[0].to == c then [Request(s, a[0].message)] else [],
                  RequestsTo(s, c, a[1..]), RequestsTo(s, c, b));
    }
  }

  /** From `d` to `e`, connection `c`, if still open, was sent what session `s` says it forwarded to it. */
  ghost predicate Delivered(d: Duo, e: Duo, s: SessId, c: ConnId) {
    && |d.session.fates| <= |e.session.fates| && e.session.fates[..|d.session.fates|] == d.session.fates
    && (!Conn(e.pool, c).closed ==>
          !Conn(d.pool, c).closed &&
          Conn(e.pool, c).unanswered ==
          Conn(d.pool, c).unanswered + RequestsTo(s, c, e.session.fates[|d.session.fates|..]))
  }

  lemma SameIsDelivered(d: Duo, e: Duo, s: SessId, c: ConnId)
    requires e.session.fates == d.session.fates
    requires !Conn(e.pool, c).closed ==> !Conn(d.pool, c).closed && Conn(e.pool, c).unanswered == Conn(d.pool, c).unanswered
    ensures Delivered(d, e, s, c)
  {
  }

  lemma DeliveredTwice(d: Duo, e: Duo, f: Duo, s: SessId, c: ConnId)
    requires Delivered(d, e, s, c) && Delivered(e, f, s, c)
    ensures Delivered(d, f, s, c)
  {
    hide RequestsTo;
    var a, b := e.session.fates[|d.session.fates|..], f.session.fates[|e.session.fates|..];
    assert f.session.fates[..|d.session.fates|] == f.session.fates[..|e.session.fates|][..|d.session.fates|];
    assert f.session.fates[|d.session.fates|..] == a + b;
    RequestsAppend(s, c, a, b);
    ConcatAssoc(Conn(d.pool, c).unanswered, RequestsTo(s, c, a), RequestsTo(s, c, b));
  }

  lemma ForwardDelivers(d: Duo, s: SessId, m: RawMessage, c: ConnId)
    requires d.session.holding.Some?
    ensures Delivered(d, Forward(d, s, m), s, c)
  {
    var e := Forward(d, s, m);
    var news := e.session.fates[|d.session.fates|..];
    assert news == [Forwarded(d.session.holding.value, m)] && news[1..] == [];
  }

  lemma {:induction false} FlushDelivers(d: Duo, s: SessId, c: ConnId)
    requires d.session.holding.Some?
    ensures Delivered(d, Flush(d, s), s, c)
    decreases |d.session.queued|
  {
    var q := d.session.queued;
    if q == [] {
      SameIsDelivered(d, d, s, c);
    } else {
      var popped := d.(session := d.session.(queued := q[1..]));
      SameIsDelivered(d, popped, s, c);
      ForwardDelivers(popped, s, q[0], c);
      FlushDelivers(Forward(popped, s, q[0]), s, c);
      DeliveredTwice(d, popped, Forward(popped, s, q[0]), s, c);
      DeliveredTwice(d, Forward(popped, s, q[0]), Flush(d, s), s, c);
    }
  }

  lemma AcceptDelivers(d: Duo, s: SessId, m: RawMessage, now: int, c: ConnId)
    ensures Delivered(d, Accept(d, s, m, now), s, c)
  {
    if d.session.holding.Some? {
      ForwardDelivers(d, s, m, c);
    } else {
      SameIsDelivered(d, Accept(d, s, m, now), s, c);
    }
  }

  lemma {:induction false} PumpDelivers(d: Duo, s: SessId, now: int, c: ConnId)
    ensures Delivered(d, Pump(d, s, now), s, c)
    decreases |d.session.buffer|
  {
    var f := Next(false, d.session.buffer);
    if d.session.closed || !f.Framed? || f.message.kind == Some(TERMINATE) {
      SameIsDelivered(d, Pump(d, s, now), s, c);
    } else {
      var e := d.(session := d.session.(buffer := f.rest));
      SameIsDelivered(d, e, s, c);
      AcceptDelivers(e, s, f.message, now, c);
      PumpDelivers(Accept(e, s, f.message, now), s, now, c);
      DeliveredTwice(d, e, Accept(e, s, f.message, now), s, c);
      DeliveredTwice(d, Accept(e, s, f.message, now), Pump(d, s, now), s, c);
    }
  }

  lemma {:induction false} DropsRequestNothing(ms: seq<RawMessage>, s: SessId, c: ConnId)
    ensures RequestsTo(s, c, DropAll(ms)) == []
  {
    if ms != [] {
      DropsRequestNothing(ms[1..], s, c);
      assert DropAll(ms)[1..] == DropAll(ms[1..]);
    }
  }

  lemma GrantedDelivers(d: Duo, s: SessId, h: ConnId, now: int, c: ConnId)
    requires !d.session.closed
    ensures Delivered(d, Granted(d, s, h, now), s, c)
  {
    var g := Duo(WithConn(d.pool, h, Conn(d.pool, h).(handler := Some(s))), d.session.(holding := Some(h)));
    SameIsDelivered(d, g, s, c);
    FlushDelivers(g, s, c);
    DeliveredTwice(d, g, Flush(g, s), s, c);
    SameIsDelivered(Flush(g, s), Granted(d, s, h, now), s, c);
    DeliveredTwice(d, Flush(g, s), Granted(d, s, h, now), s, c);
  }

  lemma DeniedDelivers(d: Duo, s: SessId, c: ConnId)
    ensures Delivered(d, Denied(d), s, c)
  {
    DropsRequestNothing(d.session.queued, s, c);
    assert Denied(d).session.fates[|d.session.fates|..] == DropAll(d.session.queued);
  }

  lemma ResumedDelivers(d: Duo, s: SessId, now: int, c: ConnId)
    requires ForSession(s) in d.pool.promises
    ensures Delivered(d, SessionResumed(d, s, now), s, c)
  {
    hide Denied, DropAll, Flush;
    var spent := d.(pool := Spend(d.pool, ForSession(s)));
    SameIsDelivered(d, spent, s, c);
    match d.pool.promises[ForSession(s)]
    case Ready(h) =>
      if d.session.closed {
        SameIsDelivered(d, SessionResumed(d, s, now), s, c);
      } else {
        GrantedDelivers(spent, s, h, now, c);
        DeliveredTwice(d, spent, Granted(spent, s, h, now), s, c);
      }
    case Refused =>
      DeniedDelivers(spent, s, c);
      DeliveredTwice(d, spent, Denied(spent), s, c);
    case _ => SameIsDelivered(d, d, s, c);
  }

  /** The session whose own code runs in this turn, a reply apart. */
  function Runs(e: Event): Option<SessId> {
    match e
    case SessionStart(s, _) => Some(s)
    case ClientData(s, _) => Some(s)
    case ClientGone(s) => Some(s)
    case Resume(ForSession(s)) => Some(s)
    case _ => None
  }

  function View(sys: System, s: SessId): Duo {
    Duo(sys.pool, if s in sys.sessions then sys.sessions[s] else NewSession([]))
  }

  /** Whatever session runs, each backend gets what that session says it forwarded, in order, and nothing else. */
  lemma SessionTurnDelivers(sys: System, turn: Turn, s: SessId, c: ConnId)
    requires Runs(turn.event) == Some(s)
    ensures Delivered(View(sys, s), View(Step(sys, turn), s), s, c)
  {
    hide Delivered, Pump, SessionResumed, RequestsTo;
    var d := View(sys, s);
    match turn.event
    case SessionStart(_, leftover) =>
      if s in sys.sessions {
        SameIsDelivered(d, d, s, c);
      } else {
        var e := Duo(sys.pool, NewSession(leftover));
        SameIsDelivered(d, e, s, c);
        PumpDelivers(e, s, turn.now, c);
        DeliveredTwice(d, e, Pump(e, s, turn.now), s, c);
      }
    case ClientData(_, chunk) =>
      if s in sys.sessions {
        var e := d.(session := d.session.(buffer := d.session.buffer + chunk,
                                          received := d.session.received + chunk));
        SameIsDelivered(d, e, s, c);
        PumpDelivers(e, s, turn.now, c);
        DeliveredTwice(d, e, Pump(e, s, turn.now), s, c);
      } else {
        SameIsDelivered(d, d, s, c);
      }
    case ClientGone(_) => SameIsDelivered(d, View(Step(sys, turn), s), s, c);
    case Resume(_) =>
      if s in sys.sessions && ForSession(s) in sys.pool.promises {
        ResumedDelivers(d, s, turn.now, c);
      } else {
        SameIsDelivered(d, d, s, c);
      }
  }

  ghost predicate SameDebt(p: Pool, q: Pool, c: ConnId) {
    !Conn(q, c).closed ==> !Conn(p, c).closed && Conn(q, c).unanswered == Conn(p, c).unanswered
  }

  lemma AcquireSendsNothing(p: Pool, who: Requester, now: int, c: ConnId)
    ensures SameDebt(p, Acquire(p, who, now), c)
  {
  }

  lemma ReleaseSendsNothing(p: Pool, h: ConnId, now: int, c: ConnId)
    ensures SameDebt(p, Release(p, h, now), c)
  {
  }

  lemma ReplySendsNothing(d: Duo, s: SessId, h: ConnId, m: RawMessage, asker: SessId, now: int, c: ConnId)
    ensures SameDebt(d.pool, OnServerMessage(d, s, h, m, asker, now).pool, c)
  {
    hide Acquire, Release;
    ReleaseSendsNothing(d.pool, h, now, c);
    AcquireSendsNothing(d.pool, ForSession(s), now, c);
    AcquireSendsNothing(Release(d.pool, h, now), ForSession(s), now, c);
  }

  /** A report of ready settles what came before it; the session's own reaction sends nothing. */
  lemma AnswerSettles(sys: System, now: int, h: ConnId, m: RawMessage, c: ConnId)
    ensures var p, q := sys.pool, Step(sys, Turn(now, BackendSays(h, m))).pool;
            !Conn(q, c).closed ==>
              && !Conn(p, c).closed
              && Conn(q, c).unanswered ==
                 if h == c && MaySay(p, c, m) && m.kind == Some(0x5a)
                 then AfterSync(Conn(p, c).unanswered) else Conn(p, c).unanswered
  {
    hide OnServerMessage, AfterSync;
    if MaySay(sys.pool, h, m) {
      var handler := Conn(sys.pool, h).handler;
      if handler.Some? && handler.value in sys.sessions {
        var after := sys.(pool := Answer(sys.pool, h, m));
        ReplySendsNothing(Pick(after, handler.value), handler.value, h, m, Conn(sys.pool, h).unanswered[0].sender, now, c);
      }
    }
  }

  /** No other turn sends anything. */
  lemma OtherTurnsSendNothing(sys: System, turn: Turn, c: ConnId)
    requires Runs(turn.event).None? && !turn.event.BackendSays? && c in sys.pool.connections
    ensures SameDebt(sys.pool, Step(sys, turn).pool, c)
  {
    hide Acquire, Release;
    match turn.event
    case LoginStart(l) => AcquireSendsNothing(sys.pool, ForLogin(l), turn.now, c);
    case Resume(ForLogin(l)) =>
      if ForLogin(l) in sys.pool.promises && sys.pool.promises[ForLogin(l)].Ready? {
        ReleaseSendsNothing(Spend(sys.pool, ForLogin(l)).(parametersCached := true),
                            sys.pool.promises[ForLogin(l)].connection, turn.now, c);
      }
    case _ =>
  }

  lemma OnlyItsOwnFates(sys: System, turn: Turn, t: SessId)
    requires Runs(turn.event) != Some(t) && t in sys.sessions
    ensures t in Step(sys, turn).sessions && Step(sys, turn).sessions[t].fates == sys.sessions[t].fates
  {
  }
}

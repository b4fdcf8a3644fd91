/**
 * Transaction pooling, apps/router/src/transaction.ts: `PooledSession` over a shared
 * pool, as a state machine. One step is one uninterrupted stretch of the event loop.
 */
module PoolerModel {
  import opened Bytes
  import opened Protocol
  import opened PoolModel

  /** What became of a message the client sent. */
  datatype Fate = Forwarded(to: ConnId, message: RawMessage) | Dropped(message: RawMessage)

  /** What the session wrote to its client; `answering` is whose request a reply belongs to. */
  datatype ClientWrite = Relayed(answering: SessId, reply: RawMessage) | Refusal

  /**
   * The fields of `PooledSession`, and its history: every byte received, the fate of every
   * message taken from the queue or the wire, the Terminate message, all writes.
   */
  datatype Session = Session(
    closed: bool,
    acquiring: bool,
    holding: Option<ConnId>,
    queued: seq<RawMessage>,
    buffer: Bytes,
    received: Bytes,
    fates: seq<Fate>,
    farewell: Bytes,
    written: seq<ClientWrite>)

  /** One session together with the pool it draws from. */
  datatype Duo = Duo(pool: Pool, session: Session)

  function NewSession(leftover: Bytes): Session {
    Session(false, false, None, [], leftover, leftover, [], [], [])
  }

  function Forward(d: Duo, s: SessId, m: RawMessage): Duo
    requires d.session.holding.Some?
  {
    var c := d.session.holding.value;
    Duo(Send(d.pool, c, s, m), d.session.(fates := d.session.fates + [Forwarded(c, m)]))
  }

  /** Send everything queued, oldest first. */
  function Flush(d: Duo, s: SessId): Duo
    requires d.session.holding.Some?
    decreases |d.session.queued|
  {
    var q := d.session.queued;
    if q == [] then d
    else Flush(Forward(d.(session := d.session.(queued := q[1..])), s, q[0]), s)
  }

  function StartAcquire(d: Duo, s: SessId, now: int): Duo {
    Duo(Acquire(d.pool, ForSession(s), now), d.session.(acquiring := true))
  }

  function Accept(d: Duo, s: SessId, m: RawMessage, now: int): Duo {
    if d.session.holding.Some? then Forward(d, s, m)
    else
      var e := d.(session := d.session.(queued := d.session.queued + [m]));
      if e.session.acquiring then e else StartAcquire(e, s, now)
  }

  function Teardown(d: Duo): Duo {
    if d.session.closed then d
    else
      Duo(if d.session.holding.Some? then Discard(d.pool, d.session.holding.value) else d.pool,
          d.session.(closed := true, holding := None))
  }

  function Pump(d: Duo, s: SessId, now: int): Duo
    decreases |d.session.buffer|
  {
    if d.session.closed then d
    else
      match Next(false, d.session.buffer)
      case Incomplete => d
      case Implausible(_) => Teardown(d)
      case Framed(m, rest) =>
        var e := d.(session := d.session.(buffer := rest));
        if m.kind == Some(TERMINATE) then Teardown(e.(session := e.session.(farewell := m.raw)))
        else Pump(Accept(e, s, m, now), s, now)
  }

  function Receive(d: Duo, s: SessId, chunk: Bytes, now: int): Duo {
    Pump(d.(session := d.session.(buffer := d.session.buffer + chunk,
                                  received := d.session.received + chunk)), s, now)
  }

  /** `acquire` resumes with a connection. */
  function Granted(d: Duo, s: SessId, c: ConnId, now: int): Duo {
    if d.session.closed then
      Duo(Release(d.pool, c, now), d.session.(acquiring := false))
    else
      var e := Flush(Duo(WithConn(d.pool, c, Conn(d.pool, c).(handler := Some(s))),
                         d.session.(holding := Some(c))), s);
      e.(session := e.session.(acquiring := false))
  }

  function DropAll(ms: seq<RawMessage>): seq<Fate> {
    if ms == [] then [] else [Dropped(ms[0])] + DropAll(ms[1..])
  }

  /** `acquire` resumes with an error: the queue is dropped and the client told. */
  function Denied(d: Duo): Duo {
    d.(session := d.session.(
         written := d.session.written + if d.session.closed then [] else [Refusal],
         fates := d.session.fates + DropAll(d.session.queued),
         queued := [],
         acquiring := false))
  }

  function OnServerMessage(d: Duo, s: SessId, c: ConnId, m: RawMessage, asker: SessId, now: int): Duo {
    if d.session.closed then d
    else
      var e := d.(session := d.session.(written := d.session.written + [Relayed(asker, m)]));
      if !IsReadyForQuery(m) || m.payload == [] || m.payload[0] != STATUS_IDLE then e
      else
        var f := Duo(Release(e.pool, c, now), e.session.(holding := None));
        if f.session.queued != [] && !f.session.acquiring then StartAcquire(f, s, now) else f
  }

  datatype System = System(pool: Pool, sessions: map<SessId, Session>)

  datatype Event =
    | SessionStart(s: SessId, leftover: Bytes)
    | ClientData(s: SessId, chunk: Bytes)
    | ClientGone(s: SessId)
    | LoginStart(login: nat)
    | Resume(who: Requester)
    | OpenSucceeds(who: Requester, c: ConnId)
    | OpenFails(who: Requester)
    | WaiterTimeout(who: Requester)
    | BackendSays(c: ConnId, m: RawMessage)
    | BackendGarbled(c: ConnId)
    | BackendGone(c: ConnId)
    | Sweep(cutoff: int)
    | DrainPool

  datatype Turn = Turn(now: int, event: Event)

  function Put(sys: System, s: SessId, d: Duo): System {
    System(d.pool, sys.sessions[s := d.session])
  }

  function Pick(sys: System, s: SessId): Duo
    requires s in sys.sessions
  {
    Duo(sys.pool, sys.sessions[s])
  }

  /** Continuation of `await pool.acquire()` in a session. */
  function SessionResumed(d: Duo, s: SessId, now: int): Duo
    requires ForSession(s) in d.pool.promises
  {
    var spent := d.(pool := Spend(d.pool, ForSession(s)));
    match d.pool.promises[ForSession(s)]
    case Ready(c) => Granted(spent, s, c, now)
    case Refused => Denied(spent)
    case _ => d
  }

  /** Continuation of `await this.acquire()` in `parameters`: note the values, give it back. */
  function LoginResumed(p: Pool, who: Requester, now: int): Pool
    requires who in p.promises
  {
    match p.promises[who]
    case Ready(c) => Release(Spend(p, who).(parametersCached := true), c, now)
    case Refused => Spend(p, who)
    case _ => p
  }

  /** An event that cannot happen in this state changes nothing, so every turn list is a run. */
  function Step(sys: System, turn: Turn): System {
    var p := sys.pool;
    match turn.event
    case SessionStart(s, leftover) =>
      if s in sys.sessions then sys
      else Put(sys, s, Pump(Duo(p, NewSession(leftover)), s, turn.now))
    case ClientData(s, chunk) =>
      if s in sys.sessions then Put(sys, s, Receive(Pick(sys, s), s, chunk, turn.now)) else sys
    case ClientGone(s) =>
      if s in sys.sessions then Put(sys, s, Teardown(Pick(sys, s))) else sys
    case LoginStart(l) =>
      if p.parametersCached || ForLogin(l) in p.promises then sys
      else sys.(pool := Acquire(p, ForLogin(l), turn.now))
    case Resume(ForSession(s)) =>
      if s in sys.sessions && ForSession(s) in p.promises
      then Put(sys, s, SessionResumed(Pick(sys, s), s, turn.now)) else sys
    case Resume(ForLogin(l)) =>
      if ForLogin(l) in p.promises then sys.(pool := LoginResumed(p, ForLogin(l), turn.now)) else sys
    case OpenSucceeds(who, c) =>
      if who in p.promises && p.promises[who] == Opening && c !in p.connections
      then sys.(pool := OpenDone(p, who, c, turn.now)) else sys
    case OpenFails(who) =>
      if who in p.promises && p.promises[who] == Opening
      then sys.(pool := OpenFailed(p, who)) else sys
    case WaiterTimeout(who) =>
      if who in p.waiters then sys.(pool := TimedOut(p, who)) else sys
    case BackendSays(c, m) =>
      if !MaySay(p, c, m) then sys
      else
        var asker := Conn(p, c).unanswered[0].sender;
        var after := sys.(pool := Answer(p, c, m));
        var handler := Conn(p, c).handler;
        if handler.Some? && handler.value in sys.sessions then
          var s := handler.value;
          Put(sys, s, OnServerMessage(Pick(after, s), s, c, m, asker, turn.now))
        else after
    case BackendGarbled(c) => if c in p.connections then sys.(pool := FramingError(p, c)) else sys
    case BackendGone(c) => if c in p.connections then sys.(pool := SocketClosed(p, c)) else sys
    case Sweep(cutoff) => sys.(pool := SweepIdle(p, cutoff))
    case DrainPool => sys.(pool := Drain(p))
  }

  function Start(size: nat): System { System(EmptyPool(size), map[]) }

  function Run(sys: System, turns: seq<Turn>): System
    decreases |turns|
  {
    if turns == [] then sys else Run(Step(sys, turns[0]), turns[1..])
  }
}

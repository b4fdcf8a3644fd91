/** Who gets a connection and when it is given back, in the fields of the pool alone. */
module PoolerService {
  import opened Bytes
  import opened Protocol
  import opened PoolModel
  import opened PoolerModel
  import opened PoolerSafety

  /** Query `Q`, Sync `S` and FunctionCall `F` are answered with ReadyForQuery; `d`, `c` and `f` carry a COPY. */
  lemma MessageTypes(m: RawMessage)
    ensures IsSyncPoint(m) <==> m.kind in {Some(0x51), Some(0x53), Some(0x46)}
    ensures IsCopyTraffic(m) <==> m.kind in {Some(0x64), Some(0x63), Some(0x66)}
    ensures IsReadyForQuery(m) <==> m.kind == Some(0x5a)
  {
  }

  // ---------------------------------------------------------------------------
  // Giving back

  /** A session keeps its connection until the backend reports type `Z`, status `I`. */
  lemma KeptUntilIdle(sys: System, now: int, c: ConnId, m: RawMessage, s: SessId)
    requires SystemInv(sys) && Holds(sys, s, c) && MaySay(sys.pool, c, m)
    ensures var next := Step(sys, Turn(now, BackendSays(c, m)));
            && s in next.sessions
            && next.sessions[s].holding ==
               if m.kind == Some(0x5a) && m.payload[0] == 0x49 then None else Some(c)
  {
    assert Flags(Pick(sys, s), s);
    assert Conn(sys.pool, c).handler == Some(s);
  }

  /** Then the longest waiting requester has it, or it is idle and stamped with this instant. */
  lemma GivenBack(sys: System, now: int, c: ConnId, m: RawMessage, s: SessId)
    requires SystemInv(sys) && Holds(sys, s, c) && MaySay(sys.pool, c, m)
    requires m.kind == Some(0x5a) && m.payload[0] == 0x49
    ensures var p, q := sys.pool, Step(sys, Turn(now, BackendSays(c, m))).pool;
            && Conn(q, c).handler.None? && Conn(q, c).lastUsedAt == now && !Conn(q, c).closed
            && (p.waiters == [] ==> q.idle == p.idle + [c] && q.promises == p.promises)
            && (p.waiters != [] ==> q.idle == p.idle && q.waiters == p.waiters[1..] &&
                                    q.promises == p.promises[p.waiters[0] := Ready(c)])
  {
    assert Flags(Pick(sys, s), s);
    assert Conn(sys.pool, c).handler == Some(s);
  }

  /** Client gone: its session is closed, and the connection is never used again. */
  lemma GoneIsDiscarded(sys: System, now: int, s: SessId, c: ConnId)
    requires SystemInv(sys) && s in sys.sessions
    ensures var next := Step(sys, Turn(now, ClientGone(s)));
            && s in next.sessions && next.sessions[s].closed && next.sessions[s].holding.None?
            && (Holds(sys, s, c) ==>
                  Conn(next.pool, c).closed && c !in next.pool.all && c !in next.pool.idle)
  {
    assert Flags(Pick(sys, s), s);
  }

  // ---------------------------------------------------------------------------
  // Taking

  /**
   * The connection given back last is the one handed out next; with none idle a new one is
   * opened while fewer than `size` exist or are being opened, and otherwise one waits.
   */
  lemma LastGivenBackFirst(p: Pool, c: ConnId, now: int, who: Requester, later: int)
    requires p.waiters == [] && !Conn(p, c).closed
    ensures var q := Acquire(Release(p, c, now), who, later);
            && who in q.promises && q.promises[who] == Ready(c)
            && q.idle == p.idle && Conn(q, c).lastUsedAt == later
  {
  }

  lemma NoneIdle(p: Pool, who: Requester, now: int)
    requires p.idle == []
    ensures var q := Acquire(p, who, now);
            && who in q.promises && q.idle == [] && q.connections == p.connections
            && (|p.all| + p.opening < p.size ==>
                  q.promises[who] == Opening && q.opening == p.opening + 1 && q.waiters == p.waiters)
            && (|p.all| + p.opening >= p.size ==>
                  q.promises[who] == Waiting && q.opening == p.opening && q.waiters == p.waiters + [who])
  {
  }

  /** What a session's own code may do to the line: join it at the end. */
  ghost predicate Joins(p: Pool, q: Pool) {
    && p.waiters <= q.waiters
    && (forall w :: w in p.promises && p.promises[w] == Waiting && w in q.promises ==> !q.promises[w].Ready?)
  }

  lemma AcquireJoins(p: Pool, who: Requester, now: int)
    requires who !in p.promises
    ensures Joins(p, Acquire(p, who, now))
  {
  }

  lemma {:induction false} FlushLeavesTheLine(d: Duo, s: SessId)
    requires d.session.holding.Some?
    ensures Flush(d, s).pool.waiters == d.pool.waiters && Flush(d, s).pool.promises == d.pool.promises
    ensures Flush(d, s).session.acquiring == d.session.acquiring
    decreases |d.session.queued|
  {
    var q := d.session.queued;
    if q != [] {
      FlushLeavesTheLine(Forward(d.(session := d.session.(queued := q[1..])), s, q[0]), s);
    }
  }

  /** A session that is acquiring or holding asks for nothing more. */
  ghost predicate AsksNoMore(d: Duo) { d.session.acquiring || d.session.holding.Some? }

  lemma {:induction false} PumpAsksNoMore(d: Duo, s: SessId, now: int)
    requires AsksNoMore(d)
    ensures Pump(d, s, now).pool.waiters == d.pool.waiters && Pump(d, s, now).pool.promises == d.pool.promises
    decreases |d.session.buffer|
  {
    var f := Next(false, d.session.buffer);
    if !d.session.closed && f.Framed? && f.message.kind != Some(TERMINATE) {
      PumpAsksNoMore(Accept(d.(session := d.session.(buffer := f.rest)), s, f.message, now), s, now);
    }
  }

  lemma PumpJoins(d: Duo, s: SessId, now: int)
    requires d.session.acquiring <==> ForSession(s) in d.pool.promises
    ensures Joins(d.pool, Pump(d, s, now).pool)
  {
    hide Acquire;
    if AsksNoMore(d) {
      PumpAsksNoMore(d, s, now);
    } else {
      var f := Next(false, d.session.buffer);
      if !d.session.closed && f.Framed? && f.message.kind != Some(TERMINATE) {
        var e := Accept(d.(session := d.session.(buffer := f.rest)), s, f.message, now);
        AcquireJoins(d.pool, ForSession(s), now);
        PumpAsksNoMore(e, s, now);
      }
    }
  }

  /** The line moves on by one at its head, where the head is handed a connection. */
  ghost predicate Serves(p: Pool, q: Pool) {
    && (q.waiters == p.waiters || (p.waiters != [] && q.waiters == p.waiters[1..]))
    && (forall w :: w in p.promises && p.promises[w] == Waiting && w in q.promises && q.promises[w].Ready? ==>
          p.waiters != [] && w == p.waiters[0])
  }

  lemma ReleaseServes(p: Pool, c: ConnId, now: int)
    ensures Serves(p, Release(p, c, now))
  {
  }

  /** What a turn leaves of the line. */
  ghost predicate LineKept(p: Pool, q: Pool) {
    || p.waiters <= q.waiters
    || (p.waiters != [] && p.waiters[1..] == q.waiters)
    || (exists who: Requester :: q.waiters == Without(p.waiters, who))
    || q.waiters == []
  }

  ghost predicate InTurn(p: Pool, q: Pool) {
    && LineKept(p, q)
    && (forall w :: w in p.promises && p.promises[w] == Waiting && w in q.promises && q.promises[w].Ready? ==>
          p.waiters != [] && w == p.waiters[0])
  }

  lemma ResumeInTurn(d: Duo, s: SessId, now: int)
    requires ForSession(s) in d.pool.promises
    ensures InTurn(d.pool, SessionResumed(d, s, now).pool)
  {
    hide Release, Without;
    var spent := Spend(d.pool, ForSession(s));
    if d.pool.promises[ForSession(s)].Ready? {
      var c := d.pool.promises[ForSession(s)].connection;
      if d.session.closed {
        ReleaseServes(spent, c, now);
      } else {
        FlushLeavesTheLine(Duo(WithConn(spent, c, Conn(spent, c).(handler := Some(s))),
                               d.session.(holding := Some(c))), s);
      }
    }
  }

  lemma SaysInTurn(sys: System, now: int, c: ConnId, m: RawMessage)
    requires SystemInv(sys)
    ensures InTurn(sys.pool, Step(sys, Turn(now, BackendSays(c, m))).pool)
  {
    hide Release, Without, AfterSync;
    if MaySay(sys.pool, c, m) {
      var handler := Conn(sys.pool, c).handler;
      if handler.Some? {
        assert Holds(sys, handler.value, c);
        assert Flags(Pick(sys, handler.value), handler.value);
        ReleaseServes(Answer(sys.pool, c, m), c, now);
      }
    }
  }

  lemma SessionInTurn(sys: System, turn: Turn)
    requires SystemInv(sys) && (turn.event.SessionStart? || turn.event.ClientData? || turn.event.ClientGone?)
    ensures InTurn(sys.pool, Step(sys, turn).pool)
  {
    hide Pump, Without;
    match turn.event
    case SessionStart(s, leftover) =>
      if s !in sys.sessions { PumpJoins(Duo(sys.pool, NewSession(leftover)), s, turn.now); }
    case ClientData(s, chunk) =>
      if s in sys.sessions {
        var session := sys.sessions[s];
        assert Flags(Pick(sys, s), s);
        PumpJoins(Duo(sys.pool, session.(buffer := session.buffer + chunk,
                                         received := session.received + chunk)), s, turn.now);
      }
    case _ =>
  }

  lemma LoginInTurn(p: Pool, login: nat, now: int)
    requires ForLogin(login) in p.promises
    ensures InTurn(p, LoginResumed(p, ForLogin(login), now))
  {
    hide Release, Without;
    if p.promises[ForLogin(login)].Ready? {
      ReleaseServes(Spend(p, ForLogin(login)).(parametersCached := true), p.promises[ForLogin(login)].connection, now);
    }
  }

  lemma PoolInTurn(sys: System, turn: Turn)
    requires turn.event.OpenSucceeds? || turn.event.OpenFails? || turn.event.WaiterTimeout? || turn.event.BackendGarbled?
             || turn.event.BackendGone? || turn.event.Sweep? || turn.event.DrainPool?
    ensures InTurn(sys.pool, Step(sys, turn).pool)
  {
  }

  lemma TurnInTurn(sys: System, turn: Turn)
    requires SystemInv(sys)
    ensures InTurn(sys.pool, Step(sys, turn).pool)
  {
    hide Acquire, SystemInv, SessionResumed, LoginResumed;
    match turn.event
    case SessionStart(_, _) => SessionInTurn(sys, turn);
    case ClientData(_, _) => SessionInTurn(sys, turn);
    case ClientGone(_) => SessionInTurn(sys, turn);
    case BackendSays(c, m) => SaysInTurn(sys, turn.now, c, m);
    case LoginStart(l) =>
      if !sys.pool.parametersCached && ForLogin(l) !in sys.pool.promises {
        AcquireJoins(sys.pool, ForLogin(l), turn.now);
      }
    case Resume(ForSession(s)) =>
      if s in sys.sessions && ForSession(s) in sys.pool.promises { ResumeInTurn(Pick(sys, s), s, turn.now); }
    case Resume(ForLogin(l)) =>
      if ForLogin(l) in sys.pool.promises { LoginInTurn(sys.pool, l, turn.now); }
    case _ => PoolInTurn(sys, turn);
  }

  /** Only the head of the line is ever handed a connection. */
  lemma FirstComeFirstServed(sys: System, turn: Turn, who: Requester)
    requires SystemInv(sys) && who in sys.pool.promises && sys.pool.promises[who] == Waiting
    requires who in Step(sys, turn).pool.promises && Step(sys, turn).pool.promises[who].Ready?
    ensures sys.pool.waiters != [] && who == sys.pool.waiters[0]
  {
    hide Step, SystemInv, LineKept;
    TurnInTurn(sys, turn);
  }

  ghost predicate Ahead(line: seq<Requester>, v: Requester, w: Requester) {
    exists i, j :: 0 <= i < j < |line| && line[i] == v && line[j] == w
  }

  lemma NoDupTail(line: seq<Requester>)
    requires NoDup(line) && line != []
    ensures NoDup(line[1..])
  {
  }

  lemma AfterFirst(line: seq<Requester>, gone: Requester, j: nat)
    requires NoDup(line) && 0 < j < |line| && line[0] != gone && line[j] != gone
    ensures Ahead(Without(line, gone), line[0], line[j])
  {
    var rest := Without(line[1..], gone);
    NoDupTail(line);
    WithoutMembers(line[1..], gone);
    assert line[1..][j - 1] in line[1..];
    var k :| 0 <= k < |rest| && rest[k] == line[j];
    assert ([line[0]] + rest)[0] == line[0] && ([line[0]] + rest)[k + 1] == line[j];
  }

  lemma AheadBehind(first: Requester, rest: seq<Requester>, v: Requester, w: Requester)
    requires Ahead(rest, v, w)
    ensures Ahead([first] + rest, v, w)
  {
    var k, l :| 0 <= k < l < |rest| && rest[k] == v && rest[l] == w;
    assert ([first] + rest)[k + 1] == v && ([first] + rest)[l + 1] == w;
  }

  lemma {:induction false} AheadWithout(line: seq<Requester>, gone: Requester, v: Requester, w: Requester)
    requires NoDup(line) && Ahead(line, v, w) && v != gone && w != gone
    ensures Ahead(Without(line, gone), v, w)
  {
    hide NoDup;
    var i, j :| 0 <= i < j < |line| && line[i] == v && line[j] == w;
    NoDupTail(line);
    if line[0] == gone {
      assert line[1..][i - 1] == v && line[1..][j - 1] == w;
    } else if i == 0 {
      AfterFirst(line, gone, j);
    } else {
      assert line[1..][i - 1] == v && line[1..][j - 1] == w;
      AheadWithout(line[1..], gone, v, w);
      AheadBehind(line[0], Without(line[1..], gone), v, w);
    }
  }

  /** And nobody overtakes. */
  lemma NobodyOvertakes(sys: System, turn: Turn, v: Requester, w: Requester)
    requires SystemInv(sys) && Ahead(sys.pool.waiters, v, w)
    requires v in Step(sys, turn).pool.waiters && w in Step(sys, turn).pool.waiters
    ensures Ahead(Step(sys, turn).pool.waiters, v, w)
  {
    hide Step, Without;
    TurnInTurn(sys, turn);
    var p, q := sys.pool.waiters, Step(sys, turn).pool.waiters;
    var i, j :| 0 <= i < j < |p| && p[i] == v && p[j] == w;
    if p <= q {
      assert q[i] == v && q[j] == w;
    } else if p != [] && p[1..] == q {
      assert i > 0;
      assert q[i - 1] == v && q[j - 1] == w;
    } else if who: Requester :| q == Without(p, who) {
      WithoutMembers(p, who);
      AheadWithout(p, who, v, w);
    }
  }

  // ---------------------------------------------------------------------------
  // Refusing and closing

  /** A failed connect, a time-out and a drained pool refuse exactly those who were waiting on them. */
  lemma WhoIsRefused(sys: System, now: int, who: Requester)
    requires who in sys.pool.promises && (who in sys.pool.waiters <==> sys.pool.promises[who] == Waiting)
    ensures var phase := sys.pool.promises[who];
            && Step(sys, Turn(now, OpenFails(who))).pool.promises ==
               (if phase == Opening then sys.pool.promises[who := Refused] else sys.pool.promises)
            && Step(sys, Turn(now, WaiterTimeout(who))).pool.promises ==
               (if phase == Waiting then sys.pool.promises[who := Refused] else sys.pool.promises)
            && who in Step(sys, Turn(now, DrainPool)).pool.promises
            && Step(sys, Turn(now, DrainPool)).pool.promises[who] == if phase == Waiting then Refused else phase
  {
  }

  /** A drained pool knows no connection, and every one it knew, held or idle, is closed. */
  lemma DrainClosesAll(sys: System, now: int, c: ConnId)
    requires SystemInv(sys)
    ensures var q := Step(sys, Turn(now, DrainPool)).pool;
            q.all == {} && (forall k :: k !in q.idle) && q.waiters == [] && !q.parametersCached && Conn(q, c).closed
  {
    if c in sys.pool.connections && !sys.pool.connections[c].closed { assert c in Live(sys.pool); }
    assert forall k :: k in sys.pool.idle ==> k in sys.pool.all;
  }

  /** The sweep closes the idle connections last used before the cutoff, and no other. */
  lemma SweepClosesTheStale(sys: System, now: int, cutoff: int, c: ConnId)
    requires SystemInv(sys) && c in sys.pool.connections && !sys.pool.connections[c].closed
    ensures var p, q := sys.pool, Step(sys, Turn(now, Sweep(cutoff))).pool;
            && (Conn(q, c).closed <==> c in p.idle && Conn(p, c).lastUsedAt < cutoff)
            && (c in q.idle <==> c in p.idle && Conn(p, c).lastUsedAt >= cutoff)
            && (c in q.all <==> !Conn(q, c).closed)
  {
    assert c in Live(sys.pool);
  }

  /** A backend that hangs up is forgotten; one that sends garbage is cut off, but stays on the books. */
  lemma LostBackend(sys: System, now: int, c: ConnId)
    requires SystemInv(sys) && c in sys.pool.connections && !sys.pool.connections[c].closed
    ensures var q := Step(sys, Turn(now, BackendGone(c))).pool;
            Conn(q, c).closed && c !in q.idle && q.all == sys.pool.all - {c}
    ensures var q := Step(sys, Turn(now, BackendGarbled(c))).pool;
            Conn(q, c).closed && q.idle == sys.pool.idle && q.all == sys.pool.all
    ensures forall d :: d in sys.pool.connections && d != c ==>
              && Conn(Step(sys, Turn(now, BackendGone(c))).pool, d) == Conn(sys.pool, d)
              && Conn(Step(sys, Turn(now, BackendGarbled(c))).pool, d) == Conn(sys.pool, d)
  {
  }

  // ---------------------------------------------------------------------------
  // Reading the client

  /** Nothing that could be handled is left lying in an open session's buffer. */
  lemma {:induction false} PumpFramesAll(d: Duo, s: SessId, now: int)
    ensures var e := Pump(d, s, now).session; !e.closed ==> Next(false, e.buffer).Incomplete?
    decreases |d.session.buffer|
  {
    var f := Next(false, d.session.buffer);
    if !d.session.closed && f.Framed? && f.message.kind != Some(TERMINATE) {
      PumpFramesAll(Accept(d.(session := d.session.(buffer := f.rest)), s, f.message, now), s, now);
    }
  }

  ghost predicate AllFramed(sys: System) {
    forall s :: s in sys.sessions && !sys.sessions[s].closed ==> Next(false, sys.sessions[s].buffer).Incomplete?
  }

  lemma {:induction false} FlushReadsNothing(d: Duo, s: SessId)
    requires d.session.holding.Some?
    ensures Flush(d, s).session.buffer == d.session.buffer && Flush(d, s).session.closed == d.session.closed
    decreases |d.session.queued|
  {
    var q := d.session.queued;
    if q != [] { FlushReadsNothing(Forward(d.(session := d.session.(queued := q[1..])), s, q[0]), s); }
  }

  lemma ResumedReadsNothing(d: Duo, s: SessId, now: int)
    requires ForSession(s) in d.pool.promises
    ensures var e := SessionResumed(d, s, now).session;
            e.buffer == d.session.buffer && e.closed == d.session.closed
  {
    var spent := Spend(d.pool, ForSession(s));
    if d.pool.promises[ForSession(s)].Ready? && !d.session.closed {
      var c := d.pool.promises[ForSession(s)].connection;
      FlushReadsNothing(Duo(WithConn(spent, c, Conn(spent, c).(handler := Some(s))), d.session.(holding := Some(c))), s);
    }
  }

  lemma StepFramesAll(sys: System, turn: Turn)
    requires AllFramed(sys)
    ensures AllFramed(Step(sys, turn))
  {
    hide Pump, Flush;
    match turn.event
    case SessionStart(s, leftover) => PumpFramesAll(Duo(sys.pool, NewSession(leftover)), s, turn.now);
    case ClientData(s, chunk) =>
      if s in sys.sessions {
        var session := sys.sessions[s];
        PumpFramesAll(Duo(sys.pool, session.(buffer := session.buffer + chunk,
                                             received := session.received + chunk)), s, turn.now);
      }
    case Resume(ForSession(s)) =>
      if s in sys.sessions && ForSession(s) in sys.pool.promises { ResumedReadsNothing(Pick(sys, s), s, turn.now); }
    case _ =>
  }

  lemma {:induction false} RunFramesAll(sys: System, turns: seq<Turn>)
    requires AllFramed(sys)
    ensures AllFramed(Run(sys, turns))
    decreases |turns|
  {
    hide Step, AllFramed;
    if turns != [] {
      StepFramesAll(sys, turns[0]);
      RunFramesAll(Step(sys, turns[0]), turns[1..]);
    }
  }

  /** On every run: an open session has handled every complete message its client has sent. */
  lemma EveryRunFramesAll(size: nat, turns: seq<Turn>, s: SessId)
    requires var sys := Run(Start(size), turns); s in sys.sessions && !sys.sessions[s].closed
    ensures FrameAll(false, Run(Start(size), turns).sessions[s].buffer).messages == []
  {
    RunFramesAll(Start(size), turns);
  }

  const FAREWELL: Bytes := [0x58, 0, 0, 0, 4]

  lemma FarewellFrames(rest: Bytes)
    ensures Next(false, FAREWELL + rest) == Framed(RawMessage(Some(0x58), [], FAREWELL), rest)
  {
    var buffer := FAREWELL + rest;
    ReadWriteInt32(4, [0x58], rest);
    assert WriteInt32BE(4) == [0, 0, 0, 4];
    assert [0x58] + [0, 0, 0, 4] + rest == buffer;
    assert buffer[..5] == FAREWELL && buffer[5..] == rest;
  }

  /** The Terminate message ends the session; the rest of the wire is not read. */
  lemma TerminateEnds(sys: System, s: SessId, rest: Bytes, now: int)
    requires s in sys.sessions && !sys.sessions[s].closed && sys.sessions[s].buffer == []
    ensures var session := Step(sys, Turn(now, ClientData(s, FAREWELL + rest))).sessions[s];
            session.closed && session.holding.None? && session.fates == sys.sessions[s].fates
            && session.farewell == FAREWELL && session.buffer == rest
  {
    hide Next;
    assert [] + (FAREWELL + rest) == FAREWELL + rest;
    FarewellFrames(rest);
  }
}

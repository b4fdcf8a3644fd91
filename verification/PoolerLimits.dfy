/** Where the pooler's promises stop: waiters beside idle connections, pipelining clients. */
module PoolerLimits {
  import opened Bytes
  import opened Protocol
  import opened PoolModel
  import opened PoolerModel
  import opened PoolerSafety

  // ---------------------------------------------------------------------------
  // Waiters

  lemma RetireKeepsNoneWasted(p: Pool, gone: set<ConnId>)
    requires NoneWasted(p)
    ensures NoneWasted(Retire(p, gone))
  {
    var q := Retire(p, gone);
    assert forall c :: c in q.idle ==> c in p.idle && Conn(q, c).closed == Conn(p, c).closed;
    if p.idle == [] {
      assert q.idle == [];
    }
  }

  lemma AcquireKeepsNoneWasted(p: Pool, who: Requester, now: int)
    requires NoneWasted(p)
    ensures NoneWasted(Acquire(p, who, now))
  {
    if p.idle != [] {
      var n := |p.idle| - 1;
      assert p.idle[n] in p.idle;
      assert forall c :: c in p.idle[..n] ==> c in p.idle;
    }
  }

  lemma ReleaseKeepsNoneWasted(p: Pool, c: ConnId, now: int)
    requires NoneWasted(p)
    ensures NoneWasted(Release(p, c, now))
  {
    var q := WithConn(p, c, Conn(p, c).(handler := None, lastUsedAt := now));
    if Conn(p, c).closed {
      RetireKeepsNoneWasted(q, {c});
    }
  }

  lemma {:induction false} FlushKeepsNoneWasted(d: Duo, s: SessId)
    requires NoneWasted(d.pool) && d.session.holding.Some?
    ensures NoneWasted(Flush(d, s).pool)
    decreases |d.session.queued|
  {
    var q := d.session.queued;
    if q != [] {
      FlushKeepsNoneWasted(Forward(d.(session := d.session.(queued := q[1..])), s, q[0]), s);
    }
  }

  lemma TeardownKeepsNoneWasted(d: Duo)
    requires NoneWasted(d.pool)
    ensures NoneWasted(Teardown(d).pool)
  {
    if !d.session.closed && d.session.holding.Some? {
      var c := d.session.holding.value;
      RetireKeepsNoneWasted(Uninstall(d.pool, c), {c});
    }
  }

  lemma {:induction false} PumpKeepsNoneWasted(d: Duo, s: SessId, now: int)
    requires NoneWasted(d.pool)
    ensures NoneWasted(Pump(d, s, now).pool)
    decreases |d.session.buffer|
  {
    if !d.session.closed {
      var f := Next(false, d.session.buffer);
      if f.Implausible? {
        TeardownKeepsNoneWasted(d);
      } else if f.Framed? {
        var e := d.(session := d.session.(buffer := f.rest));
        if f.message.kind == Some(TERMINATE) {
          TeardownKeepsNoneWasted(e.(session := e.session.(farewell := f.message.raw)));
        } else {
          AcquireKeepsNoneWasted(d.pool, ForSession(s), now);
          PumpKeepsNoneWasted(Accept(e, s, f.message, now), s, now);
        }
      }
    }
  }

  lemma ResumedKeepsNoneWasted(d: Duo, s: SessId, now: int)
    requires NoneWasted(d.pool) && ForSession(s) in d.pool.promises
    ensures NoneWasted(SessionResumed(d, s, now).pool)
  {
    var spent := Spend(d.pool, ForSession(s));
    if d.pool.promises[ForSession(s)].Ready? {
      var c := d.pool.promises[ForSession(s)].connection;
      if d.session.closed {
        ReleaseKeepsNoneWasted(spent, c, now);
      } else {
        FlushKeepsNoneWasted(Duo(WithConn(spent, c, Conn(spent, c).(handler := Some(s))),
                                 d.session.(holding := Some(c))), s);
      }
    }
  }

  lemma OnServerMessageKeepsNoneWasted(d: Duo, s: SessId, c: ConnId, m: RawMessage, asker: SessId, now: int)
    requires NoneWasted(d.pool)
    ensures NoneWasted(OnServerMessage(d, s, c, m, asker, now).pool)
  {
    ReleaseKeepsNoneWasted(d.pool, c, now);
    AcquireKeepsNoneWasted(Release(d.pool, c, now), ForSession(s), now);
  }

  lemma LoginEventKeepsNoneWasted(sys: System, turn: Turn)
    requires NoneWasted(sys.pool)
    requires turn.event.LoginStart? || (turn.event.Resume? && turn.event.who.ForLogin?)
    ensures NoneWasted(Step(sys, turn).pool)
  {
    var p := sys.pool;
    match turn.event
    case LoginStart(l) => AcquireKeepsNoneWasted(p, ForLogin(l), turn.now);
    case Resume(ForLogin(l)) =>
      if ForLogin(l) in p.promises && p.promises[ForLogin(l)].Ready? {
        ReleaseKeepsNoneWasted(Spend(p, ForLogin(l)).(parametersCached := true),
                               p.promises[ForLogin(l)].connection, turn.now);
      }
  }

  lemma PoolEventKeepsNoneWasted(sys: System, turn: Turn)
    requires Booked(sys.pool, Held(sys)) && NoneWasted(sys.pool)
    requires turn.event.OpenSucceeds? || turn.event.OpenFails? || turn.event.WaiterTimeout?
          || turn.event.BackendGone? || turn.event.Sweep? || turn.event.DrainPool?
    ensures NoneWasted(Step(sys, turn).pool)
  {
    var p := sys.pool;
    match turn.event
    case OpenSucceeds(_, c) =>
      assert c in p.idle ==> c in p.connections;
    case BackendGone(c) => RetireKeepsNoneWasted(p, {c});
    case Sweep(cutoff) => RetireKeepsNoneWasted(p, StaleIdle(p, cutoff));
    case DrainPool => RetireKeepsNoneWasted(p, p.all);
    case _ =>
  }

  /** A dead connection gets into `idle` exactly when a backend garbles a message on an idle one. */
  lemma NoneWastedIff(sys: System, turn: Turn)
    requires SystemInv(sys) && NoneWasted(sys.pool)
    ensures NoneWasted(Step(sys, turn).pool)
       <==> !(turn.event.BackendGarbled? && turn.event.c in sys.pool.idle)
  {
    match turn.event
    case SessionStart(s, leftover) =>
      PumpKeepsNoneWasted(Duo(sys.pool, NewSession(leftover)), s, turn.now);
    case ClientData(s, chunk) =>
      if s in sys.sessions {
        var d := Pick(sys, s);
        PumpKeepsNoneWasted(d.(session := d.session.(buffer := d.session.buffer + chunk,
                                                     received := d.session.received + chunk)), s, turn.now);
      }
    case ClientGone(s) =>
      if s in sys.sessions {
        TeardownKeepsNoneWasted(Pick(sys, s));
      }
    case Resume(ForSession(s)) =>
      if s in sys.sessions && ForSession(s) in sys.pool.promises {
        ResumedKeepsNoneWasted(Pick(sys, s), s, turn.now);
      }
    case BackendSays(c, m) =>
      var q := Answer(sys.pool, c, m);
      assert NoneWasted(q);
      var handler := Conn(sys.pool, c).handler;
      if MaySay(sys.pool, c, m) && handler.Some? && handler.value in sys.sessions {
        var s := handler.value;
        OnServerMessageKeepsNoneWasted(Duo(q, sys.sessions[s]), s, c, m,
                                       Conn(sys.pool, c).unanswered[0].sender, turn.now);
      }
    case BackendGarbled(c) =>
      var q := Step(sys, turn).pool;
      assert forall d :: d in sys.pool.idle ==> (Conn(q, d).closed <==> d == c);
    case LoginStart(_) => LoginEventKeepsNoneWasted(sys, turn);
    case Resume(ForLogin(_)) => LoginEventKeepsNoneWasted(sys, turn);
    case _ => PoolEventKeepsNoneWasted(sys, turn);
  }

  // ---------------------------------------------------------------------------
  // Waiting beside an idle connection

  /** The guard of `acquire` under which it queues behind idle connections. */
  predicate TopIsDead(p: Pool) {
    |p.idle| >= 2 && Conn(p, p.idle[|p.idle| - 1]).closed && |p.all| + p.opening >= p.size
  }

  /** Pumping this session takes a connection: its first complete message finds none held or on its way. */
  predicate Asks(d: Duo) {
    && !d.session.closed && d.session.holding.None? && !d.session.acquiring
    && var f := Next(false, d.session.buffer); f.Framed? && f.message.kind != Some(TERMINATE)
  }

  lemma AcquireBesideIff(p: Pool, who: Requester, now: int)
    requires NobodyBeside(p)
    ensures NobodyBeside(Acquire(p, who, now)) <==> !TopIsDead(p)
  {
  }

  lemma RetireKeepsBeside(p: Pool, gone: set<ConnId>)
    requires NobodyBeside(p)
    ensures NobodyBeside(Retire(p, gone))
  {
  }

  lemma ReleaseKeepsBeside(p: Pool, c: ConnId, now: int)
    requires NobodyBeside(p)
    ensures NobodyBeside(Release(p, c, now))
  {
    RetireKeepsBeside(WithConn(p, c, Conn(p, c).(handler := None, lastUsedAt := now)), {c});
  }

  lemma {:induction false} FlushKeepsLine(d: Duo, s: SessId)
    requires d.session.holding.Some?
    ensures Flush(d, s).pool.waiters == d.pool.waiters && Flush(d, s).pool.idle == d.pool.idle
    decreases |d.session.queued|
  {
    var q := d.session.queued;
    if q != [] { FlushKeepsLine(Forward(d.(session := d.session.(queued := q[1..])), s, q[0]), s); }
  }

  /** Once a connection is on its way, further messages are only queued. */
  lemma {:induction false} PumpOnlyQueues(d: Duo, s: SessId, now: int)
    requires d.session.acquiring && d.session.holding.None?
    ensures Pump(d, s, now).pool == d.pool
    decreases |d.session.buffer|
  {
    var f := Next(false, d.session.buffer);
    if !d.session.closed && f.Framed? && f.message.kind != Some(TERMINATE) {
      PumpOnlyQueues(Accept(d.(session := d.session.(buffer := f.rest)), s, f.message, now), s, now);
    }
  }

  lemma {:induction false} PumpWhileHolding(d: Duo, s: SessId, now: int)
    requires d.session.holding.Some? && NobodyBeside(d.pool)
    ensures NobodyBeside(Pump(d, s, now).pool)
    decreases |d.session.buffer|
  {
    if !d.session.closed {
      var f := Next(false, d.session.buffer);
      RetireKeepsBeside(Uninstall(d.pool, d.session.holding.value), {d.session.holding.value});
      if f.Framed? && f.message.kind != Some(TERMINATE) {
        PumpWhileHolding(Accept(d.(session := d.session.(buffer := f.rest)), s, f.message, now), s, now);
      }
    }
  }

  lemma PumpBesideIff(d: Duo, s: SessId, now: int)
    requires NobodyBeside(d.pool)
    ensures NobodyBeside(Pump(d, s, now).pool) <==> !(Asks(d) && TopIsDead(d.pool))
  {
    if d.session.holding.Some? {
      PumpWhileHolding(d, s, now);
    } else if d.session.acquiring {
      PumpOnlyQueues(d, s, now);
    } else if Asks(d) {
      var f := Next(false, d.session.buffer);
      AcquireBesideIff(d.pool, ForSession(s), now);
      PumpOnlyQueues(Accept(d.(session := d.session.(buffer := f.rest)), s, f.message, now), s, now);
    }
  }

  /** The turns in which somebody asks the pool for a connection. */
  predicate TurnAsks(sys: System, e: Event) {
    match e
    case SessionStart(s, leftover) => s !in sys.sessions && Asks(Duo(sys.pool, NewSession(leftover)))
    case ClientData(s, chunk) =>
      s in sys.sessions &&
      var session := sys.sessions[s];
      Asks(Duo(sys.pool, session.(buffer := session.buffer + chunk, received := session.received + chunk)))
    case LoginStart(l) => !sys.pool.parametersCached && ForLogin(l) !in sys.pool.promises
    case _ => false
  }

  lemma ResumedKeepsBeside(d: Duo, s: SessId, now: int)
    requires NobodyBeside(d.pool) && ForSession(s) in d.pool.promises
    ensures NobodyBeside(SessionResumed(d, s, now).pool)
  {
    var spent := Spend(d.pool, ForSession(s));
    if d.pool.promises[ForSession(s)].Ready? {
      var c := d.pool.promises[ForSession(s)].connection;
      if d.session.closed {
        ReleaseKeepsBeside(spent, c, now);
      } else {
        FlushKeepsLine(Duo(WithConn(spent, c, Conn(spent, c).(handler := Some(s))), d.session.(holding := Some(c))), s);
      }
    }
  }

  lemma SaysKeepsBeside(sys: System, now: int, c: ConnId, m: RawMessage)
    requires SystemInv(sys) && NobodyBeside(sys.pool)
    ensures NobodyBeside(Step(sys, Turn(now, BackendSays(c, m))).pool)
  {
    var handler := Conn(sys.pool, c).handler;
    if MaySay(sys.pool, c, m) && handler.Some? {
      assert Holds(sys, handler.value, c);
      assert Flags(Pick(sys, handler.value), handler.value);
      ReleaseKeepsBeside(Answer(sys.pool, c, m), c, now);
    }
  }

  lemma PoolTurnKeepsBeside(sys: System, turn: Turn)
    requires NobodyBeside(sys.pool)
    requires turn.event.OpenSucceeds? || turn.event.OpenFails? || turn.event.WaiterTimeout?
          || turn.event.BackendGarbled? || turn.event.BackendGone? || turn.event.Sweep? || turn.event.DrainPool?
    ensures NobodyBeside(Step(sys, turn).pool)
  {
    var p := sys.pool;
    match turn.event
    case BackendGone(c) => RetireKeepsBeside(p, {c});
    case Sweep(cutoff) => RetireKeepsBeside(p, StaleIdle(p, cutoff));
    case _ =>
  }

  lemma SessionTurnBesideIff(sys: System, turn: Turn)
    requires NobodyBeside(sys.pool)
    requires turn.event.SessionStart? || turn.event.ClientData? || turn.event.ClientGone?
          || (turn.event.Resume? && turn.event.who.ForSession?)
    ensures NobodyBeside(Step(sys, turn).pool) <==> !(TurnAsks(sys, turn.event) && TopIsDead(sys.pool))
  {
    match turn.event
    case SessionStart(s, leftover) => PumpBesideIff(Duo(sys.pool, NewSession(leftover)), s, turn.now);
    case ClientData(s, chunk) =>
      if s in sys.sessions {
        var session := sys.sessions[s];
        PumpBesideIff(Duo(sys.pool, session.(buffer := session.buffer + chunk,
                                             received := session.received + chunk)), s, turn.now);
      }
    case ClientGone(s) =>
      if s in sys.sessions && sys.sessions[s].holding.Some? {
        var c := sys.sessions[s].holding.value;
        RetireKeepsBeside(Uninstall(sys.pool, c), {c});
      }
    case Resume(ForSession(s)) =>
      if s in sys.sessions && ForSession(s) in sys.pool.promises {
        ResumedKeepsBeside(Pick(sys, s), s, turn.now);
      }
  }

  /**
   * A turn leaves somebody waiting beside an idle connection exactly when somebody asks while the
   * pool is full and the newest of several idle connections is dead: `acquire` drops it and queues.
   */
  lemma WaitsBesideIdleIff(sys: System, turn: Turn)
    requires SystemInv(sys) && NobodyBeside(sys.pool)
    ensures NobodyBeside(Step(sys, turn).pool) <==> !(TurnAsks(sys, turn.event) && TopIsDead(sys.pool))
  {
    match turn.event
    case SessionStart(_, _) => SessionTurnBesideIff(sys, turn);
    case ClientData(_, _) => SessionTurnBesideIff(sys, turn);
    case ClientGone(_) => SessionTurnBesideIff(sys, turn);
    case Resume(ForSession(_)) => SessionTurnBesideIff(sys, turn);
    case LoginStart(l) => AcquireBesideIff(sys.pool, ForLogin(l), turn.now);
    case Resume(ForLogin(l)) =>
      if ForLogin(l) in sys.pool.promises && sys.pool.promises[ForLogin(l)].Ready? {
        ReleaseKeepsBeside(Spend(sys.pool, ForLogin(l)).(parametersCached := true),
                           sys.pool.promises[ForLogin(l)].connection, turn.now);
      }
    case BackendSays(c, m) => SaysKeepsBeside(sys, turn.now, c, m);
    case _ => PoolTurnKeepsBeside(sys, turn);
  }

  /** Two logins fill a pool of two and leave both connections idle; one dies; a client asks. */
  function StarvingRun(q: RawMessage): seq<Turn> {
    [ Turn(0, LoginStart(1)), Turn(0, LoginStart(2)),
      Turn(0, OpenSucceeds(ForLogin(1), 0)), Turn(0, OpenSucceeds(ForLogin(2), 1)),
      Turn(0, Resume(ForLogin(1))), Turn(0, Resume(ForLogin(2))),
      Turn(0, BackendGarbled(1)), Turn(0, SessionStart(1, q.raw)) ]
  }

  /** Both idle, the newer one about to die. */
  ghost predicate BothIdle(p: Pool) {
    && p.size == 2 && p.idle == [0, 1] && p.all == {0, 1} && p.opening == 0 && p.waiters == []
    && 0 in p.connections && 1 in p.connections && !Conn(p, 0).closed
  }

  ghost predicate BothOpening(sys: System) {
    && sys.sessions == map[]
    && sys.pool == EmptyPool(2).(opening := 2, promises := map[ForLogin(1) := Opening, ForLogin(2) := Opening])
  }

  ghost predicate BothReady(sys: System) {
    && sys.sessions == map[] && sys.pool.size == 2 && sys.pool.idle == [] && sys.pool.all == {0, 1}
    && sys.pool.opening == 0 && sys.pool.waiters == [] && !sys.pool.parametersCached
    && sys.pool.promises == map[ForLogin(1) := Ready(0), ForLogin(2) := Ready(1)]
    && 0 in sys.pool.connections && 1 in sys.pool.connections
    && !Conn(sys.pool, 0).closed && !Conn(sys.pool, 1).closed
  }

  lemma LoginsAsk()
    ensures BothOpening(Step(Step(Start(2), Turn(0, LoginStart(1))), Turn(0, LoginStart(2))))
  {
    var s1 := Step(Start(2), Turn(0, LoginStart(1)));
    assert s1.pool.promises == map[ForLogin(1) := Opening];
    var s2 := Step(s1, Turn(0, LoginStart(2)));
    assert s2.pool.promises == map[ForLogin(1) := Opening, ForLogin(2) := Opening];
  }

  lemma LoginsConnect(sys: System)
    requires BothOpening(sys)
    ensures BothReady(Step(Step(sys, Turn(0, OpenSucceeds(ForLogin(1), 0))), Turn(0, OpenSucceeds(ForLogin(2), 1))))
  {
    var s1 := Step(sys, Turn(0, OpenSucceeds(ForLogin(1), 0)));
    assert s1.pool.promises == map[ForLogin(1) := Ready(0), ForLogin(2) := Opening];
    var s2 := Step(s1, Turn(0, OpenSucceeds(ForLogin(2), 1)));
    assert s2.pool.promises == map[ForLogin(1) := Ready(0), ForLogin(2) := Ready(1)];
  }

  lemma LoginsGiveBack(sys: System)
    requires BothReady(sys)
    ensures var s := Step(Step(sys, Turn(0, Resume(ForLogin(1)))), Turn(0, Resume(ForLogin(2))));
            BothIdle(s.pool) && s.sessions == map[]
  {
    var s1 := Step(sys, Turn(0, Resume(ForLogin(1))));
    assert s1.pool.idle == [0] && s1.pool.promises == map[ForLogin(2) := Ready(1)];
    assert [0] + [1] == [0, 1];
  }

  lemma LoginsFillThePool(q: RawMessage)
    ensures var sys := Run(Start(2), StarvingRun(q)[..6]); BothIdle(sys.pool) && sys.sessions == map[]
  {
    hide Step;
    var es := StarvingRun(q);
    LoginsAsk();
    var s2 := Step(Step(Start(2), es[0]), es[1]);
    LoginsConnect(s2);
    LoginsGiveBack(Step(Step(s2, es[2]), es[3]));
    RunThree(Start(2), es[0], es[1], es[2]);
    RunThree(Step(s2, es[2]), es[3], es[4], es[5]);
    assert es[..6] == [es[0], es[1], es[2]] + [es[3], es[4], es[5]];
    RunAppend(Start(2), [es[0], es[1], es[2]], [es[3], es[4], es[5]]);
  }

  /** A client is left waiting although connection 0 is alive and idle. */
  lemma ClientWaitsBesideIdle(q: RawMessage)
    requires Encodable(q) && q.kind == Some(QUERY)
    ensures var p := Run(Start(2), StarvingRun(q)).pool;
            p.waiters == [ForSession(1)] && p.idle == [0] && !Conn(p, 0).closed
  {
    var es := StarvingRun(q);
    var s6 := Run(Start(2), es[..6]);
    LoginsFillThePool(q);
    var s7 := Step(s6, es[6]);
    assert Conn(s7.pool, 1).closed && s7.pool.idle == [0, 1] && !Conn(s7.pool, 0).closed;
    var d := Duo(s7.pool, NewSession(q.raw));
    assert q.raw + [] == q.raw;
    PumpOne(d, 1, q, []);
    PumpOnlyQueues(Accept(d.(session := d.session.(buffer := [])), 1, q, 0), 1, 0);
    assert [0, 1][..1] == [0];
    assert [es[6], es[7]][1..] == [es[7]] && [es[7]][1..] == [];
    assert Run(s6, [es[6], es[7]]) == Run(s7, [es[7]]) == Step(s7, es[7]);
    assert es == es[..6] + [es[6], es[7]];
    RunAppend(Start(2), es[..6], [es[6], es[7]]);
  }

  // ---------------------------------------------------------------------------
  // Slots lost for good

  /** A dead connection that still counts against the pool although nobody has it. */
  ghost predicate LostIn(p: Pool, c: ConnId) {
    && c in p.all && c in p.connections && Conn(p, c).closed && c !in p.idle
    && forall w :: w in p.promises && p.promises[w].Ready? ==> p.promises[w].connection != c
  }

  ghost predicate Lost(sys: System, c: ConnId) {
    LostIn(sys.pool, c) && forall s :: s in sys.sessions ==> sys.sessions[s].holding != Some(c)
  }

  /** `acquire` loses the connection it pops exactly when that one is dead. */
  lemma AcquireLosesIff(p: Pool, who: Requester, now: int, held: set<ConnId>)
    requires PoolInv(p, held) && p.idle != []
    ensures LostIn(Acquire(p, who, now), p.idle[|p.idle| - 1]) <==> Conn(p, p.idle[|p.idle| - 1]).closed
  {
    var c := p.idle[|p.idle| - 1];
    assert c in p.idle;
    if Conn(p, c).closed {
      forall w | w in p.promises && p.promises[w].Ready? ensures p.promises[w].connection != c {
        assert ReadyMap(p)[w] in ReadyMap(p).Values;
      }
    }
  }

  lemma RetireKeepsLost(p: Pool, gone: set<ConnId>, c: ConnId)
    requires LostIn(p, c) && c !in gone
    ensures LostIn(Retire(p, gone), c)
  {
  }

  lemma ReleaseKeepsLost(p: Pool, d: ConnId, now: int, c: ConnId)
    requires LostIn(p, c) && d != c
    ensures LostIn(Release(p, d, now), c)
  {
    RetireKeepsLost(WithConn(p, d, Conn(p, d).(handler := None, lastUsedAt := now)), {d}, c);
  }

  lemma AcquireKeepsLost(p: Pool, who: Requester, now: int, c: ConnId)
    requires LostIn(p, c)
    ensures LostIn(Acquire(p, who, now), c)
  {
    if p.idle != [] { assert p.idle[|p.idle| - 1] in p.idle; }
  }

  lemma {:induction false} FlushKeepsLost(d: Duo, s: SessId, c: ConnId)
    requires LostIn(d.pool, c) && d.session.holding.Some? && d.session.holding != Some(c)
    ensures LostIn(Flush(d, s).pool, c) && Flush(d, s).session.holding == d.session.holding
    decreases |d.session.queued|
  {
    var q := d.session.queued;
    if q != [] { FlushKeepsLost(Forward(d.(session := d.session.(queued := q[1..])), s, q[0]), s, c); }
  }

  lemma TeardownKeepsLost(d: Duo, c: ConnId)
    requires LostIn(d.pool, c) && d.session.holding != Some(c)
    ensures LostIn(Teardown(d).pool, c) && Teardown(d).session.holding != Some(c)
  {
    if !d.session.closed && d.session.holding.Some? {
      RetireKeepsLost(Uninstall(d.pool, d.session.holding.value), {d.session.holding.value}, c);
    }
  }

  lemma {:induction false} PumpKeepsLost(d: Duo, s: SessId, now: int, c: ConnId)
    requires LostIn(d.pool, c) && d.session.holding != Some(c)
    ensures LostIn(Pump(d, s, now).pool, c) && Pump(d, s, now).session.holding != Some(c)
    decreases |d.session.buffer|
  {
    if !d.session.closed {
      var f := Next(false, d.session.buffer);
      if f.Implausible? {
        TeardownKeepsLost(d, c);
      } else if f.Framed? {
        var e := d.(session := d.session.(buffer := f.rest));
        if f.message.kind == Some(TERMINATE) {
          TeardownKeepsLost(e.(session := e.session.(farewell := f.message.raw)), c);
        } else {
          AcquireKeepsLost(d.pool, ForSession(s), now, c);
          PumpKeepsLost(Accept(e, s, f.message, now), s, now, c);
        }
      }
    }
  }

  lemma ResumedKeepsLost(d: Duo, s: SessId, now: int, c: ConnId)
    requires LostIn(d.pool, c) && d.session.holding != Some(c) && ForSession(s) in d.pool.promises
    ensures LostIn(SessionResumed(d, s, now).pool, c) && SessionResumed(d, s, now).session.holding != Some(c)
  {
    var spent := Spend(d.pool, ForSession(s));
    if d.pool.promises[ForSession(s)].Ready? {
      var e := d.pool.promises[ForSession(s)].connection;
      if d.session.closed {
        ReleaseKeepsLost(spent, e, now, c);
      } else {
        FlushKeepsLost(Duo(WithConn(spent, e, Conn(spent, e).(handler := Some(s))), d.session.(holding := Some(e))), s, c);
      }
    }
  }

  lemma SaysKeepsLost(sys: System, now: int, e: ConnId, m: RawMessage, c: ConnId)
    requires SystemInv(sys) && Lost(sys, c)
    ensures Lost(Step(sys, Turn(now, BackendSays(e, m))), c)
  {
    var handler := Conn(sys.pool, e).handler;
    if MaySay(sys.pool, e, m) {
      assert e != c;
      if handler.Some? {
        assert Holds(sys, handler.value, e);
        assert Flags(Pick(sys, handler.value), handler.value);
        ReleaseKeepsLost(Answer(sys.pool, e, m), e, now, c);
      }
    }
  }

  lemma PoolTurnKeepsLost(sys: System, turn: Turn, c: ConnId)
    requires LostIn(sys.pool, c)
    requires turn.event.OpenSucceeds? || turn.event.OpenFails? || turn.event.WaiterTimeout?
          || turn.event.BackendGarbled? || turn.event.BackendGone? || turn.event.Sweep?
    ensures LostIn(Step(sys, turn).pool, c)
  {
    match turn.event
    case BackendGone(d) => if d != c { RetireKeepsLost(sys.pool, {d}, c); }
    case Sweep(cutoff) => RetireKeepsLost(sys.pool, StaleIdle(sys.pool, cutoff), c);
    case _ =>
  }

  lemma SessionTurnKeepsLost(sys: System, turn: Turn, c: ConnId)
    requires Lost(sys, c)
    requires turn.event.SessionStart? || turn.event.ClientData? || turn.event.ClientGone?
          || (turn.event.Resume? && turn.event.who.ForSession?)
    ensures Lost(Step(sys, turn), c)
  {
    match turn.event
    case SessionStart(s, leftover) => PumpKeepsLost(Duo(sys.pool, NewSession(leftover)), s, turn.now, c);
    case ClientData(s, chunk) =>
      if s in sys.sessions {
        var session := sys.sessions[s];
        PumpKeepsLost(Duo(sys.pool, session.(buffer := session.buffer + chunk,
                                             received := session.received + chunk)), s, turn.now, c);
      }
    case ClientGone(s) => if s in sys.sessions { TeardownKeepsLost(Pick(sys, s), c); }
    case Resume(ForSession(s)) =>
      if s in sys.sessions && ForSession(s) in sys.pool.promises {
        ResumedKeepsLost(Pick(sys, s), s, turn.now, c);
      }
  }

  lemma LoginTurnKeepsLost(sys: System, turn: Turn, c: ConnId)
    requires LostIn(sys.pool, c)
    requires turn.event.LoginStart? || (turn.event.Resume? && turn.event.who.ForLogin?)
    ensures LostIn(Step(sys, turn).pool, c)
  {
    match turn.event
    case LoginStart(l) => AcquireKeepsLost(sys.pool, ForLogin(l), turn.now, c);
    case Resume(ForLogin(l)) =>
      if ForLogin(l) in sys.pool.promises && sys.pool.promises[ForLogin(l)].Ready? {
        ReleaseKeepsLost(Spend(sys.pool, ForLogin(l)).(parametersCached := true),
                         sys.pool.promises[ForLogin(l)].connection, turn.now, c);
      }
  }

  /** Only a drain gives a lost slot back. */
  lemma LostStays(sys: System, turn: Turn, c: ConnId)
    requires SystemInv(sys) && Lost(sys, c) && !turn.event.DrainPool?
    ensures Lost(Step(sys, turn), c)
  {
    hide SystemInv, LostIn;
    match turn.event
    case SessionStart(_, _) => SessionTurnKeepsLost(sys, turn, c);
    case ClientData(_, _) => SessionTurnKeepsLost(sys, turn, c);
    case ClientGone(_) => SessionTurnKeepsLost(sys, turn, c);
    case Resume(ForSession(_)) => SessionTurnKeepsLost(sys, turn, c);
    case LoginStart(_) => LoginTurnKeepsLost(sys, turn, c);
    case Resume(ForLogin(_)) => LoginTurnKeepsLost(sys, turn, c);
    case BackendSays(e, m) => SaysKeepsLost(sys, turn.now, e, m, c);
    case _ => PoolTurnKeepsLost(sys, turn, c);
  }

  lemma {:induction false} LostStaysThroughout(sys: System, turns: seq<Turn>, c: ConnId)
    requires SystemInv(sys) && Lost(sys, c) && forall t :: t in turns ==> !t.event.DrainPool?
    ensures SystemInv(Run(sys, turns)) && Lost(Run(sys, turns), c)
    decreases |turns|
  {
    if turns != [] {
      StepKeepsInv(sys, turns[0]);
      LostStays(sys, turns[0], c);
      LostStaysThroughout(Step(sys, turns[0]), turns[1..], c);
    }
  }

  /** Until the next drain, a pool with a lost slot is a smaller pool. */
  lemma LostSlotShrinksThePool(size: nat, before: seq<Turn>, later: seq<Turn>, c: ConnId)
    requires Lost(Run(Start(size), before), c) && forall t :: t in later ==> !t.event.DrainPool?
    ensures var p := Run(Run(Start(size), before), later).pool; |Live(p)| + |OpeningSet(p)| < size
  {
    var sys := Run(Start(size), before);
    EveryRunIsExclusive(size, before);
    LostStaysThroughout(sys, later, c);
    var p := Run(sys, later).pool;
    assert c !in Live(p);
    SubsetSize(Live(p), p.all - {c});
    RunKeepsSize(Start(size), before);
    RunKeepsSize(sys, later);
  }

  ghost predicate NoIdleGarble(sys: System, turns: seq<Turn>)
    decreases |turns|
  {
    turns == [] ||
    (!(turns[0].event.BackendGarbled? && turns[0].event.c in sys.pool.idle)
     && NoIdleGarble(Step(sys, turns[0]), turns[1..]))
  }

  lemma {:induction false} RunWastesNone(sys: System, turns: seq<Turn>)
    requires SystemInv(sys) && NoneWasted(sys.pool) && NoIdleGarble(sys, turns)
    ensures NoneWasted(Run(sys, turns).pool)
    decreases |turns|
  {
    if turns != [] {
      StepKeepsInv(sys, turns[0]);
      NoneWastedIff(sys, turns[0]);
      RunWastesNone(Step(sys, turns[0]), turns[1..]);
    }
  }

  // ---------------------------------------------------------------------------
  // Promises

  /** A promise settles once: pending to ready or refused, then only consumed. */
  ghost predicate Settles(p: Pool, q: Pool) {
    && (forall w :: w in p.promises && w in q.promises && q.promises[w] != p.promises[w] ==>
          (p.promises[w] == Opening || p.promises[w] == Waiting)
          && (q.promises[w].Ready? || q.promises[w] == Refused))
    && (forall w :: w in p.promises && w !in q.promises ==>
          p.promises[w].Ready? || p.promises[w] == Refused)
    && (forall w :: w in q.promises && w !in p.promises ==> q.promises[w] != Refused)
  }

  ghost predicate AddsOnly(p: Pool, q: Pool) {
    && (forall w :: w in p.promises ==> w in q.promises && q.promises[w] == p.promises[w])
    && (forall w :: w in q.promises && w !in p.promises ==> q.promises[w] != Refused)
  }

  lemma {:induction false} PumpAddsOnly(d: Duo, s: SessId, now: int)
    requires ForSession(s) in d.pool.promises ==> d.session.acquiring || d.session.holding.Some?
    ensures AddsOnly(d.pool, Pump(d, s, now).pool)
    decreases |d.session.buffer|
  {
    if !d.session.closed {
      var f := Next(false, d.session.buffer);
      if f.Framed? && f.message.kind != Some(TERMINATE) {
        var e := d.(session := d.session.(buffer := f.rest));
        var g := Accept(e, s, f.message, now);
        assert AddsOnly(d.pool, g.pool);
        PumpAddsOnly(g, s, now);
      }
    }
  }

  lemma ReleaseSettles(p: Pool, c: ConnId, now: int)
    requires Admitted(p)
    ensures Settles(p, Release(p, c, now))
  {
    if p.waiters != [] {
      assert p.waiters[0] in p.waiters;
    }
  }

  lemma {:induction false} FlushPromises(d: Duo, s: SessId)
    requires d.session.holding.Some?
    ensures Flush(d, s).pool.promises == d.pool.promises
    decreases |d.session.queued|
  {
    var q := d.session.queued;
    if q != [] {
      FlushPromises(Forward(d.(session := d.session.(queued := q[1..])), s, q[0]), s);
    }
  }

  lemma SessionSettles(sys: System, turn: Turn)
    requires SystemInv(sys)
    requires turn.event.SessionStart? || turn.event.ClientData? || turn.event.ClientGone?
    ensures Settles(sys.pool, Step(sys, turn).pool)
  {
    match turn.event
    case SessionStart(s, leftover) =>
      if s !in sys.sessions {
        PumpAddsOnly(Duo(sys.pool, NewSession(leftover)), s, turn.now);
      }
    case ClientData(s, chunk) =>
      if s in sys.sessions {
        var d := Pick(sys, s);
        assert Flags(d, s);
        PumpAddsOnly(d.(session := d.session.(buffer := d.session.buffer + chunk,
                                              received := d.session.received + chunk)), s, turn.now);
      }
    case ClientGone(s) =>
  }

  lemma ResumeSettles(p: Pool, session: Session, s: SessId, now: int)
    requires Admitted(p) && ForSession(s) in p.promises
    ensures Settles(p, SessionResumed(Duo(p, session), s, now).pool)
  {
    var spent := Spend(p, ForSession(s));
    if p.promises[ForSession(s)].Ready? {
      var c := p.promises[ForSession(s)].connection;
      if session.closed {
        assert Admitted(spent) by { assert OpeningSet(spent) == OpeningSet(p); }
        ReleaseSettles(spent, c, now);
      } else {
        FlushPromises(Duo(WithConn(spent, c, Conn(spent, c).(handler := Some(s))),
                          session.(holding := Some(c))), s);
      }
    }
  }

  lemma LoginSettles(p: Pool, login: nat, now: int)
    requires Admitted(p) && ForLogin(login) in p.promises
    ensures Settles(p, LoginResumed(p, ForLogin(login), now))
  {
    var cached := Spend(p, ForLogin(login)).(parametersCached := true);
    if p.promises[ForLogin(login)].Ready? {
      assert Admitted(cached) by { assert OpeningSet(cached) == OpeningSet(p); }
      ReleaseSettles(cached, p.promises[ForLogin(login)].connection, now);
    }
  }

  lemma BackendSaysSettles(sys: System, now: int, c: ConnId, m: RawMessage)
    requires SystemInv(sys)
    ensures Settles(sys.pool, Step(sys, Turn(now, BackendSays(c, m))).pool)
  {
    var p := sys.pool;
    SettlesSame(p);
    if MaySay(p, c, m) && Conn(p, c).handler.Some? {
      var s := Conn(p, c).handler.value;
      assert Holds(sys, s, c);
      assert Flags(Pick(sys, s), s);
      AnswerThenReleaseSettles(p, c, m, now);
      hide Settles, Release, SystemInv;
      var q := Step(sys, Turn(now, BackendSays(c, m))).pool;
      assert q == Release(Answer(p, c, m), c, now) || q == Answer(p, c, m);
    }
  }

  lemma SettlesSame(p: Pool)
    ensures forall q: Pool :: q.promises == p.promises ==> Settles(p, q)
  {
  }

  lemma AnswerThenReleaseSettles(p: Pool, c: ConnId, m: RawMessage, now: int)
    requires Admitted(p)
    ensures Settles(p, Release(Answer(p, c, m), c, now))
  {
    var q := Answer(p, c, m);
    assert Admitted(q) by { assert OpeningSet(q) == OpeningSet(p); }
    ReleaseSettles(q, c, now);
  }

  lemma PoolEventSettles(sys: System, turn: Turn)
    requires Admitted(sys.pool)
    requires turn.event.OpenSucceeds? || turn.event.OpenFails? || turn.event.WaiterTimeout?
          || turn.event.BackendGarbled? || turn.event.BackendGone? || turn.event.Sweep? || turn.event.DrainPool?
    ensures Settles(sys.pool, Step(sys, turn).pool)
  {
  }

  lemma StepSettles(sys: System, turn: Turn)
    requires SystemInv(sys)
    ensures Settles(sys.pool, Step(sys, turn).pool)
  {
    match turn.event
    case SessionStart(_, _) => SessionSettles(sys, turn);
    case ClientData(_, _) => SessionSettles(sys, turn);
    case ClientGone(_) => SessionSettles(sys, turn);
    case Resume(ForSession(s)) =>
      if s in sys.sessions && ForSession(s) in sys.pool.promises {
        ResumeSettles(sys.pool, sys.sessions[s], s, turn.now);
      }
    case Resume(ForLogin(l)) =>
      if ForLogin(l) in sys.pool.promises {
        LoginSettles(sys.pool, l, turn.now);
      }
    case BackendSays(c, m) => BackendSaysSettles(sys, turn.now, c, m);
    case LoginStart(_) =>
    case _ => PoolEventSettles(sys, turn);
  }

  /** In every reachable state, whatever happens next. */
  lemma EveryPromiseSettlesOnce(size: nat, turns: seq<Turn>, turn: Turn)
    ensures var sys := Run(Start(size), turns); Settles(sys.pool, Step(sys, turn).pool)
  {
    EveryRunIsExclusive(size, turns);
    StepSettles(Run(Start(size), turns), turn);
  }

  lemma {:induction false} PumpKeepsSize(d: Duo, s: SessId, now: int)
    ensures Pump(d, s, now).pool.size == d.pool.size
    decreases |d.session.buffer|
  {
    var f := Next(false, d.session.buffer);
    if !d.session.closed && f.Framed? && f.message.kind != Some(TERMINATE) {
      var e := d.(session := d.session.(buffer := f.rest));
      PumpKeepsSize(Accept(e, s, f.message, now), s, now);
    }
  }

  lemma {:induction false} FlushKeepsSize(d: Duo, s: SessId)
    requires d.session.holding.Some?
    ensures Flush(d, s).pool.size == d.pool.size
    decreases |d.session.queued|
  {
    var q := d.session.queued;
    if q != [] {
      FlushKeepsSize(Forward(d.(session := d.session.(queued := q[1..])), s, q[0]), s);
    }
  }

  lemma StepKeepsSize(sys: System, turn: Turn)
    ensures Step(sys, turn).pool.size == sys.pool.size
  {
    match turn.event
    case SessionStart(s, leftover) =>
      PumpKeepsSize(Duo(sys.pool, NewSession(leftover)), s, turn.now);
    case ClientData(s, chunk) =>
      if s in sys.sessions {
        var d := Pick(sys, s);
        PumpKeepsSize(d.(session := d.session.(buffer := d.session.buffer + chunk,
                                               received := d.session.received + chunk)), s, turn.now);
      }
    case Resume(ForSession(s)) =>
      if s in sys.sessions && ForSession(s) in sys.pool.promises && sys.pool.promises[ForSession(s)].Ready? {
        var c := sys.pool.promises[ForSession(s)].connection;
        var spent := Spend(sys.pool, ForSession(s));
        FlushKeepsSize(Duo(WithConn(spent, c, Conn(spent, c).(handler := Some(s))),
                           sys.sessions[s].(holding := Some(c))), s);
      }
    case _ =>
  }

  lemma {:induction false} RunKeepsSize(sys: System, turns: seq<Turn>)
    ensures Run(sys, turns).pool.size == sys.pool.size
    decreases |turns|
  {
    if turns != [] {
      StepKeepsSize(sys, turns[0]);
      RunKeepsSize(Step(sys, turns[0]), turns[1..]);
    }
  }

  /** The bound of the pool, in connections: live ones plus connects in flight. */
  lemma ConnectionsStayBounded(size: nat, turns: seq<Turn>)
    ensures var p := Run(Start(size), turns).pool; |Live(p)| + |OpeningSet(p)| <= size
  {
    EveryRunIsExclusive(size, turns);
    var sys := Run(Start(size), turns);
    SubsetSize(Live(sys.pool), sys.pool.all);
    RunKeepsSize(Start(size), turns);
  }

  // ---------------------------------------------------------------------------
  // A client that writes past an unanswered sync point

  /** Client 1 sends query `q` twice in one chunk; client 2 sends it once, later. */
  function PipeliningRun(q: RawMessage, ready: RawMessage): seq<Turn> {
    [ Turn(0, SessionStart(1, q.raw + q.raw)),
      Turn(0, OpenSucceeds(ForSession(1), 0)),
      Turn(0, Resume(ForSession(1))),
      Turn(0, BackendSays(0, ready)),
      Turn(0, SessionStart(2, q.raw)),
      Turn(0, Resume(ForSession(2))),
      Turn(0, BackendSays(0, ready)) ]
  }

  predicate Pipelines(q: RawMessage, ready: RawMessage) {
    && Encodable(q) && q.kind == Some(QUERY)
    && IsReadyForQuery(ready) && ready.payload == [STATUS_IDLE]
  }

  lemma PumpOne(d: Duo, s: SessId, q: RawMessage, rest: Bytes)
    requires Encodable(q) && q.kind == Some(QUERY)
    requires !d.session.closed && d.session.buffer == q.raw + rest
    ensures Pump(d, s, 0) == Pump(Accept(d.(session := d.session.(buffer := rest)), s, q, 0), s, 0)
  {
    NextTypedOfEncoded(q, rest);
  }

  /** Both queries wait for the first connection of a pool of one. */
  lemma TurnOne(q: RawMessage)
    requires Encodable(q) && q.kind == Some(QUERY)
    ensures var d := Pump(Duo(EmptyPool(1), NewSession(q.raw + q.raw)), 1, 0);
            && d.pool == EmptyPool(1).(opening := 1, promises := map[ForSession(1) := Opening])
            && d.session == NewSession(q.raw + q.raw).(buffer := [], acquiring := true, queued := [q, q])
  {
    var d := Duo(EmptyPool(1), NewSession(q.raw + q.raw));
    PumpOne(d, 1, q, q.raw);
    var e := Accept(d.(session := d.session.(buffer := q.raw)), 1, q, 0);
    assert q.raw == q.raw + [];
    PumpOne(e, 1, q, []);
    assert [q] + [q] == [q, q];
  }

  lemma FlushTwo(d: Duo, s: SessId, c: ConnId, q: RawMessage)
    requires d.session.holding == Some(c) && d.session.queued == [q, q] && !Conn(d.pool, c).closed
    requires Conn(d.pool, c).unanswered == []
    ensures var e := Flush(d, s);
            && e.session.holding == Some(c) && e.session.closed == d.session.closed && e.session.queued == []
            && e.session.written == d.session.written
            && e.pool == WithConn(d.pool, c, Conn(d.pool, c).(unanswered := [Request(s, q), Request(s, q)]))
  {
    var e := Forward(d.(session := d.session.(queued := [q])), s, q);
    assert [q, q][1..] == [q];
    var f := Forward(e.(session := e.session.(queued := [])), s, q);
    assert [q][1..] == [];
    assert Flush(d, s) == Flush(e, s) == Flush(f, s) == f;
    assert [] + [Request(s, q)] == [Request(s, q)];
    assert [Request(s, q)] + [Request(s, q)] == [Request(s, q), Request(s, q)];
    assert f.pool.connections ==
           d.pool.connections[c := Conn(d.pool, c).(unanswered := [Request(s, q), Request(s, q)])];
  }

  ghost predicate Overdue(sys: System, q: RawMessage) {
    && sys.pool.size == 1 && sys.pool.idle == [0] && sys.pool.promises == map[]
    && 0 in sys.pool.connections
    && !Conn(sys.pool, 0).closed && Conn(sys.pool, 0).unanswered == [Request(1, q)]
    && 2 !in sys.sessions
  }

  ghost predicate Asked(sys: System, q: RawMessage) {
    && sys.pool == EmptyPool(1).(opening := 1, promises := map[ForSession(1) := Opening])
    && sys.sessions == map[1 := NewSession(q.raw + q.raw).(buffer := [], acquiring := true, queued := [q, q])]
  }

  ghost predicate Sent(sys: System, q: RawMessage) {
    && sys.pool.size == 1 && sys.pool.idle == [] && sys.pool.promises == map[] && sys.pool.waiters == []
    && 0 in sys.pool.connections && !Conn(sys.pool, 0).closed && Conn(sys.pool, 0).handler == Some(1)
    && Conn(sys.pool, 0).unanswered == [Request(1, q), Request(1, q)]
    && 1 in sys.sessions && !sys.sessions[1].closed && sys.sessions[1].queued == [] && 2 !in sys.sessions
  }

  lemma TurnsTwoAndThree(sys: System, q: RawMessage)
    requires Asked(sys, q)
    ensures Sent(Step(Step(sys, Turn(0, OpenSucceeds(ForSession(1), 0))), Turn(0, Resume(ForSession(1)))), q)
  {
    var s2 := Step(sys, Turn(0, OpenSucceeds(ForSession(1), 0)));
    assert s2.pool.promises == map[ForSession(1) := Ready(0)];
    var spent := Spend(s2.pool, ForSession(1));
    assert spent.promises == map[];
    FlushTwo(Duo(WithConn(spent, 0, Conn(spent, 0).(handler := Some(1))), s2.sessions[1].(holding := Some(0))), 1, 0, q);
  }

  lemma RunThree(sys: System, a: Turn, b: Turn, c: Turn)
    ensures Run(sys, [a, b, c]) == Step(Step(Step(sys, a), b), c)
  {
    var s1, s2 := Step(sys, a), Step(Step(sys, a), b);
    assert [a, b, c][1..] == [b, c] && [b, c][1..] == [c];
    assert Run(s2, [c]) == Run(Step(s2, c), [c][1..]);
    assert Run(s1, [b, c]) == Run(s2, [c]);
  }

  /** Client 1's connection goes back to the pool still owing an answer. */
  lemma FirstFourTurns(q: RawMessage, ready: RawMessage)
    requires Pipelines(q, ready)
    ensures Overdue(Run(Start(1), PipeliningRun(q, ready)[..4]), q)
  {
    var turns := PipeliningRun(q, ready);
    TurnOne(q);
    var s1 := Step(Start(1), turns[0]);
    assert Asked(s1, q);
    TurnsTwoAndThree(s1, q);
    AnsweredOnce(Step(Step(s1, turns[1]), turns[2]), q, ready);
    RunThree(s1, turns[1], turns[2], turns[3]);
    assert turns[..4][1..] == [turns[1], turns[2], turns[3]];
  }

  lemma AnsweredOnce(sys: System, q: RawMessage, ready: RawMessage)
    requires Pipelines(q, ready)
    requires Sent(sys, q)
    ensures Overdue(Step(sys, Turn(0, BackendSays(0, ready))), q)
  {
    var rs := Conn(sys.pool, 0).unanswered;
    assert IsSyncPoint(rs[0].message);
    assert AfterSync(rs) == rs[1..] == [Request(1, q)];
  }

  ghost predicate HandedOver(sys: System, q: RawMessage) {
    && sys.pool.promises == map[ForSession(2) := Ready(0)]
    && 0 in sys.pool.connections && !Conn(sys.pool, 0).closed
    && Conn(sys.pool, 0).unanswered == [Request(1, q)]
    && 2 in sys.sessions && !sys.sessions[2].closed && sys.sessions[2].queued == [q]
  }

  ghost predicate Mixed(sys: System, q: RawMessage) {
    && 0 in sys.pool.connections && !Conn(sys.pool, 0).closed && Conn(sys.pool, 0).handler == Some(2)
    && Conn(sys.pool, 0).unanswered == [Request(1, q), Request(2, q)]
    && 2 in sys.sessions && !sys.sessions[2].closed
  }

  /** It is handed to client 2 ... */
  lemma TurnFive(sys: System, q: RawMessage, ready: RawMessage)
    requires Pipelines(q, ready) && Overdue(sys, q)
    ensures HandedOver(Step(sys, Turn(0, SessionStart(2, q.raw))), q)
  {
    var d := Duo(sys.pool, NewSession(q.raw));
    assert q.raw == q.raw + [];
    PumpOne(d, 2, q, []);
    var e := Accept(d.(session := d.session.(buffer := [])), 2, q, 0);
    assert Pump(d, 2, 0) == e && e.session.queued == [q];
  }

  /** ... whose query joins the one still unanswered. */
  lemma TurnSix(sys: System, q: RawMessage)
    requires HandedOver(sys, q)
    ensures Mixed(Step(sys, Turn(0, Resume(ForSession(2)))), q)
  {
    var spent := Spend(sys.pool, ForSession(2));
    var g := Duo(WithConn(spent, 0, Conn(spent, 0).(handler := Some(2))), sys.sessions[2].(holding := Some(0)));
    var h := Forward(g.(session := g.session.(queued := [])), 2, q);
    assert [q][1..] == [];
    assert Flush(g, 2) == Flush(h, 2) == h;
  }

  lemma TurnSeven(sys: System, q: RawMessage, ready: RawMessage)
    requires Pipelines(q, ready) && Mixed(sys, q)
    ensures var next := Step(sys, Turn(0, BackendSays(0, ready)));
            2 in next.sessions && Relayed(1, ready) in next.sessions[2].written
  {
    assert IsSyncPoint(Conn(sys.pool, 0).unanswered[0].message);
    var next := Step(sys, Turn(0, BackendSays(0, ready)));
    assert next.sessions[2].written == sys.sessions[2].written + [Relayed(1, ready)];
  }

  lemma {:induction false} RunAppend(sys: System, a: seq<Turn>, b: seq<Turn>)
    ensures Run(sys, a + b) == Run(Run(sys, a), b)
    decreases |a|
  {
    if a == [] {
      assert a + b == b;
    } else {
      assert (a + b)[1..] == a[1..] + b;
      RunAppend(Step(sys, a[0]), a[1..], b);
    }
  }

  /** Without the discipline, client 2 is sent the answer to client 1's second query. */
  lemma PipeliningLeaks(q: RawMessage, ready: RawMessage)
    requires Pipelines(q, ready)
    ensures var sys := Run(Start(1), PipeliningRun(q, ready));
            2 in sys.sessions && Relayed(1, ready) in sys.sessions[2].written
  {
    var turns := PipeliningRun(q, ready);
    FirstFourTurns(q, ready);
    var s4 := Run(Start(1), turns[..4]);
    TurnFive(s4, q, ready);
    TurnSix(Step(s4, turns[4]), q);
    TurnSeven(Step(Step(s4, turns[4]), turns[5]), q, ready);
    RunThree(s4, turns[4], turns[5], turns[6]);
    assert turns == turns[..4] + [turns[4], turns[5], turns[6]];
    RunAppend(Start(1), turns[..4], [turns[4], turns[5], turns[6]]);
  }
}

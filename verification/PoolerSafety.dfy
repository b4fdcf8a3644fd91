/** What every run of the transaction pooler keeps. */
module PoolerSafety {
  import opened Bytes
  import opened Protocol
  import opened PoolModel
  import opened PoolerModel

  ghost function HeldBy(session: Session): set<ConnId> {
    if session.holding.Some? then {session.holding.value} else {}
  }

  ghost predicate HandlerIs(p: Pool, s: SessId, holding: Option<ConnId>) {
    forall c :: c in p.connections ==> (p.connections[c].handler == Some(s) <==> holding == Some(c))
  }

  /** `others` are the connections the other sessions hold. */
  ghost predicate Owns(d: Duo, s: SessId, others: set<ConnId>) {
    && PoolInv(d.pool, others + HeldBy(d.session))
    && HeldBy(d.session) !! others
    && HandlerIs(d.pool, s, d.session.holding)
  }

  ghost predicate Flags(d: Duo, s: SessId) {
    && (d.session.acquiring <==> ForSession(s) in d.pool.promises)
    && (d.session.holding.Some? ==>
          !d.session.closed && !d.session.acquiring && d.session.queued == [])
    && (!d.session.closed && d.session.queued != [] ==> d.session.acquiring)
  }

  ghost predicate DuoInv(d: Duo, s: SessId, others: set<ConnId>) {
    Owns(d, s, others) && Flags(d, s)
  }

  /** Nothing another session relies on has moved. */
  ghost predicate Untouched(p: Pool, q: Pool, s: SessId, others: set<ConnId>) {
    && (forall c :: c in others && c in p.connections ==>
          c in q.connections && q.connections[c] == p.connections[c])
    && (forall w :: w != ForSession(s) ==> (w in p.promises <==> w in q.promises))
  }

  // ---------------------------------------------------------------------------
  // One session's operations

  lemma SendKeeps(p: Pool, c: ConnId, s: SessId, m: RawMessage, held: set<ConnId>)
    requires PoolInv(p, held) && c in held
    ensures PoolInv(Send(p, c, s, m), held)
    ensures Send(p, c, s, m).promises == p.promises
    ensures forall t, holding :: HandlerIs(p, t, holding) ==> HandlerIs(Send(p, c, s, m), t, holding)
  {
    WithConnKeepsInv(p, c, Conn(p, c).(unanswered := Conn(p, c).unanswered + [Request(s, m)]), held);
  }

  lemma ForwardKeeps(d: Duo, s: SessId, m: RawMessage, others: set<ConnId>)
    requires Owns(d, s, others) && d.session.holding.Some?
    ensures Owns(Forward(d, s, m), s, others)
    ensures Untouched(d.pool, Forward(d, s, m).pool, s, others)
  {
    SendKeeps(d.pool, d.session.holding.value, s, m, others + HeldBy(d.session));
  }

  lemma {:induction false} FlushKeeps(d: Duo, s: SessId, others: set<ConnId>)
    requires Owns(d, s, others) && d.session.holding.Some?
    ensures var e := Flush(d, s);
            && Owns(e, s, others)
            && Untouched(d.pool, e.pool, s, others)
            && e.pool.promises == d.pool.promises
            && e.session.(fates := []) == d.session.(fates := [], queued := [])
    decreases |d.session.queued|
  {
    var q := d.session.queued;
    if q != [] {
      var popped := d.(session := d.session.(queued := q[1..]));
      ForwardKeeps(popped, s, q[0], others);
      FlushKeeps(Forward(popped, s, q[0]), s, others);
    }
  }

  lemma AcquireTouches(p: Pool, s: SessId, now: int, held: set<ConnId>, others: set<ConnId>)
    requires PoolInv(p, held) && others <= held && ForSession(s) !in p.promises
    ensures Untouched(p, Acquire(p, ForSession(s), now), s, others)
    ensures forall holding :: HandlerIs(p, s, holding) ==> HandlerIs(Acquire(p, ForSession(s), now), s, holding)
  {
    if p.idle != [] {
      assert p.idle[|p.idle| - 1] in p.idle;
    }
  }

  lemma StartAcquireKeeps(d: Duo, s: SessId, now: int, others: set<ConnId>)
    requires DuoInv(d.(session := d.session.(queued := [])), s, others)
    requires !d.session.acquiring && d.session.holding.None?
    ensures DuoInv(StartAcquire(d, s, now), s, others)
    ensures Untouched(d.pool, StartAcquire(d, s, now).pool, s, others)
  {
    var held := others + HeldBy(d.session);
    assert Owns(d, s, others);
    AcquireKeepsInv(d.pool, ForSession(s), now, held);
    AcquireTouches(d.pool, s, now, held, others);
  }

  lemma AcceptKeeps(d: Duo, s: SessId, m: RawMessage, now: int, others: set<ConnId>)
    requires DuoInv(d, s, others) && !d.session.closed
    ensures DuoInv(Accept(d, s, m, now), s, others)
    ensures Untouched(d.pool, Accept(d, s, m, now).pool, s, others)
  {
    if d.session.holding.Some? {
      ForwardKeeps(d, s, m, others);
    } else {
      var e := d.(session := d.session.(queued := d.session.queued + [m]));
      if !d.session.acquiring {
        StartAcquireKeeps(e, s, now, others);
      }
    }
  }

  lemma DiscardTouches(p: Pool, c: ConnId, s: SessId, others: set<ConnId>)
    requires c !in others && HandlerIs(p, s, Some(c))
    ensures Untouched(p, Discard(p, c), s, others) && HandlerIs(Discard(p, c), s, None)
    ensures Discard(p, c).promises == p.promises
  {
  }

  lemma TeardownKeeps(d: Duo, s: SessId, others: set<ConnId>)
    requires DuoInv(d, s, others)
    ensures DuoInv(Teardown(d), s, others)
    ensures Untouched(d.pool, Teardown(d).pool, s, others)
  {
    hide Discard;
    if !d.session.closed && d.session.holding.Some? {
      var c := d.session.holding.value;
      DiscardKeepsInv(d.pool, c, others + {c});
      DiscardTouches(d.pool, c, s, others);
      assert others + {c} - {c} == others;
    }
  }

  lemma {:induction false} PumpKeeps(d: Duo, s: SessId, now: int, others: set<ConnId>)
    requires DuoInv(d, s, others)
    ensures DuoInv(Pump(d, s, now), s, others)
    ensures Untouched(d.pool, Pump(d, s, now).pool, s, others)
    decreases |d.session.buffer|
  {
    if !d.session.closed {
      var f := Next(false, d.session.buffer);
      if f.Implausible? {
        TeardownKeeps(d, s, others);
      } else if f.Framed? {
        var e := d.(session := d.session.(buffer := f.rest));
        assert DuoInv(e, s, others);
        if f.message.kind == Some(TERMINATE) {
          TeardownKeeps(e.(session := e.session.(farewell := f.message.raw)), s, others);
        } else {
          AcceptKeeps(e, s, f.message, now, others);
          PumpKeeps(Accept(e, s, f.message, now), s, now, others);
        }
      }
    }
  }

  lemma ReleaseTouches(p: Pool, c: ConnId, now: int, s: SessId, others: set<ConnId>)
    requires Admitted(p) && c !in others
    ensures Release(p, c, now).promises.Keys == p.promises.Keys
    ensures Untouched(p, Release(p, c, now), s, others)
    ensures HandlerIs(p, s, Some(c)) || HandlerIs(p, s, None) ==> HandlerIs(Release(p, c, now), s, None)
  {
    if p.waiters != [] {
      assert p.waiters[0] in p.promises;
    }
    assert Release(p, c, now).promises.Keys == p.promises.Keys;
  }

  lemma InstallKeeps(p: Pool, c: ConnId, s: SessId, others: set<ConnId>)
    requires PoolInv(p, others + {c}) && c !in others && HandlerIs(p, s, None)
    ensures var q := WithConn(p, c, Conn(p, c).(handler := Some(s)));
            PoolInv(q, others + {c}) && HandlerIs(q, s, Some(c))
  {
    WithConnKeepsInv(p, c, Conn(p, c).(handler := Some(s)), others + {c});
  }

  lemma GrantedLateKeeps(d: Duo, s: SessId, c: ConnId, now: int, others: set<ConnId>)
    requires PoolInv(d.pool, others + {c}) && c !in others && HandlerIs(d.pool, s, None)
    requires d.session.closed && d.session.holding.None? && ForSession(s) !in d.pool.promises
    ensures var e := Granted(d, s, c, now);
            DuoInv(e, s, others) && Untouched(d.pool, e.pool, s, others)
  {
    hide Release;
    ReleaseKeepsInv(d.pool, c, now, others + {c});
    ReleaseTouches(d.pool, c, now, s, others);
    assert others + {c} - {c} == others + HeldBy(d.session);
  }

  lemma GrantedOpenKeeps(d: Duo, s: SessId, c: ConnId, now: int, others: set<ConnId>)
    requires PoolInv(d.pool, others + {c}) && c !in others && HandlerIs(d.pool, s, None)
    requires !d.session.closed && ForSession(s) !in d.pool.promises
    ensures var e := Granted(d, s, c, now);
            DuoInv(e, s, others) && Untouched(d.pool, e.pool, s, others)
  {
    InstallKeeps(d.pool, c, s, others);
    var f := Duo(WithConn(d.pool, c, Conn(d.pool, c).(handler := Some(s))),
                 d.session.(holding := Some(c)));
    FlushKeeps(f, s, others);
  }

  lemma SpendForGrant(d: Duo, s: SessId, c: ConnId, others: set<ConnId>)
    requires DuoInv(d, s, others)
    requires ForSession(s) in d.pool.promises && d.pool.promises[ForSession(s)] == Ready(c)
    ensures var q := Spend(d.pool, ForSession(s));
            && PoolInv(q, others + {c}) && c !in others && HandlerIs(q, s, None)
            && ForSession(s) !in q.promises && d.session.holding.None?
            && Untouched(d.pool, q, s, others)
  {
    assert others + HeldBy(d.session) == others;
    SpendReadyKeepsInv(d.pool, ForSession(s), others);
    assert ReadyMap(d.pool)[ForSession(s)] !in others;
  }

  lemma GrantedKeeps(d: Duo, s: SessId, c: ConnId, now: int, others: set<ConnId>)
    requires DuoInv(d, s, others)
    requires ForSession(s) in d.pool.promises && d.pool.promises[ForSession(s)] == Ready(c)
    ensures var e := Granted(d.(pool := Spend(d.pool, ForSession(s))), s, c, now);
            DuoInv(e, s, others) && Untouched(d.pool, e.pool, s, others)
  {
    hide Granted, Spend, PoolInv, DuoInv;
    var spent := d.(pool := Spend(d.pool, ForSession(s)));
    SpendForGrant(d, s, c, others);
    if d.session.closed {
      GrantedLateKeeps(spent, s, c, now, others);
    } else {
      GrantedOpenKeeps(spent, s, c, now, others);
    }
  }

  lemma DeniedKeeps(d: Duo, s: SessId, others: set<ConnId>)
    requires DuoInv(d, s, others)
    requires ForSession(s) in d.pool.promises && d.pool.promises[ForSession(s)] == Refused
    ensures var e := Denied(d.(pool := Spend(d.pool, ForSession(s))));
            DuoInv(e, s, others) && Untouched(d.pool, e.pool, s, others)
  {
    SpendRefusedKeepsInv(d.pool, ForSession(s), others + HeldBy(d.session));
  }

  lemma OnServerMessageKeeps(d: Duo, s: SessId, c: ConnId, m: RawMessage, asker: SessId, now: int,
                             others: set<ConnId>)
    requires DuoInv(d, s, others) && d.session.holding == Some(c)
    ensures var e := OnServerMessage(d, s, c, m, asker, now);
            DuoInv(e, s, others) && Untouched(d.pool, e.pool, s, others)
  {
    ReleaseKeepsInv(d.pool, c, now, others + {c});
    ReleaseTouches(d.pool, c, now, s, others);
    assert others + {c} - {c} == others;
  }

  // ---------------------------------------------------------------------------
  // The whole system

  ghost predicate Holds(sys: System, s: SessId, c: ConnId) {
    s in sys.sessions && sys.sessions[s].holding == Some(c)
  }

  ghost function Held(sys: System): set<ConnId> {
    set s | s in sys.sessions && sys.sessions[s].holding.Some? :: sys.sessions[s].holding.value
  }

  /**
   * The pooling invariant: the pool's own, no connection held twice, a handler installed
   * exactly for the holder, and each session's flags in step with its promise.
   */
  ghost predicate SystemInv(sys: System) {
    && PoolInv(sys.pool, Held(sys))
    && (forall s: SessId, t: SessId, c: ConnId :: Holds(sys, s, c) && Holds(sys, t, c) ==> s == t)
    && (forall c: ConnId, s: SessId :: c in sys.pool.connections ==>
          (sys.pool.connections[c].handler == Some(s) <==> Holds(sys, s, c)))
    && (forall s :: s in sys.sessions ==> Flags(Pick(sys, s), s))
    && (forall s: SessId :: ForSession(s) in sys.pool.promises ==> s in sys.sessions)
  }

  ghost function Others(sys: System, s: SessId): set<ConnId> {
    set t | t in sys.sessions && t != s && sys.sessions[t].holding.Some? :: sys.sessions[t].holding.value
  }

  lemma HeldSplits(sys: System, s: SessId)
    requires s in sys.sessions
    ensures Held(sys) == Others(sys, s) + HeldBy(sys.sessions[s])
  {
  }

  lemma Focus(sys: System, s: SessId)
    requires SystemInv(sys) && s in sys.sessions
    ensures DuoInv(Pick(sys, s), s, Others(sys, s))
  {
    HeldSplits(sys, s);
    if sys.sessions[s].holding.Some? {
      assert Holds(sys, s, sys.sessions[s].holding.value);
    }
    forall c | c in Others(sys, s) ensures c !in HeldBy(sys.sessions[s]) {
      var t :| t in sys.sessions && t != s && sys.sessions[t].holding == Some(c);
      assert Holds(sys, t, c);
    }
    forall c | c in sys.pool.connections
      ensures sys.pool.connections[c].handler == Some(s) <==> sys.sessions[s].holding == Some(c)
    {
      assert Holds(sys, s, c) <==> sys.sessions[s].holding == Some(c);
    }
  }

  lemma OthersHold(sys: System, s: SessId, d: Duo)
    ensures forall t: SessId, c: ConnId :: t != s ==> (Holds(Put(sys, s, d), t, c) <==> Holds(sys, t, c))
    ensures forall c: ConnId :: Holds(Put(sys, s, d), s, c) <==> d.session.holding == Some(c)
    ensures forall t: SessId, c: ConnId :: t != s && Holds(sys, t, c) ==> c in Others(sys, s)
    ensures Held(Put(sys, s, d)) == Others(sys, s) + HeldBy(d.session)
  {
    var sys' := Put(sys, s, d);
    HeldSplits(sys', s);
    forall t: SessId, c: ConnId | t != s && Holds(sys, t, c) ensures c in Others(sys, s) {
      assert t in sys.sessions && sys.sessions[t].holding.value == c;
    }
    forall c ensures c in Others(sys', s) <==> c in Others(sys, s) {
      if c in Others(sys', s) {
        var t :| t in sys'.sessions && t != s && sys'.sessions[t].holding.Some?
                 && sys'.sessions[t].holding.value == c;
        assert Holds(sys, t, c);
      }
      if c in Others(sys, s) {
        var t :| t in sys.sessions && t != s && sys.sessions[t].holding.Some?
                 && sys.sessions[t].holding.value == c;
        assert sys'.sessions[t] == sys.sessions[t];
      }
    }
  }

  lemma HandlersStay(sys: System, s: SessId, d: Duo)
    requires SystemInv(sys)
    requires DuoInv(d, s, Others(sys, s)) && Untouched(sys.pool, d.pool, s, Others(sys, s))
    ensures forall c: ConnId, t: SessId :: c in d.pool.connections ==>
              (d.pool.connections[c].handler == Some(t) <==> Holds(Put(sys, s, d), t, c))
  {
    var sys' := Put(sys, s, d);
    OthersHold(sys, s, d);
    forall c: ConnId, t: SessId | c in d.pool.connections
      ensures d.pool.connections[c].handler == Some(t) <==> Holds(sys', t, c)
    {
      if t == s {
      } else if Holds(sys, t, c) {
        assert c in sys.pool.connections;
      }
    }
  }

  /** What one session does to itself and the pool keeps the whole system in order. */
  lemma Unfocus(sys: System, s: SessId, d: Duo)
    requires SystemInv(sys)
    requires DuoInv(d, s, Others(sys, s)) && Untouched(sys.pool, d.pool, s, Others(sys, s))
    ensures SystemInv(Put(sys, s, d))
  {
    var sys' := Put(sys, s, d);
    OthersHold(sys, s, d);
    HandlersStay(sys, s, d);
    forall t | t in sys'.sessions ensures Flags(Pick(sys', t), t) {
      if t != s {
        assert Flags(Pick(sys, t), t);
      }
    }
  }

  /** No session's promise or handler comes or goes. */
  ghost predicate SameFaces(p: Pool, q: Pool) {
    && (forall s: SessId :: ForSession(s) in q.promises <==> ForSession(s) in p.promises)
    && (forall c :: c in q.connections ==>
          if c in p.connections then q.connections[c].handler == p.connections[c].handler
          else q.connections[c].handler.None?)
  }

  /** A step of the pool alone. */
  lemma PoolStep(sys: System, q: Pool)
    requires SystemInv(sys) && PoolInv(q, Held(sys))
    requires SameFaces(sys.pool, q)
    ensures SystemInv(sys.(pool := q))
  {
    var sys' := sys.(pool := q);
    assert Held(sys') == Held(sys);
    assert forall s: SessId, c: ConnId :: Holds(sys', s, c) <==> Holds(sys, s, c);
    forall s | s in sys.sessions ensures Flags(Pick(sys', s), s) {
      assert Flags(Pick(sys, s), s);
    }
    forall c: ConnId, s: SessId | c in q.connections
      ensures q.connections[c].handler == Some(s) <==> Holds(sys', s, c)
    {
      if Holds(sys, s, c) {
        assert c in Held(sys);
      }
    }
  }

  lemma OthersOfNew(sys: System, s: SessId)
    requires s !in sys.sessions
    ensures Others(sys, s) == Held(sys)
  {
    forall c ensures c in Held(sys) <==> c in Others(sys, s) {
      if c in Held(sys) {
        var t :| t in sys.sessions && sys.sessions[t].holding.Some? && sys.sessions[t].holding.value == c;
        assert t != s;
      }
    }
  }

  lemma NothingHeldByNew(sys: System, s: SessId, leftover: Bytes)
    requires s !in sys.sessions
    ensures Others(sys, s) + HeldBy(NewSession(leftover)) == Held(sys)
    ensures Others(sys, s) !! HeldBy(NewSession(leftover))
    ensures forall c: ConnId :: !Holds(sys, s, c)
  {
    OthersOfNew(sys, s);
  }

  lemma SameHeld(p: Pool, a: set<ConnId>, b: set<ConnId>)
    requires PoolInv(p, a) && a == b
    ensures PoolInv(p, b)
  {
  }

  lemma FocusNew(sys: System, s: SessId, leftover: Bytes)
    requires SystemInv(sys) && s !in sys.sessions
    ensures DuoInv(Duo(sys.pool, NewSession(leftover)), s, Others(sys, s))
  {
    hide PoolInv;
    NothingHeldByNew(sys, s, leftover);
    SameHeld(sys.pool, Held(sys), Others(sys, s) + HeldBy(NewSession(leftover)));
  }

  lemma ResumedKeeps(d: Duo, s: SessId, now: int, others: set<ConnId>)
    requires DuoInv(d, s, others) && ForSession(s) in d.pool.promises
    ensures var e := SessionResumed(d, s, now);
            DuoInv(e, s, others) && Untouched(d.pool, e.pool, s, others)
  {
    hide DuoInv, Granted, Denied;
    match d.pool.promises[ForSession(s)]
    case Ready(c) => GrantedKeeps(d, s, c, now, others);
    case Refused => DeniedKeeps(d, s, others);
    case _ =>
  }

  lemma SessionResumes(sys: System, s: SessId, now: int)
    requires SystemInv(sys)
    ensures SystemInv(Step(sys, Turn(now, Resume(ForSession(s)))))
  {
    hide DuoInv, SessionResumed;
    if ForSession(s) in sys.pool.promises {
      Focus(sys, s);
      ResumedKeeps(Pick(sys, s), s, now, Others(sys, s));
      Unfocus(sys, s, SessionResumed(Pick(sys, s), s, now));
    }
  }

  lemma LoginResumes(sys: System, login: nat, now: int)
    requires SystemInv(sys)
    ensures SystemInv(Step(sys, Turn(now, Resume(ForLogin(login)))))
  {
    var p, who := sys.pool, ForLogin(login);
    if who in p.promises {
      LoginReturns(p, login, now, Held(sys));
      LoginSameFaces(p, login, now, Held(sys));
      PoolStep(sys, LoginResumed(p, who, now));
    }
  }

  lemma CachedKeepsInv(p: Pool, held: set<ConnId>)
    requires PoolInv(p, held)
    ensures PoolInv(p.(parametersCached := true), held)
  {
    var q := p.(parametersCached := true);
    assert ReadyMap(q) == ReadyMap(p) && Live(q) == Live(p) && OpeningSet(q) == OpeningSet(p);
  }

  lemma LoginSameFaces(p: Pool, login: nat, now: int, held: set<ConnId>)
    requires Owned(p.idle, ReadyMap(p), held, Live(p)) && Booked(p, held) && Admitted(p)
    requires ForLogin(login) in p.promises
    ensures SameFaces(p, LoginResumed(p, ForLogin(login), now))
  {
    if p.promises[ForLogin(login)].Ready? {
      var c := p.promises[ForLogin(login)].connection;
      assert ReadyMap(p)[ForLogin(login)] !in held;
      assert p.connections[c].handler.None?;
      if p.waiters != [] {
        assert p.waiters[0] in p.promises;
      }
    }
  }

  lemma LoginReturns(p: Pool, login: nat, now: int, held: set<ConnId>)
    requires PoolInv(p, held) && ForLogin(login) in p.promises
    ensures PoolInv(LoginResumed(p, ForLogin(login), now), held)
  {
    var who := ForLogin(login);
    if p.promises[who].Ready? {
      var c := p.promises[who].connection;
      SpendReadyKeepsInv(p, who, held);
      CachedKeepsInv(Spend(p, who), held + {c});
      ReleaseKeepsInv(Spend(p, who).(parametersCached := true), c, now, held + {c});
      assert ReadyMap(p)[who] !in held;
      assert held + {c} - {c} == held;
    } else if p.promises[who].Refused? {
      SpendRefusedKeepsInv(p, who, held);
    }
  }

  lemma SessionEventKeepsInv(sys: System, turn: Turn)
    requires SystemInv(sys)
    requires turn.event.SessionStart? || turn.event.ClientData? || turn.event.ClientGone?
    ensures SystemInv(Step(sys, turn))
  {
    match turn.event
    case SessionStart(s, leftover) =>
      if s !in sys.sessions {
        var d := Duo(sys.pool, NewSession(leftover));
        FocusNew(sys, s, leftover);
        PumpKeeps(d, s, turn.now, Others(sys, s));
        Unfocus(sys, s, Pump(d, s, turn.now));
      }
    case ClientData(s, chunk) =>
      if s in sys.sessions {
        var d := Pick(sys, s);
        var e := d.(session := d.session.(buffer := d.session.buffer + chunk,
                                          received := d.session.received + chunk));
        Focus(sys, s);
        PumpKeeps(e, s, turn.now, Others(sys, s));
        Unfocus(sys, s, Pump(e, s, turn.now));
      }
    case ClientGone(s) =>
      if s in sys.sessions {
        Focus(sys, s);
        TeardownKeeps(Pick(sys, s), s, Others(sys, s));
        Unfocus(sys, s, Teardown(Pick(sys, s)));
      }
  }

  lemma AnswerKeepsInv(sys: System, c: ConnId, m: RawMessage)
    requires SystemInv(sys) && MaySay(sys.pool, c, m)
    ensures SystemInv(sys.(pool := Answer(sys.pool, c, m)))
  {
    var p := sys.pool;
    if IsReadyForQuery(m) {
      var conn := Conn(p, c).(unanswered := AfterSync(Conn(p, c).unanswered), status := m.payload[0]);
      WithConnKeepsInv(p, c, conn, Held(sys));
      PoolStep(sys, WithConn(p, c, conn));
    }
  }

  lemma BackendSaysKeepsInv(sys: System, now: int, c: ConnId, m: RawMessage)
    requires SystemInv(sys)
    ensures SystemInv(Step(sys, Turn(now, BackendSays(c, m))))
  {
    if MaySay(sys.pool, c, m) {
      var after := sys.(pool := Answer(sys.pool, c, m));
      AnswerKeepsInv(sys, c, m);
      var handler := Conn(sys.pool, c).handler;
      if handler.Some? && handler.value in sys.sessions {
        var s := handler.value;
        var asker := Conn(sys.pool, c).unanswered[0].sender;
        assert Holds(sys, s, c);
        Focus(after, s);
        OnServerMessageKeeps(Pick(after, s), s, c, m, asker, now, Others(after, s));
        Unfocus(after, s, OnServerMessage(Pick(after, s), s, c, m, asker, now));
        assert Put(after, s, OnServerMessage(Pick(after, s), s, c, m, asker, now))
            == Step(sys, Turn(now, BackendSays(c, m)));
      }
    }
  }

  lemma SocketClosedKeeps(p: Pool, c: ConnId, held: set<ConnId>)
    requires PoolInv(p, held)
    ensures PoolInv(SocketClosed(p, c), held) && SameFaces(p, SocketClosed(p, c))
  {
    RetireKeepsInv(p, {c}, held);
  }

  lemma BackendGoneKeepsInv(sys: System, now: int, c: ConnId)
    requires SystemInv(sys)
    ensures SystemInv(Step(sys, Turn(now, BackendGone(c))))
  {
    SocketClosedKeeps(sys.pool, c, Held(sys));
    PoolStep(sys, SocketClosed(sys.pool, c));
  }

  lemma SweepKeepsInv(sys: System, now: int, cutoff: int)
    requires SystemInv(sys)
    ensures SystemInv(Step(sys, Turn(now, Sweep(cutoff))))
  {
    RetireKeepsInv(sys.pool, StaleIdle(sys.pool, cutoff), Held(sys));
    PoolStep(sys, SweepIdle(sys.pool, cutoff));
  }

  lemma DrainPoolKeepsInv(sys: System, now: int)
    requires SystemInv(sys)
    ensures SystemInv(Step(sys, Turn(now, DrainPool)))
  {
    DrainKeepsInv(sys.pool, Held(sys));
    PoolStep(sys, Drain(sys.pool));
  }

  lemma BackendGarbledKeepsInv(sys: System, now: int, c: ConnId)
    requires SystemInv(sys)
    ensures SystemInv(Step(sys, Turn(now, BackendGarbled(c))))
  {
    FramingErrorKeepsInv(sys.pool, c, Held(sys));
    PoolStep(sys, FramingError(sys.pool, c));
  }

  lemma OpenSucceedsKeepsInv(sys: System, now: int, who: Requester, c: ConnId)
    requires SystemInv(sys)
    ensures SystemInv(Step(sys, Turn(now, OpenSucceeds(who, c))))
  {
    if Step(sys, Turn(now, OpenSucceeds(who, c))) != sys {
      OpenDoneKeepsInv(sys.pool, who, c, now, Held(sys));
      PoolStep(sys, OpenDone(sys.pool, who, c, now));
    }
  }

  lemma OpenFailsKeepsInv(sys: System, now: int, who: Requester)
    requires SystemInv(sys)
    ensures SystemInv(Step(sys, Turn(now, OpenFails(who))))
  {
    if Step(sys, Turn(now, OpenFails(who))) != sys {
      OpenFailedKeepsInv(sys.pool, who, Held(sys));
      PoolStep(sys, OpenFailed(sys.pool, who));
    }
  }

  lemma WaiterTimeoutKeepsInv(sys: System, now: int, who: Requester)
    requires SystemInv(sys)
    ensures SystemInv(Step(sys, Turn(now, WaiterTimeout(who))))
  {
    if Step(sys, Turn(now, WaiterTimeout(who))) != sys {
      TimedOutKeepsInv(sys.pool, who, Held(sys));
      PoolStep(sys, TimedOut(sys.pool, who));
    }
  }

  lemma AcquireSameFaces(p: Pool, login: nat, now: int)
    requires forall c :: c in p.idle ==> c in p.connections
    ensures SameFaces(p, Acquire(p, ForLogin(login), now))
  {
    if p.idle != [] {
      assert p.idle[|p.idle| - 1] in p.idle;
    }
  }

  lemma LoginStartKeepsInv(sys: System, now: int, l: nat)
    requires SystemInv(sys)
    ensures SystemInv(Step(sys, Turn(now, LoginStart(l))))
  {
    var p := sys.pool;
    if !p.parametersCached && ForLogin(l) !in p.promises {
      AcquireKeepsInv(p, ForLogin(l), now, Held(sys));
      AcquireSameFaces(p, l, now);
      PoolStep(sys, Acquire(p, ForLogin(l), now));
    }
  }

  lemma StepKeepsInv(sys: System, turn: Turn)
    requires SystemInv(sys)
    ensures SystemInv(Step(sys, turn))
  {
    match turn.event
    case SessionStart(_, _) => SessionEventKeepsInv(sys, turn);
    case ClientData(_, _) => SessionEventKeepsInv(sys, turn);
    case ClientGone(_) => SessionEventKeepsInv(sys, turn);
    case LoginStart(l) => LoginStartKeepsInv(sys, turn.now, l);
    case Resume(ForSession(s)) => SessionResumes(sys, s, turn.now);
    case Resume(ForLogin(l)) => LoginResumes(sys, l, turn.now);
    case OpenSucceeds(who, c) => OpenSucceedsKeepsInv(sys, turn.now, who, c);
    case OpenFails(who) => OpenFailsKeepsInv(sys, turn.now, who);
    case WaiterTimeout(who) => WaiterTimeoutKeepsInv(sys, turn.now, who);
    case BackendSays(c, m) => BackendSaysKeepsInv(sys, turn.now, c, m);
    case BackendGarbled(c) => BackendGarbledKeepsInv(sys, turn.now, c);
    case BackendGone(c) => BackendGoneKeepsInv(sys, turn.now, c);
    case Sweep(cutoff) => SweepKeepsInv(sys, turn.now, cutoff);
    case DrainPool => DrainPoolKeepsInv(sys, turn.now);
  }

  lemma {:induction false} RunKeepsInv(sys: System, turns: seq<Turn>)
    requires SystemInv(sys)
    ensures SystemInv(Run(sys, turns))
    decreases |turns|
  {
    hide Step, SystemInv;
    if turns != [] {
      StepKeepsInv(sys, turns[0]);
      RunKeepsInv(Step(sys, turns[0]), turns[1..]);
    }
  }

  /** Every reachable state, from an empty pool of any size, on every interleaving. */
  lemma EveryRunIsExclusive(size: nat, turns: seq<Turn>)
    ensures SystemInv(Run(Start(size), turns))
  {
    var p := EmptyPool(size);
    assert ReadyMap(p) == map[] && OpeningSet(p) == {};
    RunKeepsInv(Start(size), turns);
  }
}

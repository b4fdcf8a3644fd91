/**
 * Clean hand-over: if no client writes past an unanswered sync point, a connection changes
 * hands with nothing in flight, so every reply reaches the session that asked.
 */
module PoolerClean {
  import opened Bytes
  import opened Protocol
  import opened PoolModel
  import opened PoolerModel
  import opened PoolerSafety

  /** At most one sync point is unanswered, and nothing but COPY traffic was written after it. */
  ghost predicate SyncLast(rs: seq<Request>) {
    forall i, j :: 0 <= i < j < |rs| && IsSyncPoint(rs[i].message) ==> IsCopyTraffic(rs[j].message)
  }

  lemma {:induction false} AllCopyIff(rs: seq<Request>)
    ensures AfterCopy(rs) == [] <==> forall j :: 0 <= j < |rs| ==> IsCopyTraffic(rs[j].message)
  {
    if rs != [] && IsCopyTraffic(rs[0].message) {
      AllCopyIff(rs[1..]);
      assert forall j :: 0 < j < |rs| ==> rs[j] == rs[1..][j - 1];
    }
  }

  lemma SyncLastTail(rs: seq<Request>)
    requires rs != [] && !IsSyncPoint(rs[0].message)
    ensures SyncLast(rs) <==> SyncLast(rs[1..])
  {
    var rest := rs[1..];
    assert forall k :: 0 < k < |rs| ==> rs[k] == rest[k - 1];
    if SyncLast(rs) {
      forall i, j | 0 <= i < j < |rest| && IsSyncPoint(rest[i].message) ensures IsCopyTraffic(rest[j].message) {
        assert rs[i + 1] == rest[i] && rs[j + 1] == rest[j];
      }
    }
  }

  /** A ReadyForQuery leaves nothing unanswered exactly if nothing but COPY traffic follows what it answers. */
  lemma {:induction false} NothingLeftIff(rs: seq<Request>)
    requires HasSync(rs)
    ensures AfterSync(rs) == [] <==> SyncLast(rs)
  {
    var rest := rs[1..];
    assert forall k :: 0 < k < |rs| ==> rs[k] == rest[k - 1];
    if IsSyncPoint(rs[0].message) {
      AllCopyIff(rest);
      if SyncLast(rs) {
        forall j | 0 <= j < |rest| ensures IsCopyTraffic(rest[j].message) {
          assert rest[j] == rs[j + 1];
        }
      }
    } else {
      SyncLastTail(rs);
      NothingLeftIff(rest);
    }
  }

  /** So a COPY by a client that never pipelines is one request, however much it streams. */
  lemma CopyIsOneRequest(query: Request, copied: seq<Request>)
    requires IsSyncPoint(query.message) && forall r :: r in copied ==> IsCopyTraffic(r.message)
    ensures SyncLast([query] + copied) && AfterSync([query] + copied) == []
  {
    assert ([query] + copied)[1..] == copied;
    AllCopyIff(copied);
  }

  /** The replies a session relayed, and the ones still due on its connection, are its own. */
  ghost predicate OwnAnswers(d: Duo, s: SessId) {
    && (forall w :: w in d.session.written && w.Relayed? ==> w.answering == s)
    && (d.session.holding.Some? ==>
          forall r :: r in Conn(d.pool, d.session.holding.value).unanswered ==> r.sender == s)
  }

  ghost predicate CleanDuo(d: Duo, s: SessId) {
    AllClean(d.pool) && OwnAnswers(d, s)
  }

  // ---------------------------------------------------------------------------
  // Pool operations

  lemma HandKeepsClean(p: Pool, who: Requester, c: ConnId, now: int)
    requires AllClean(p) && Clean(p, c)
    ensures AllClean(WithConn(p, c, Conn(p, c).(lastUsedAt := now)).(promises := p.promises[who := Ready(c)]))
  {
  }

  lemma AcquireKeepsClean(p: Pool, who: Requester, now: int)
    requires AllClean(p)
    ensures AllClean(Acquire(p, who, now))
  {
    if p.idle != [] {
      var n := |p.idle| - 1;
      assert p.idle[n] in p.idle;
      assert forall c :: c in p.idle[..n] ==> c in p.idle;
      if !Conn(p, p.idle[n]).closed {
        HandKeepsClean(p.(idle := p.idle[..n]), who, p.idle[n], now);
      }
    }
  }

  lemma ReleaseKeepsClean(p: Pool, c: ConnId, now: int)
    requires AllClean(p) && Clean(p, c) && c in p.connections
    ensures AllClean(Release(p, c, now))
  {
  }

  lemma RetireKeepsClean(p: Pool, gone: set<ConnId>)
    requires AllClean(p)
    ensures AllClean(Retire(p, gone))
  {
  }

  lemma HeldElsewhere(p: Pool, c: ConnId, held: set<ConnId>)
    requires PoolInv(p, held) && c in held
    ensures c !in p.idle
    ensures forall w :: w in p.promises && p.promises[w].Ready? ==> p.promises[w].connection != c
  {
    forall w | w in p.promises && p.promises[w].Ready? ensures p.promises[w].connection != c {
      assert ReadyMap(p)[w] !in held;
    }
  }

  // ---------------------------------------------------------------------------
  // One session

  lemma ForwardKeepsClean(d: Duo, s: SessId, m: RawMessage, others: set<ConnId>)
    requires Owns(d, s, others) && d.session.holding.Some? && CleanDuo(d, s)
    ensures CleanDuo(Forward(d, s, m), s)
  {
    HeldElsewhere(d.pool, d.session.holding.value, others + HeldBy(d.session));
  }

  lemma {:induction false} FlushKeepsClean(d: Duo, s: SessId, others: set<ConnId>)
    requires Owns(d, s, others) && d.session.holding.Some? && CleanDuo(d, s)
    ensures CleanDuo(Flush(d, s), s)
    decreases |d.session.queued|
  {
    var q := d.session.queued;
    if q != [] {
      var popped := d.(session := d.session.(queued := q[1..]));
      ForwardKeeps(popped, s, q[0], others);
      ForwardKeepsClean(popped, s, q[0], others);
      FlushKeepsClean(Forward(popped, s, q[0]), s, others);
    }
  }

  lemma AcceptKeepsClean(d: Duo, s: SessId, m: RawMessage, now: int, others: set<ConnId>)
    requires DuoInv(d, s, others) && CleanDuo(d, s)
    ensures CleanDuo(Accept(d, s, m, now), s)
  {
    if d.session.holding.Some? {
      ForwardKeepsClean(d, s, m, others);
    } else {
      AcquireKeepsClean(d.pool, ForSession(s), now);
    }
  }

  lemma TeardownKeepsClean(d: Duo, s: SessId)
    requires CleanDuo(d, s)
    ensures CleanDuo(Teardown(d), s)
  {
    if !d.session.closed && d.session.holding.Some? {
      var c := d.session.holding.value;
      assert AllClean(Uninstall(d.pool, c));
      RetireKeepsClean(Uninstall(d.pool, c), {c});
    }
  }

  lemma {:induction false} PumpKeepsClean(d: Duo, s: SessId, now: int, others: set<ConnId>)
    requires DuoInv(d, s, others) && CleanDuo(d, s)
    ensures CleanDuo(Pump(d, s, now), s)
    decreases |d.session.buffer|
  {
    if !d.session.closed {
      var f := Next(false, d.session.buffer);
      if f.Implausible? {
        TeardownKeepsClean(d, s);
      } else if f.Framed? {
        var e := d.(session := d.session.(buffer := f.rest));
        assert DuoInv(e, s, others);
        if f.message.kind == Some(TERMINATE) {
          TeardownKeepsClean(e.(session := e.session.(farewell := f.message.raw)), s);
        } else {
          AcceptKeepsClean(e, s, f.message, now, others);
          AcceptKeeps(e, s, f.message, now, others);
          PumpKeepsClean(Accept(e, s, f.message, now), s, now, others);
        }
      }
    }
  }

  lemma GrantedKeepsClean(d: Duo, s: SessId, c: ConnId, now: int, others: set<ConnId>)
    requires PoolInv(d.pool, others + {c}) && c !in others && HandlerIs(d.pool, s, None)
    requires CleanDuo(d, s) && Clean(d.pool, c)
    requires d.session.holding.None?
    ensures CleanDuo(Granted(d, s, c, now), s)
  {
    if d.session.closed {
      ReleaseKeepsClean(d.pool, c, now);
    } else {
      InstallKeeps(d.pool, c, s, others);
      var f := Duo(WithConn(d.pool, c, Conn(d.pool, c).(handler := Some(s))),
                   d.session.(holding := Some(c)));
      FlushKeepsClean(f, s, others);
    }
  }

  lemma SpentIsClean(d: Duo, s: SessId, c: ConnId)
    requires CleanDuo(d, s)
    requires ForSession(s) in d.pool.promises && d.pool.promises[ForSession(s)] == Ready(c)
    ensures var spent := d.(pool := Spend(d.pool, ForSession(s)));
            CleanDuo(spent, s) && Clean(spent.pool, c)
  {
  }

  lemma SpentRefusedIsClean(d: Duo, s: SessId, now: int)
    requires CleanDuo(d, s) && ForSession(s) in d.pool.promises && !d.pool.promises[ForSession(s)].Ready?
    ensures CleanDuo(SessionResumed(d, s, now), s)
  {
  }

  lemma ResumedKeepsClean(d: Duo, s: SessId, now: int, others: set<ConnId>)
    requires DuoInv(d, s, others) && CleanDuo(d, s) && ForSession(s) in d.pool.promises
    ensures CleanDuo(SessionResumed(d, s, now), s)
  {
    if d.pool.promises[ForSession(s)].Ready? {
      var c := d.pool.promises[ForSession(s)].connection;
      SpentIsClean(d, s, c);
      SpendForGrant(d, s, c, others);
      hide Spend, Granted, CleanDuo, PoolInv, DuoInv, Untouched;
      GrantedKeepsClean(d.(pool := Spend(d.pool, ForSession(s))), s, c, now, others);
    } else {
      SpentRefusedIsClean(d, s, now);
    }
  }

  lemma OnServerMessageKeepsClean(d: Duo, s: SessId, c: ConnId, m: RawMessage, now: int)
    requires CleanDuo(d, s) && d.session.holding == Some(c) && c in d.pool.connections
    requires d.session.queued == []
    requires IsReadyForQuery(m) && m.payload != [] && m.payload[0] == STATUS_IDLE ==> Clean(d.pool, c)
    ensures CleanDuo(OnServerMessage(d, s, c, m, s, now), s)
  {
    if IsReadyForQuery(m) && m.payload != [] && m.payload[0] == STATUS_IDLE {
      ReleaseKeepsClean(d.pool, c, now);
    }
  }

  // ---------------------------------------------------------------------------
  // The whole system

  ghost predicate CleanInv(sys: System) {
    && SystemInv(sys)
    && AllClean(sys.pool)
    && (forall s :: s in sys.sessions ==> OwnAnswers(Pick(sys, s), s))
  }

  /** The clients' discipline, as seen on the connections they hold. */
  ghost predicate Paced(sys: System) {
    forall s :: s in sys.sessions && sys.sessions[s].holding.Some? ==>
      SyncLast(Conn(sys.pool, sys.sessions[s].holding.value).unanswered)
  }

  ghost predicate PacedRun(sys: System, turns: seq<Turn>)
    decreases |turns|
  {
    turns == [] || (Paced(sys) && PacedRun(Step(sys, turns[0]), turns[1..]))
  }

  lemma UnfocusClean(sys: System, s: SessId, d: Duo)
    requires CleanInv(sys) && SystemInv(Put(sys, s, d))
    requires Untouched(sys.pool, d.pool, s, Others(sys, s)) && CleanDuo(d, s)
    ensures CleanInv(Put(sys, s, d))
  {
    var sys' := Put(sys, s, d);
    forall t | t in sys'.sessions ensures OwnAnswers(Pick(sys', t), t) {
      if t != s {
        assert OwnAnswers(Pick(sys, t), t);
        if sys.sessions[t].holding.Some? {
          var c := sys.sessions[t].holding.value;
          assert c in Others(sys, s);
          assert c in Held(sys);
        }
      }
    }
  }

  lemma SessionEventKeepsClean(sys: System, turn: Turn)
    requires CleanInv(sys)
    requires turn.event.SessionStart? || turn.event.ClientData? || turn.event.ClientGone?
    ensures CleanInv(Step(sys, turn))
  {
    StepKeepsInv(sys, turn);
    var s := turn.event.s;
    match turn.event
    case SessionStart(_, leftover) =>
      if s !in sys.sessions {
        var d := Duo(sys.pool, NewSession(leftover));
        FocusNew(sys, s, leftover);
        PumpKeeps(d, s, turn.now, Others(sys, s));
        PumpKeepsClean(d, s, turn.now, Others(sys, s));
        UnfocusClean(sys, s, Pump(d, s, turn.now));
      }
    case ClientData(_, chunk) =>
      if s in sys.sessions {
        var d := Pick(sys, s);
        var e := d.(session := d.session.(buffer := d.session.buffer + chunk,
                                          received := d.session.received + chunk));
        Focus(sys, s);
        assert OwnAnswers(d, s);
        PumpKeeps(e, s, turn.now, Others(sys, s));
        PumpKeepsClean(e, s, turn.now, Others(sys, s));
        UnfocusClean(sys, s, Pump(e, s, turn.now));
      }
    case ClientGone(_) =>
      if s in sys.sessions {
        Focus(sys, s);
        assert OwnAnswers(Pick(sys, s), s);
        TeardownKeeps(Pick(sys, s), s, Others(sys, s));
        TeardownKeepsClean(Pick(sys, s), s);
        UnfocusClean(sys, s, Teardown(Pick(sys, s)));
      }
  }

  lemma ResumeKeepsClean(sys: System, s: SessId, now: int)
    requires CleanInv(sys)
    ensures CleanInv(Step(sys, Turn(now, Resume(ForSession(s)))))
  {
    StepKeepsInv(sys, Turn(now, Resume(ForSession(s))));
    if s in sys.sessions && ForSession(s) in sys.pool.promises {
      var d := Pick(sys, s);
      Focus(sys, s);
      assert OwnAnswers(d, s);
      ResumedKeepsClean(d, s, now, Others(sys, s));
      ResumedTouches(d, s, now, Others(sys, s));
      UnfocusClean(sys, s, SessionResumed(d, s, now));
    }
  }

  lemma ResumedTouches(d: Duo, s: SessId, now: int, others: set<ConnId>)
    requires DuoInv(d, s, others) && ForSession(s) in d.pool.promises
    ensures Untouched(d.pool, SessionResumed(d, s, now).pool, s, others)
  {
    if d.pool.promises[ForSession(s)].Ready? {
      GrantedKeeps(d, s, d.pool.promises[ForSession(s)].connection, now, others);
    } else if d.pool.promises[ForSession(s)].Refused? {
      DeniedKeeps(d, s, others);
    }
  }

  /** A live connection that owes answers is held, and its handler is the holder's. */
  lemma AnswererIsHeld(sys: System, c: ConnId, m: RawMessage) returns (s: SessId)
    requires CleanInv(sys) && MaySay(sys.pool, c, m)
    ensures Holds(sys, s, c) && sys.pool.connections[c].handler == Some(s)
    ensures OwnAnswers(Pick(sys, s), s) && sys.sessions[s].queued == []
  {
    var p := sys.pool;
    assert c in Live(p) && !Clean(p, c);
    assert c in Held(sys);
    s :| s in sys.sessions && sys.sessions[s].holding.Some? && sys.sessions[s].holding.value == c;
    assert Holds(sys, s, c);
    assert Flags(Pick(sys, s), s);
  }

  lemma {:induction false} AfterSyncMembers(rs: seq<Request>)
    ensures forall r :: r in AfterSync(rs) ==> r in rs
  {
    if rs != [] {
      AfterCopyMembers(rs[1..]);
      AfterSyncMembers(rs[1..]);
    }
  }

  lemma {:induction false} AfterCopyMembers(rs: seq<Request>)
    ensures forall r :: r in AfterCopy(rs) ==> r in rs
  {
    if rs != [] { AfterCopyMembers(rs[1..]); }
  }

  lemma AnswerKeepsClean(sys: System, c: ConnId, m: RawMessage, s: SessId)
    requires CleanInv(sys) && MaySay(sys.pool, c, m)
    requires Holds(sys, s, c) && OwnAnswers(Pick(sys, s), s)
    ensures CleanInv(sys.(pool := Answer(sys.pool, c, m)))
  {
    var p := sys.pool;
    var after := sys.(pool := Answer(p, c, m));
    AnswerKeepsInv(sys, c, m);
    assert c in Held(sys) by { assert sys.sessions[s].holding.value == c; }
    HeldElsewhere(p, c, Held(sys));
    AfterSyncMembers(Conn(p, c).unanswered);
    forall t | t in after.sessions ensures OwnAnswers(Pick(after, t), t) {
      assert OwnAnswers(Pick(sys, t), t);
    }
  }

  lemma BackendSaysKeepsClean(sys: System, now: int, c: ConnId, m: RawMessage)
    requires CleanInv(sys) && Paced(sys)
    ensures CleanInv(Step(sys, Turn(now, BackendSays(c, m))))
  {
    StepKeepsInv(sys, Turn(now, BackendSays(c, m)));
    if MaySay(sys.pool, c, m) {
      var s := AnswererIsHeld(sys, c, m);
      var after := sys.(pool := Answer(sys.pool, c, m));
      AnswerKeepsClean(sys, c, m, s);
      var d := Pick(after, s);
      assert Conn(sys.pool, c).unanswered[0].sender == s;
      if IsReadyForQuery(m) {
        NothingLeftIff(Conn(sys.pool, c).unanswered);
      }
      Focus(after, s);
      assert OwnAnswers(d, s);
      OnServerMessageKeepsClean(d, s, c, m, now);
      OnServerMessageKeeps(d, s, c, m, s, now, Others(after, s));
      UnfocusClean(after, s, OnServerMessage(d, s, c, m, s, now));
    }
  }

  lemma LoginResumesClean(p: Pool, login: nat, now: int, held: set<ConnId>)
    requires Booked(p, held) && AllClean(p) && ForLogin(login) in p.promises
    ensures AllClean(LoginResumed(p, ForLogin(login), now))
  {
    if p.promises[ForLogin(login)].Ready? {
      ReleaseKeepsClean(Spend(p, ForLogin(login)).(parametersCached := true),
                        p.promises[ForLogin(login)].connection, now);
    }
  }

  ghost predicate SameDebts(p: Pool, q: Pool) {
    forall c :: c in p.connections ==> Conn(q, c).unanswered == Conn(p, c).unanswered
  }

  lemma RetireEventKeepsClean(sys: System, turn: Turn)
    requires AllClean(sys.pool)
    requires turn.event.BackendGarbled? || turn.event.BackendGone? || turn.event.Sweep? || turn.event.DrainPool?
    ensures AllClean(Step(sys, turn).pool) && SameDebts(sys.pool, Step(sys, turn).pool)
  {
    match turn.event
    case Sweep(cutoff) => RetireKeepsClean(sys.pool, StaleIdle(sys.pool, cutoff));
    case DrainPool => RetireKeepsClean(sys.pool, sys.pool.all);
    case _ =>
  }

  lemma PromiseEventKeepsClean(sys: System, turn: Turn)
    requires AllClean(sys.pool) && Booked(sys.pool, Held(sys))
    requires turn.event.OpenSucceeds? || turn.event.OpenFails? || turn.event.WaiterTimeout?
    ensures AllClean(Step(sys, turn).pool) && SameDebts(sys.pool, Step(sys, turn).pool)
  {
  }

  lemma LoginStartKeepsClean(sys: System, now: int, l: nat)
    requires AllClean(sys.pool)
    ensures var q := Step(sys, Turn(now, LoginStart(l))).pool; AllClean(q) && SameDebts(sys.pool, q)
  {
    AcquireKeepsClean(sys.pool, ForLogin(l), now);
  }

  lemma LoginResumeKeepsClean(sys: System, now: int, l: nat)
    requires Booked(sys.pool, Held(sys)) && AllClean(sys.pool)
    ensures var q := Step(sys, Turn(now, Resume(ForLogin(l)))).pool; AllClean(q) && SameDebts(sys.pool, q)
  {
    if ForLogin(l) in sys.pool.promises {
      LoginResumesClean(sys.pool, l, now, Held(sys));
    }
  }

  /** Pool events leave every backend's debts alone. */
  lemma PoolEventKeepsClean(sys: System, turn: Turn)
    requires CleanInv(sys)
    requires AllClean(Step(sys, turn).pool) && SameDebts(sys.pool, Step(sys, turn).pool)
    requires Step(sys, turn).sessions == sys.sessions
    ensures CleanInv(Step(sys, turn))
  {
    StepKeepsInv(sys, turn);
    var next := Step(sys, turn);
    forall s | s in next.sessions ensures OwnAnswers(Pick(next, s), s) {
      assert OwnAnswers(Pick(sys, s), s);
      if sys.sessions[s].holding.Some? {
        assert sys.sessions[s].holding.value in Held(sys);
      }
    }
  }

  lemma StepKeepsClean(sys: System, turn: Turn)
    requires CleanInv(sys) && Paced(sys)
    ensures CleanInv(Step(sys, turn))
  {
    match turn.event
    case SessionStart(_, _) => SessionEventKeepsClean(sys, turn);
    case ClientData(_, _) => SessionEventKeepsClean(sys, turn);
    case ClientGone(_) => SessionEventKeepsClean(sys, turn);
    case Resume(ForSession(s)) => ResumeKeepsClean(sys, s, turn.now);
    case BackendSays(c, m) => BackendSaysKeepsClean(sys, turn.now, c, m);
    case LoginStart(l) =>
      LoginStartKeepsClean(sys, turn.now, l);
      PoolEventKeepsClean(sys, turn);
    case Resume(ForLogin(l)) =>
      LoginResumeKeepsClean(sys, turn.now, l);
      PoolEventKeepsClean(sys, turn);
    case OpenSucceeds(_, _) =>
      PromiseEventKeepsClean(sys, turn);
      PoolEventKeepsClean(sys, turn);
    case OpenFails(_) =>
      PromiseEventKeepsClean(sys, turn);
      PoolEventKeepsClean(sys, turn);
    case WaiterTimeout(_) =>
      PromiseEventKeepsClean(sys, turn);
      PoolEventKeepsClean(sys, turn);
    case _ =>
      RetireEventKeepsClean(sys, turn);
      PoolEventKeepsClean(sys, turn);
  }

  lemma {:induction false} RunKeepsClean(sys: System, turns: seq<Turn>)
    requires CleanInv(sys) && PacedRun(sys, turns)
    ensures CleanInv(Run(sys, turns))
    decreases |turns|
  {
    if turns != [] {
      StepKeepsClean(sys, turns[0]);
      RunKeepsClean(Step(sys, turns[0]), turns[1..]);
    }
  }

  /**
   * On every run whose clients keep the discipline: idle and handed-over connections owe
   * nothing and have no transaction open, and every reply relayed to a client answers a
   * request that client's own session sent.
   */
  lemma HandOverIsClean(size: nat, turns: seq<Turn>)
    requires PacedRun(Start(size), turns)
    ensures CleanInv(Run(Start(size), turns))
  {
    EveryRunIsExclusive(size, []);
    RunKeepsClean(Start(size), turns);
  }

  /** The discipline is exactly what a clean release needs. */
  lemma ReleaseIsCleanIff(p: Pool, c: ConnId, m: RawMessage, now: int)
    requires MaySay(p, c, m) && IsReadyForQuery(m) && m.payload[0] == STATUS_IDLE
    ensures Clean(Release(Answer(p, c, m), c, now), c) <==> SyncLast(Conn(p, c).unanswered)
  {
    NothingLeftIff(Conn(p, c).unanswered);
  }
}

/**
 * The shared pool of server connections, apps/router/src/pool.ts, as values.
 *
 * Connections are named by the id the router gives them. A call of the async `acquire`
 * leaves a promise behind; `promises` holds every promise whose awaiting caller has not
 * resumed yet. A connection inside a `Ready` promise is in hand-over: out of `idle`, not
 * yet held.
 */
module PoolModel {
  import opened Bytes
  import opened Protocol

  type ConnId = nat
  type SessId = nat

  /** Who awaits a connection: a pooled session, or a login that needs parameter values. */
  datatype Requester = ForSession(session: SessId) | ForLogin(login: nat)

  datatype Phase = Opening | Waiting | Ready(connection: ConnId) | Refused

  /** A message written to a backend, with the session that wrote it. */
  datatype Request = Request(sender: SessId, message: RawMessage)

  /**
   * `handler` is the session whose `onMessage` is installed. `unanswered` and `status` are
   * the abstract backend: requests it has not finished, and the last status it reported.
   */
  datatype Connection = Connection(
    closed: bool,
    handler: Option<SessId>,
    lastUsedAt: int,
    unanswered: seq<Request>,
    status: byte)

  datatype Pool = Pool(
    size: nat,
    idle: seq<ConnId>,
    all: set<ConnId>,
    waiters: seq<Requester>,
    opening: int,
    parametersCached: bool,
    promises: map<Requester, Phase>,
    connections: map<ConnId, Connection>)

  function EmptyPool(size: nat): Pool {
    Pool(size, [], {}, [], 0, false, map[], map[])
  }

  const GONE := Connection(true, None, 0, [], STATUS_IDLE)

  function Conn(p: Pool, c: ConnId): Connection {
    if c in p.connections then p.connections[c] else GONE
  }

  function WithConn(p: Pool, c: ConnId, conn: Connection): Pool {
    p.(connections := p.connections[c := conn])
  }

  /** `indexOf` then `splice(index, 1)`. */
  function Without<T(==)>(s: seq<T>, x: T): seq<T> {
    if s == [] then []
    else if s[0] == x then s[1..]
    else [s[0]] + Without(s[1..], x)
  }

  function Except(s: seq<ConnId>, gone: set<ConnId>): (kept: seq<ConnId>)
    ensures forall c :: c in kept <==> c in s && c !in gone
  {
    if s == [] then []
    else (if s[0] in gone then [] else [s[0]]) + Except(s[1..], gone)
  }

  /** The synchronous part of `acquire`: everything up to the promise it returns. */
  function Acquire(p: Pool, who: Requester, now: int): Pool {
    if p.idle == [] then OpenOrWait(p, who)
    else
      var ready := p.idle[|p.idle| - 1];
      var popped := p.(idle := p.idle[..|p.idle| - 1]);
      if Conn(p, ready).closed then OpenOrWait(popped, who)
      else
        WithConn(popped, ready, Conn(p, ready).(lastUsedAt := now))
        .(promises := p.promises[who := Ready(ready)])
  }

  function OpenOrWait(p: Pool, who: Requester): Pool {
    if |p.all| + p.opening < p.size then
      p.(opening := p.opening + 1, promises := p.promises[who := Opening])
    else
      p.(waiters := p.waiters + [who], promises := p.promises[who := Waiting])
  }

  /** These connections are closed and gone from the pool's books. */
  function Retire(p: Pool, gone: set<ConnId>): Pool {
    p.(idle := Except(p.idle, gone), all := p.all - gone,
       connections := CloseAll(p.connections, gone))
  }

  function CloseAll(m: map<ConnId, Connection>, gone: set<ConnId>): map<ConnId, Connection> {
    map c | c in m :: if c in gone then m[c].(closed := true) else m[c]
  }

  function Uninstall(p: Pool, c: ConnId): Pool {
    WithConn(p, c, Conn(p, c).(handler := None))
  }

  function Release(p: Pool, c: ConnId, now: int): Pool {
    var q := WithConn(p, c, Conn(p, c).(handler := None, lastUsedAt := now));
    if Conn(p, c).closed then Retire(q, {c})
    else if q.waiters != [] then
      q.(waiters := q.waiters[1..], promises := q.promises[q.waiters[0] := Ready(c)])
    else q.(idle := q.idle + [c])
  }

  function Discard(p: Pool, c: ConnId): Pool {
    Retire(Uninstall(p, c), {c})
  }

  /** `open` succeeded: connection `c` is new, authenticated and at ReadyForQuery 'I'. */
  function OpenDone(p: Pool, who: Requester, c: ConnId, now: int): Pool {
    WithConn(p, c, Connection(false, None, now, [], STATUS_IDLE))
    .(all := p.all + {c}, opening := p.opening - 1, promises := p.promises[who := Ready(c)])
  }

  function OpenFailed(p: Pool, who: Requester): Pool {
    p.(opening := p.opening - 1, promises := p.promises[who := Refused])
  }

  function TimedOut(p: Pool, who: Requester): Pool {
    p.(waiters := Without(p.waiters, who), promises := p.promises[who := Refused])
  }

  /** The socket closed under us: `finish` in backend.ts, then the pool's `onClose` hook. */
  function SocketClosed(p: Pool, c: ConnId): Pool {
    if Conn(p, c).closed then p else Retire(p, {c})
  }

  /** A framing error from the backend destroys the socket; no hook runs. */
  function FramingError(p: Pool, c: ConnId): Pool {
    p.(connections := CloseAll(p.connections, {c}))
  }

  function StaleIdle(p: Pool, cutoff: int): set<ConnId> {
    set c | c in p.idle && (Conn(p, c).lastUsedAt < cutoff || Conn(p, c).closed)
  }

  function SweepIdle(p: Pool, cutoff: int): Pool {
    Retire(p, StaleIdle(p, cutoff))
  }

  function RefuseWaiters(p: Pool): Pool {
    p.(waiters := [],
       promises := map w | w in p.promises ::
         if p.promises[w] == Waiting then Refused else p.promises[w])
  }

  function Drain(p: Pool): Pool {
    RefuseWaiters(Retire(p, p.all)).(parametersCached := false)
  }

  /** The awaiting caller resumes; its promise is spent. */
  function Spend(p: Pool, who: Requester): Pool {
    p.(promises := p.promises - {who})
  }

  /** `ServerConnection.send`: a closed connection swallows the write. */
  function Send(p: Pool, c: ConnId, s: SessId, m: RawMessage): Pool {
    if Conn(p, c).closed then p
    else WithConn(p, c, Conn(p, c).(unanswered := Conn(p, c).unanswered + [Request(s, m)]))
  }

  // ---------------------------------------------------------------------------
  // What the abstract backend does

  /** Messages the backend ends with ReadyForQuery. */
  predicate IsSyncPoint(m: RawMessage) {
    m.kind == Some(QUERY) || m.kind == Some(SYNC) || m.kind == Some(FUNCTION_CALL)
  }

  /** What a client streams into a COPY; it belongs to the statement before it, or is ignored. */
  predicate IsCopyTraffic(m: RawMessage) {
    m.kind == Some(COPY_DATA) || m.kind == Some(COPY_DONE) || m.kind == Some(COPY_FAIL)
  }

  predicate IsReadyForQuery(m: RawMessage) { m.kind == Some(READY_FOR_QUERY) }

  predicate HasSync(rs: seq<Request>) { exists i :: 0 <= i < |rs| && IsSyncPoint(rs[i].message) }

  function AfterCopy(rs: seq<Request>): seq<Request> {
    if rs != [] && IsCopyTraffic(rs[0].message) then AfterCopy(rs[1..]) else rs
  }

  /** What is left once the first sync point is answered, with all before it and its COPY behind it. */
  function AfterSync(rs: seq<Request>): seq<Request> {
    if rs == [] then [] else if IsSyncPoint(rs[0].message) then AfterCopy(rs[1..]) else AfterSync(rs[1..])
  }

  /** The backend only speaks when asked, and reports ready once per sync point. */
  predicate MaySay(p: Pool, c: ConnId, m: RawMessage) {
    && !Conn(p, c).closed
    && Conn(p, c).unanswered != []
    && (IsReadyForQuery(m) ==> |m.payload| > 0 && HasSync(Conn(p, c).unanswered))
  }

  function Answer(p: Pool, c: ConnId, m: RawMessage): Pool {
    if IsReadyForQuery(m) && |m.payload| > 0 then
      WithConn(p, c, Conn(p, c).(unanswered := AfterSync(Conn(p, c).unanswered), status := m.payload[0]))
    else p
  }

  // ---------------------------------------------------------------------------
  // The pool invariant, given the set of connections sessions hold

  ghost predicate NoDup<T>(s: seq<T>) {
    forall i, j :: 0 <= i < j < |s| ==> s[i] != s[j]
  }

  ghost function ReadyMap(p: Pool): map<Requester, ConnId> {
    map w | w in p.promises && p.promises[w].Ready? :: p.promises[w].connection
  }

  ghost function Live(p: Pool): set<ConnId> {
    set c | c in p.connections && !p.connections[c].closed
  }

  ghost function OpeningSet(p: Pool): set<Requester> {
    set w | w in p.promises && p.promises[w] == Opening
  }

  /**
   * Ownership: a connection is in at most one of `idle`, one hand-over and `held`, and a
   * live one is in exactly one of them.
   */
  ghost predicate Owned(idle: seq<ConnId>, ready: map<Requester, ConnId>, held: set<ConnId>, live: set<ConnId>) {
    && NoDup(idle)
    && (forall c :: c in idle ==> c !in held && c !in ready.Values)
    && (forall w :: w in ready ==> ready[w] !in held)
    && (forall v, w :: v in ready && w in ready && ready[v] == ready[w] ==> v == w)
    && (forall c :: c in live ==> c in idle || c in held || c in ready.Values)
  }

  /** The pool's books: who is registered, and whose handler may be installed. */
  ghost predicate Booked(p: Pool, held: set<ConnId>) {
    && (forall c :: c in p.idle ==> c in p.all)
    && Live(p) <= p.all <= p.connections.Keys
    && held <= p.connections.Keys
    && (forall w :: w in p.promises && p.promises[w].Ready? ==> p.promises[w].connection in p.connections)
    && (forall c :: c in p.connections && p.connections[c].handler.Some? ==> c in held)
  }

  /** The bound, and the waiting line: connects in flight are counted, no waiter is lost. */
  ghost predicate Admitted(p: Pool) {
    && p.opening == |OpeningSet(p)|
    && |p.all| + p.opening <= p.size
    && NoDup(p.waiters)
    && (forall w :: w in p.waiters <==> w in p.promises && p.promises[w] == Waiting)
  }

  ghost predicate PoolInv(p: Pool, held: set<ConnId>) {
    && Owned(p.idle, ReadyMap(p), held, Live(p))
    && Booked(p, held)
    && Admitted(p)
  }

  /** Nothing owed to anyone, and no transaction open. */
  ghost predicate Clean(p: Pool, c: ConnId) {
    Conn(p, c).unanswered == [] && Conn(p, c).status == STATUS_IDLE
  }

  ghost predicate AllClean(p: Pool) {
    && (forall c :: c in p.idle ==> Clean(p, c))
    && (forall w :: w in p.promises && p.promises[w].Ready? ==> Clean(p, p.promises[w].connection))
  }

  /** Nobody waits beside an idle connection. */
  ghost predicate NobodyBeside(p: Pool) { p.waiters != [] ==> p.idle == [] }

  /** And no idle connection is dead. */
  ghost predicate NoneWasted(p: Pool) {
    (forall c :: c in p.idle ==> !Conn(p, c).closed) && NobodyBeside(p)
  }

  // ---------------------------------------------------------------------------
  // Each operation keeps it

  lemma {:induction false} WithoutMembers<T>(s: seq<T>, x: T)
    requires NoDup(s)
    ensures NoDup(Without(s, x))
    ensures forall y :: y in Without(s, x) <==> y in s && y != x
  {
    if s != [] {
      WithoutMembers(s[1..], x);
      assert forall y :: y in s <==> y == s[0] || y in s[1..];
      assert s[0] !in s[1..];
    }
  }

  lemma {:induction false} ExceptNoDup(s: seq<ConnId>, gone: set<ConnId>)
    requires NoDup(s)
    ensures NoDup(Except(s, gone))
  {
    if s != [] {
      ExceptNoDup(s[1..], gone);
      assert s[0] !in s[1..];
    }
  }

  /** A new promise that hands over no connection leaves ownership and the books alone. */
  lemma PromiseKeepsOwnership(p: Pool, q: Pool, who: Requester, held: set<ConnId>)
    requires Owned(p.idle, ReadyMap(p), held, Live(p)) && Booked(p, held)
    requires who !in p.promises || !p.promises[who].Ready?
    requires who !in q.promises || !q.promises[who].Ready?
    requires q.promises - {who} == p.promises - {who}
    requires q.idle == p.idle && q.all == p.all && q.connections == p.connections
    ensures Owned(q.idle, ReadyMap(q), held, Live(q)) && Booked(q, held)
  {
    forall w ensures w in ReadyMap(q) <==> w in ReadyMap(p) {
      if w != who {
        assert w in q.promises <==> w in q.promises - {who};
        assert w in p.promises <==> w in p.promises - {who};
      }
    }
    forall w | w in ReadyMap(q) ensures q.promises[w] == p.promises[w] {
      assert q.promises[w] == (q.promises - {who})[w];
    }
    assert ReadyMap(q) == ReadyMap(p);
  }

  lemma OpenOrWaitKeepsAdmission(p: Pool, who: Requester)
    requires Admitted(p) && who !in p.promises
    ensures Admitted(OpenOrWait(p, who))
  {
    var q := OpenOrWait(p, who);
    if |p.all| + p.opening < p.size {
      assert OpeningSet(q) == OpeningSet(p) + {who};
    } else {
      assert OpeningSet(q) == OpeningSet(p);
      assert who !in p.waiters;
    }
  }

  lemma OpenOrWaitKeepsInv(p: Pool, who: Requester, held: set<ConnId>)
    requires PoolInv(p, held) && who !in p.promises
    ensures PoolInv(OpenOrWait(p, who), held)
  {
    OpenOrWaitKeepsAdmission(p, who);
    PromiseKeepsOwnership(p, OpenOrWait(p, who), who, held);
  }

  /** The most recently returned connection leaves `idle`: dead, or on its way to `who`. */
  lemma PopKeepsInv(p: Pool, held: set<ConnId>)
    requires PoolInv(p, held) && p.idle != []
    requires Conn(p, p.idle[|p.idle| - 1]).closed
    ensures PoolInv(p.(idle := p.idle[..|p.idle| - 1]), held)
  {
    var n := |p.idle| - 1;
    var q := p.(idle := p.idle[..n]);
    assert ReadyMap(q) == ReadyMap(p) && Live(q) == Live(p) && OpeningSet(q) == OpeningSet(p);
    assert forall c :: c in p.idle <==> c in p.idle[..n] || c == p.idle[n];
  }

  lemma HandKeepsOwnership(idle: seq<ConnId>, ready: map<Requester, ConnId>, held: set<ConnId>,
                           live: set<ConnId>, who: Requester)
    requires Owned(idle, ready, held, live) && idle != [] && who !in ready
    ensures Owned(idle[..|idle| - 1], ready[who := idle[|idle| - 1]], held, live)
  {
    var n := |idle| - 1;
    var ready' := ready[who := idle[n]];
    assert forall c :: c in idle <==> c in idle[..n] || c == idle[n];
    assert forall w :: w in ready ==> ready'[w] == ready[w];
    assert ready'[who] in ready'.Values;
    assert forall c :: c in ready.Values ==> c in ready'.Values by {
      forall c | c in ready.Values ensures c in ready'.Values {
        var w :| w in ready && ready[w] == c;
        assert ready'[w] == c;
      }
    }
  }

  /** A hand-over from `idle` changes no count and no closed flag. */
  lemma HandMoves(p: Pool, who: Requester, now: int)
    requires who !in p.promises && p.idle != [] && !Conn(p, p.idle[|p.idle| - 1]).closed
    requires p.idle[|p.idle| - 1] in p.connections
    ensures var q := Acquire(p, who, now);
            && ReadyMap(q) == ReadyMap(p)[who := p.idle[|p.idle| - 1]]
            && Live(q) == Live(p) && OpeningSet(q) == OpeningSet(p)
  {
  }

  lemma HandKeepsInv(p: Pool, who: Requester, now: int, held: set<ConnId>)
    requires PoolInv(p, held) && who !in p.promises
    requires p.idle != [] && !Conn(p, p.idle[|p.idle| - 1]).closed
    ensures PoolInv(Acquire(p, who, now), held)
  {
    var q := Acquire(p, who, now);
    HandMoves(p, who, now);
    HandKeepsOwnership(p.idle, ReadyMap(p), held, Live(p), who);
  }

  lemma AcquireKeepsInv(p: Pool, who: Requester, now: int, held: set<ConnId>)
    requires PoolInv(p, held) && who !in p.promises
    ensures PoolInv(Acquire(p, who, now), held)
  {
    if p.idle == [] {
      OpenOrWaitKeepsInv(p, who, held);
    } else {
      var n := |p.idle| - 1;
      if Conn(p, p.idle[n]).closed {
        PopKeepsInv(p, held);
        OpenOrWaitKeepsInv(p.(idle := p.idle[..n]), who, held);
      } else {
        HandKeepsInv(p, who, now, held);
      }
    }
  }

  lemma SubsetSize<T>(a: set<T>, b: set<T>)
    requires a <= b
    ensures |a| <= |b|
  {
    assert b == a + (b - a);
  }

  lemma RetireKeepsOwnership(p: Pool, gone: set<ConnId>, held: set<ConnId>)
    requires Owned(p.idle, ReadyMap(p), held, Live(p))
    ensures var q := Retire(p, gone); Owned(q.idle, ReadyMap(q), held, Live(q))
  {
    var q := Retire(p, gone);
    ExceptNoDup(p.idle, gone);
    assert ReadyMap(q) == ReadyMap(p);
    assert Live(q) == Live(p) - gone;
  }

  lemma RetireKeepsInv(p: Pool, gone: set<ConnId>, held: set<ConnId>)
    requires PoolInv(p, held)
    ensures PoolInv(Retire(p, gone), held)
  {
    RetireKeepsOwnership(p, gone, held);
    RetireKeepsAdmission(p, gone);
    RetireKeepsBooks(p, gone, held);
  }

  lemma RetireKeepsBooks(p: Pool, gone: set<ConnId>, held: set<ConnId>)
    requires Booked(p, held)
    ensures Booked(Retire(p, gone), held)
  {
    assert Live(Retire(p, gone)) == Live(p) - gone;
  }

  lemma RetireKeepsAdmission(p: Pool, gone: set<ConnId>)
    requires Admitted(p)
    ensures Admitted(Retire(p, gone))
  {
    assert OpeningSet(Retire(p, gone)) == OpeningSet(p);
    SubsetSize(p.all - gone, p.all);
  }

  /** A holder lets go of a dead connection whose handler is already off. */
  lemma LetGoOfDead(p: Pool, c: ConnId, held: set<ConnId>)
    requires PoolInv(p, held) && c in p.connections
    requires p.connections[c].closed && p.connections[c].handler.None?
    ensures PoolInv(p, held - {c})
  {
  }

  lemma UninstallKeepsInv(p: Pool, c: ConnId, now: int, held: set<ConnId>)
    requires PoolInv(p, held) && c in p.connections
    ensures PoolInv(Uninstall(p, c), held)
    ensures PoolInv(WithConn(p, c, Conn(p, c).(handler := None, lastUsedAt := now)), held)
  {
    var q := Uninstall(p, c);
    var r := WithConn(p, c, Conn(p, c).(handler := None, lastUsedAt := now));
    assert ReadyMap(q) == ReadyMap(p) == ReadyMap(r);
    assert Live(q) == Live(p) == Live(r);
    assert OpeningSet(q) == OpeningSet(p) == OpeningSet(r);
  }

  lemma DiscardKeepsInv(p: Pool, c: ConnId, held: set<ConnId>)
    requires PoolInv(p, held) && c in held
    ensures PoolInv(Discard(p, c), held - {c})
  {
    UninstallKeepsInv(p, c, 0, held);
    RetireKeepsInv(Uninstall(p, c), {c}, held);
    LetGoOfDead(Discard(p, c), c, held);
  }

  lemma GiveKeepsOwnership(idle: seq<ConnId>, ready: map<Requester, ConnId>, held: set<ConnId>,
                           live: set<ConnId>, who: Requester, c: ConnId)
    requires Owned(idle, ready, held, live) && c in held && who !in ready
    ensures Owned(idle, ready[who := c], held - {c}, live)
  {
    var ready' := ready[who := c];
    assert ready'[who] in ready'.Values;
    forall d | d in ready.Values ensures d in ready'.Values {
      var w :| w in ready && ready[w] == d;
      assert ready'[w] == d;
    }
  }

  lemma ReturnKeepsOwnership(idle: seq<ConnId>, ready: map<Requester, ConnId>, held: set<ConnId>,
                             live: set<ConnId>, c: ConnId)
    requires Owned(idle, ready, held, live) && c in held
    ensures Owned(idle + [c], ready, held - {c}, live)
  {
    assert forall d :: d in idle + [c] <==> d in idle || d == c;
  }

  lemma ReleaseKeepsAdmission(p: Pool, c: ConnId, now: int)
    requires Admitted(p)
    ensures Admitted(Release(p, c, now))
  {
    var q := Release(p, c, now);
    SubsetSize(p.all - {c}, p.all);
    assert OpeningSet(q) == OpeningSet(p);
    if !Conn(p, c).closed && p.waiters != [] {
      assert forall w :: w in p.waiters <==> w == p.waiters[0] || w in p.waiters[1..];
    }
  }

  lemma ReturnToIdle(p: Pool, c: ConnId, held: set<ConnId>)
    requires Owned(p.idle, ReadyMap(p), held, Live(p)) && Booked(p, held)
    requires c in held && c in Live(p) && p.connections[c].handler.None?
    ensures var q := p.(idle := p.idle + [c]);
            Owned(q.idle, ReadyMap(q), held - {c}, Live(q)) && Booked(q, held - {c})
  {
    var q := p.(idle := p.idle + [c]);
    ReturnKeepsOwnership(p.idle, ReadyMap(p), held, Live(p), c);
    assert ReadyMap(q) == ReadyMap(p) && Live(q) == Live(p);
  }

  lemma GiveToWaiter(p: Pool, who: Requester, c: ConnId, held: set<ConnId>)
    requires Owned(p.idle, ReadyMap(p), held, Live(p)) && Booked(p, held)
    requires c in held && c in p.connections && p.connections[c].handler.None?
    requires who in p.promises && p.promises[who] == Waiting
    ensures var q := p.(promises := p.promises[who := Ready(c)], waiters := p.waiters[1..]);
            Owned(q.idle, ReadyMap(q), held - {c}, Live(q)) && Booked(q, held - {c})
    requires p.waiters != []
  {
    var q := p.(promises := p.promises[who := Ready(c)], waiters := p.waiters[1..]);
    GiveKeepsOwnership(p.idle, ReadyMap(p), held, Live(p), who, c);
    assert ReadyMap(q) == ReadyMap(p)[who := c] && Live(q) == Live(p);
  }

  lemma ReleaseKeepsInv(p: Pool, c: ConnId, now: int, held: set<ConnId>)
    requires PoolInv(p, held) && c in held
    ensures PoolInv(Release(p, c, now), held - {c})
  {
    var off := WithConn(p, c, Conn(p, c).(handler := None, lastUsedAt := now));
    UninstallKeepsInv(p, c, now, held);
    ReleaseKeepsAdmission(p, c, now);
    if Conn(p, c).closed {
      RetireKeepsInv(off, {c}, held);
      LetGoOfDead(Release(p, c, now), c, held);
    } else if p.waiters != [] {
      assert p.waiters[0] in p.waiters;
      GiveToWaiter(off, p.waiters[0], c, held);
    } else {
      ReturnToIdle(off, c, held);
    }
  }

  lemma BirthKeepsOwnership(idle: seq<ConnId>, ready: map<Requester, ConnId>, held: set<ConnId>,
                            live: set<ConnId>, who: Requester, c: ConnId)
    requires Owned(idle, ready, held, live) && who !in ready
    requires c !in idle && c !in held && c !in ready.Values
    ensures Owned(idle, ready[who := c], held, live + {c})
  {
    var ready' := ready[who := c];
    assert ready'[who] in ready'.Values;
    forall d | d in ready.Values ensures d in ready'.Values {
      var w :| w in ready && ready[w] == d;
      assert ready'[w] == d;
    }
  }

  lemma OpenDoneKeepsAdmission(p: Pool, who: Requester, c: ConnId, now: int)
    requires Admitted(p) && who in p.promises && p.promises[who] == Opening
    ensures Admitted(OpenDone(p, who, c, now))
  {
    assert OpeningSet(OpenDone(p, who, c, now)) == OpeningSet(p) - {who};
  }

  lemma OpenFailedKeepsAdmission(p: Pool, who: Requester)
    requires Admitted(p) && who in p.promises && p.promises[who] == Opening
    ensures Admitted(OpenFailed(p, who))
  {
    assert OpeningSet(OpenFailed(p, who)) == OpeningSet(p) - {who};
  }

  lemma OpenDoneKeepsInv(p: Pool, who: Requester, c: ConnId, now: int, held: set<ConnId>)
    requires PoolInv(p, held) && c !in p.connections
    requires who in p.promises && p.promises[who] == Opening
    ensures PoolInv(OpenDone(p, who, c, now), held)
  {
    OpenDoneKeepsAdmission(p, who, c, now);
    BirthKeepsOwnership(p.idle, ReadyMap(p), held, Live(p), who, c);
    OpenDoneMoves(p, who, c, now);
  }

  lemma OpenDoneMoves(p: Pool, who: Requester, c: ConnId, now: int)
    requires c !in p.connections && who in p.promises
    requires forall w :: w in p.promises && p.promises[w].Ready? ==> p.promises[w].connection in p.connections
    ensures var q := OpenDone(p, who, c, now);
            ReadyMap(q) == ReadyMap(p)[who := c] && Live(q) == Live(p) + {c}
  {
  }

  lemma OpenFailedKeepsInv(p: Pool, who: Requester, held: set<ConnId>)
    requires PoolInv(p, held) && who in p.promises && p.promises[who] == Opening
    ensures PoolInv(OpenFailed(p, who), held)
  {
    var q := OpenFailed(p, who);
    OpenFailedKeepsAdmission(p, who);
    assert q.promises - {who} == p.promises - {who};
    PromiseKeepsOwnership(p, q, who, held);
  }

  lemma TimedOutKeepsInv(p: Pool, who: Requester, held: set<ConnId>)
    requires PoolInv(p, held) && who in p.waiters
    ensures PoolInv(TimedOut(p, who), held)
  {
    var q := TimedOut(p, who);
    assert Admitted(q) by {
      WithoutMembers(p.waiters, who);
      assert OpeningSet(q) == OpeningSet(p);
    }
    PromiseKeepsOwnership(p, q, who, held);
  }

  lemma RefuseWaitersKeepsInv(p: Pool, held: set<ConnId>)
    requires PoolInv(p, held)
    ensures PoolInv(RefuseWaiters(p), held)
  {
    var q := RefuseWaiters(p);
    assert OpeningSet(q) == OpeningSet(p);
    assert ReadyMap(q) == ReadyMap(p) && Live(q) == Live(p);
  }

  lemma DrainKeepsInv(p: Pool, held: set<ConnId>)
    requires PoolInv(p, held)
    ensures PoolInv(Drain(p), held)
  {
    RetireKeepsInv(p, p.all, held);
    var r := RefuseWaiters(Retire(p, p.all));
    RefuseWaitersKeepsInv(Retire(p, p.all), held);
    assert ReadyMap(Drain(p)) == ReadyMap(r) && Live(Drain(p)) == Live(r) && OpeningSet(Drain(p)) == OpeningSet(r);
  }

  lemma FramingErrorKeepsInv(p: Pool, c: ConnId, held: set<ConnId>)
    requires PoolInv(p, held)
    ensures PoolInv(FramingError(p, c), held)
  {
    var q := FramingError(p, c);
    assert ReadyMap(q) == ReadyMap(p) && OpeningSet(q) == OpeningSet(p);
    assert Live(q) == Live(p) - {c};
  }

  lemma TakeKeepsOwnership(idle: seq<ConnId>, ready: map<Requester, ConnId>, held: set<ConnId>,
                           live: set<ConnId>, who: Requester)
    requires Owned(idle, ready, held, live) && who in ready
    ensures Owned(idle, ready - {who}, held + {ready[who]}, live)
  {
    var ready' := ready - {who};
    assert forall w :: w in ready' ==> w in ready && ready'[w] == ready[w];
    forall c | c in ready.Values && c != ready[who] ensures c in ready'.Values {
      var w :| w in ready && ready[w] == c;
      assert w in ready' && ready'[w] == c;
    }
    assert ready[who] in ready.Values;
  }

  /** The caller resumes with its connection, which is now in its hands. */
  lemma SpendReadyKeepsInv(p: Pool, who: Requester, held: set<ConnId>)
    requires PoolInv(p, held) && who in p.promises && p.promises[who].Ready?
    ensures PoolInv(Spend(p, who), held + {p.promises[who].connection})
  {
    var q := Spend(p, who);
    TakeKeepsOwnership(p.idle, ReadyMap(p), held, Live(p), who);
    assert ReadyMap(q) == ReadyMap(p) - {who} && Live(q) == Live(p);
    assert OpeningSet(q) == OpeningSet(p);
  }

  lemma SpendRefusedKeepsInv(p: Pool, who: Requester, held: set<ConnId>)
    requires PoolInv(p, held) && who in p.promises && p.promises[who] == Refused
    ensures PoolInv(Spend(p, who), held)
  {
    var q := Spend(p, who);
    assert OpeningSet(q) == OpeningSet(p);
    PromiseKeepsOwnership(p, q, who, held);
  }

  /** Changing what a backend owes, or a holder's handler, moves no connection. */
  lemma WithConnKeepsInv(p: Pool, c: ConnId, conn: Connection, held: set<ConnId>)
    requires PoolInv(p, held) && c in p.connections
    requires conn.closed == p.connections[c].closed
    requires conn.handler.Some? ==> c in held
    ensures PoolInv(WithConn(p, c, conn), held)
  {
    var q := WithConn(p, c, conn);
    assert ReadyMap(q) == ReadyMap(p) && Live(q) == Live(p) && OpeningSet(q) == OpeningSet(p);
  }
}

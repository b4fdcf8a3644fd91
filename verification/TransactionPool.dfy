/**
 * The router's objects, updated in place: `ServerConnection` (backend.ts), `ProjectPool`
 * (pool.ts) and `PooledSession` (transaction.ts). Every method is proved against the
 * function of PoolModel or PoolerModel that the safety theorems are about.
 */
module TransactionPool {
  import opened Bytes
  import opened Protocol
  import opened PoolModel
  import PoolerModel

  class ServerConnection {
    const id: ConnId
    var closed: bool
    var onMessage: Option<SessId>
    var lastUsedAt: int
    // The abstract backend.
    ghost var unanswered: seq<Request>
    ghost var status: byte

    ghost function State(): Connection
      reads this
    {
      Connection(closed, onMessage, lastUsedAt, unanswered, status)
    }

    /** A connection as `open` resolves it: authenticated, idle at ReadyForQuery. */
    constructor (id: ConnId, now: int)
      ensures this.id == id && State() == Connection(false, None, now, [], STATUS_IDLE)
    {
      this.id := id;
      closed, onMessage, lastUsedAt := false, None, now;
      unanswered, status := [], STATUS_IDLE;
    }

    method Send(s: SessId, m: RawMessage)
      modifies this
      ensures State() == if old(closed) then old(State())
                         else old(State()).(unanswered := old(unanswered) + [Request(s, m)])
    {
      if !closed {
        unanswered := unanswered + [Request(s, m)];
      }
    }

    method Destroy()
      modifies this
      ensures State() == old(State()).(closed := true)
    {
      if closed { return; }
      closed := true;
    }
  }

  lemma {:induction false} WithoutIsExcept(s: seq<ConnId>, c: ConnId)
    requires NoDup(s)
    ensures Without(s, c) == Except(s, {c})
  {
    if s != [] {
      WithoutIsExcept(s[1..], c);
      assert s[0] !in s[1..];
      if s[0] == c {
        NothingExcepted(s[1..], {c});
      }
    }
  }

  lemma {:induction false} NothingExcepted(s: seq<ConnId>, gone: set<ConnId>)
    requires forall c :: c in s ==> c !in gone
    ensures Except(s, gone) == s
  {
    if s != [] {
      NothingExcepted(s[1..], gone);
      assert s == [s[0]] + s[1..];
    }
  }

  lemma {:induction false} ExceptAppend(a: seq<ConnId>, b: seq<ConnId>, gone: set<ConnId>)
    ensures Except(a + b, gone) == Except(a, gone) + Except(b, gone)
  {
    if a == [] {
      assert a + b == b;
    } else {
      ExceptAppend(a[1..], b, gone);
      assert (a + b)[0] == a[0] && (a + b)[1..] == a[1..] + b;
      ConcatAssoc(if a[0] in gone then [] else [a[0]], Except(a[1..], gone), Except(b, gone));
    }
  }

  lemma RetireNothing(p: Pool)
    ensures Retire(p, {}) == p
  {
    NothingExcepted(p.idle, {});
    assert CloseAll(p.connections, {}) == p.connections;
  }

  lemma {:induction false} ExceptTwice(s: seq<ConnId>, a: set<ConnId>, b: set<ConnId>)
    ensures Except(Except(s, a), b) == Except(s, a + b)
  {
    if s != [] {
      ExceptTwice(s[1..], a, b);
      var head := if s[0] in a then [] else [s[0]];
      ExceptAppend(head, Except(s[1..], a), b);
      assert Except([s[0]], b) == (if s[0] in b then [] else [s[0]]) + Except([s[0]][1..], b);
    }
  }

  lemma RetireMore(p: Pool, a: set<ConnId>, b: set<ConnId>)
    ensures Retire(Retire(p, a), b) == Retire(p, a + b)
  {
    ExceptTwice(p.idle, a, b);
    assert p.all - a - b == p.all - (a + b);
    assert CloseAll(CloseAll(p.connections, a), b) == CloseAll(p.connections, a + b);
  }

  /** Dropping connections from the back part leaves the front where it was. */
  lemma FrontStays(s: seq<ConnId>, k: nat, gone: set<ConnId>)
    requires NoDup(s) && k <= |s| && forall c :: c in gone ==> c in s[k..]
    ensures |Except(s, gone)| >= k && Except(s, gone)[..k] == s[..k]
  {
    ExceptAppend(s[..k], s[k..], gone);
    assert s == s[..k] + s[k..];
    assert forall c :: c in s[..k] ==> c !in s[k..];
    NothingExcepted(s[..k], gone);
  }

  predicate IsStale(p: Pool, c: ConnId, cutoff: int) {
    Conn(p, c).lastUsedAt < cutoff || Conn(p, c).closed
  }

  ghost function StaleFrom(p: Pool, cutoff: int, i: nat): set<ConnId>
    requires i <= |p.idle|
  {
    set c | c in p.idle[i..] && IsStale(p, c, cutoff)
  }

  lemma StaleFromStep(p: Pool, cutoff: int, i: nat)
    requires i < |p.idle| && NoDup(p.idle)
    ensures StaleFrom(p, cutoff, i)
         == StaleFrom(p, cutoff, i + 1) + if IsStale(p, p.idle[i], cutoff) then {p.idle[i]} else {}
    ensures p.idle[i] !in StaleFrom(p, cutoff, i + 1)
  {
    assert p.idle[i..] == [p.idle[i]] + p.idle[i + 1..];
  }

  lemma {:induction false} AllExcepted(s: seq<ConnId>, gone: set<ConnId>)
    requires forall c :: c in s ==> c in gone
    ensures Except(s, gone) == []
  {
    if s != [] {
      AllExcepted(s[1..], gone);
    }
  }

  lemma EverythingRetires(p: Pool)
    requires forall c :: c in p.idle ==> c in p.all
    ensures Retire(p, p.all).idle == [] && Retire(p, p.all).all == {}
  {
    AllExcepted(p.idle, p.all);
  }

  class ProjectPool {
    const size: nat
    var idle: seq<ConnId>
    var all: set<ConnId>
    var waiters: seq<Requester>
    var opening: int
    var parametersCached: bool
    /** Promises of `acquire` whose awaiting caller has not resumed. */
    var promises: map<Requester, Phase>
    /** Every connection object, by the id that names it. */
    var connections: map<ConnId, ServerConnection>

    ghost predicate Valid()
      reads this
    {
      && (forall c :: c in connections ==> connections[c].id == c)
      && (forall c :: c in idle ==> c in all)
      && all <= connections.Keys
      && NoDup(idle)
    }

    ghost function Objects(): set<object>
      reads this
    {
      set c | c in connections :: connections[c]
    }

    ghost function View(): Pool
      reads this, Objects()
    {
      Pool(size, idle, all, waiters, opening, parametersCached, promises,
           map c | c in connections :: connections[c].State())
    }

    constructor (size: nat)
      ensures Valid() && View() == EmptyPool(size) && connections == map[]
    {
      this.size := size;
      idle, all, waiters, opening := [], {}, [], 0;
      parametersCached, promises, connections := false, map[], map[];
    }

    method Acquire(who: Requester, now: int)
      requires Valid()
      modifies this, Objects()
      ensures Valid() && connections == old(connections)
      ensures View() == PoolModel.Acquire(old(View()), who, now)
    {
      if |idle| > 0 {
        var ready := PopIdle();
        if !connections[ready].closed {
          HandOut(ready, who, now);
          return;
        }
      }
      OpenOrQueue(who);
    }

    method PopIdle() returns (ready: ConnId)
      requires Valid() && idle != []
      modifies this`idle
      ensures Valid() && ready == old(idle)[|old(idle)| - 1]
      ensures View() == old(View()).(idle := old(idle)[..|old(idle)| - 1])
    {
      ready := idle[|idle| - 1];
      idle := idle[..|idle| - 1];
      assert forall c :: c in idle ==> c in old(idle);
      assert View().connections == old(View()).connections;
    }

    /** A live connection goes to the caller; `acquire` resolves at once. */
    method HandOut(ready: ConnId, who: Requester, now: int)
      requires Valid() && ready in connections
      modifies this`promises, Objects()
      ensures Valid() && connections == old(connections)
      ensures View() == WithConn(old(View()), ready, Conn(old(View()), ready).(lastUsedAt := now))
                        .(promises := old(promises)[who := Ready(ready)])
    {
      connections[ready].lastUsedAt := now;
      promises := promises[who := Ready(ready)];
      assert View().connections == old(View()).connections[ready := Conn(old(View()), ready).(lastUsedAt := now)];
    }

    method OpenOrQueue(who: Requester)
      requires Valid()
      modifies this
      ensures Valid() && connections == old(connections)
      ensures View() == OpenOrWait(old(View()), who)
    {
      if |all| + opening < size {
        opening := opening + 1;
        promises := promises[who := Opening];
      } else {
        waiters := waiters + [who];
        promises := promises[who := Waiting];
      }
      assert View().connections == old(View()).connections;
    }

    method Forget(c: ConnId)
      requires Valid()
      modifies this
      ensures Valid() && connections == old(connections)
      ensures View() == old(View()).(all := old(all) - {c}, idle := Except(old(idle), {c}))
    {
      all := all - {c};
      WithoutIsExcept(idle, c);
      WithoutMembers(idle, c);
      idle := Without(idle, c);
      assert View().connections == old(View()).connections;
    }

    /** Take the handler off a connection that is coming back. */
    method TakeBack(c: ConnId, now: int)
      requires Valid() && c in connections
      modifies Objects()
      ensures Valid()
      ensures View() == WithConn(old(View()), c, Conn(old(View()), c).(handler := None, lastUsedAt := now))
    {
      connections[c].onMessage := None;
      connections[c].lastUsedAt := now;
      assert View().connections
          == old(View()).connections[c := Conn(old(View()), c).(handler := None, lastUsedAt := now)];
    }

    method ForgetDead(c: ConnId)
      requires Valid() && c in connections && connections[c].closed
      modifies this
      ensures Valid() && connections == old(connections)
      ensures View() == Retire(old(View()), {c})
    {
      Forget(c);
      assert View().connections == Retire(old(View()), {c}).connections;
    }

    method Release(c: ConnId, now: int)
      requires Valid() && c in connections && c !in idle
      requires !connections[c].closed ==> c in all
      modifies this, Objects()
      ensures Valid() && connections == old(connections)
      ensures View() == PoolModel.Release(old(View()), c, now)
    {
      TakeBack(c, now);
      label back:
      if connections[c].closed {
        ForgetDead(c);
        return;
      }
      if |waiters| > 0 {
        var waiter := waiters[0];
        waiters := waiters[1..];
        promises := promises[waiter := Ready(c)];
      } else {
        idle := idle + [c];
      }
      assert View().connections == old@back(View()).connections;
    }

    /** The connection is closed and out of the books, whatever state its backend was in. */
    method Discard(c: ConnId)
      requires Valid() && c in connections
      modifies this, Objects()
      ensures Valid() && connections == old(connections)
      ensures View() == PoolModel.Discard(old(View()), c)
    {
      connections[c].onMessage := None;
      assert View().connections == Uninstall(old(View()), c).connections;
      DestroyAndForget(c);
    }

    /** Continuation of `open`: the socket is up and authenticated. */
    method OpenSucceeded(who: Requester, connection: ServerConnection, now: int)
      requires Valid() && connection.id !in connections
      requires connection.State() == Connection(false, None, now, [], STATUS_IDLE)
      modifies this
      ensures Valid() && connections == old(connections)[connection.id := connection]
      ensures View() == OpenDone(old(View()), who, connection.id, now)
    {
      all := all + {connection.id};
      connections := connections[connection.id := connection];
      opening := opening - 1;
      promises := promises[who := Ready(connection.id)];
      assert View().connections == OpenDone(old(View()), who, connection.id, now).connections;
    }

    method OpenThrew(who: Requester)
      requires Valid()
      modifies this
      ensures Valid() && connections == old(connections)
      ensures View() == OpenFailed(old(View()), who)
    {
      opening := opening - 1;
      promises := promises[who := Refused];
      assert View().connections == old(View()).connections;
    }

    /** The waiter's timer fires. */
    method TimerFired(who: Requester)
      requires Valid()
      modifies this
      ensures Valid() && connections == old(connections)
      ensures View() == TimedOut(old(View()), who)
    {
      waiters := Without(waiters, who);
      promises := promises[who := Refused];
      assert View().connections == old(View()).connections;
    }

    /** `finish` in backend.ts with the `onClose` hook the pool installs. */
    method OnSocketClosed(c: ConnId)
      requires Valid() && c in connections
      modifies this, Objects()
      ensures Valid() && connections == old(connections)
      ensures View() == SocketClosed(old(View()), c)
    {
      if connections[c].closed {
        assert View() == old(View());
        return;
      }
      connections[c].closed := true;
      Forget(c);
      assert View().connections == SocketClosed(old(View()), c).connections;
    }

    method OnFramingError(c: ConnId)
      requires Valid() && c in connections
      modifies this, Objects()
      ensures Valid() && connections == old(connections)
      ensures View() == FramingError(old(View()), c)
    {
      connections[c].Destroy();
      assert View().connections == FramingError(old(View()), c).connections;
    }

    method DestroyAndForget(c: ConnId)
      requires Valid() && c in connections
      modifies this, Objects()
      ensures Valid() && connections == old(connections)
      ensures View() == Retire(old(View()), {c})
    {
      connections[c].Destroy();
      Forget(c);
      assert View().connections == Retire(old(View()), {c}).connections;
    }

    /** Close and drop every idle connection that is stale or dead, last to first. */
    method SweepIdle(cutoff: int)
      requires Valid()
      modifies this, Objects()
      ensures Valid() && connections == old(connections)
      ensures View() == PoolModel.SweepIdle(old(View()), cutoff)
    {
      ghost var was := View();
      ghost var gone: set<ConnId> := {};
      var i := |idle| - 1;
      RetireNothing(was);
      while i >= 0
        invariant -1 <= i < |was.idle|
        invariant Valid() && connections == old(connections)
        invariant gone == StaleFrom(was, cutoff, i + 1)
        invariant View() == Retire(was, gone)
      {
        FrontStays(was.idle, i + 1, gone);
        StaleFromStep(was, cutoff, i);
        var c := idle[i];
        assert c == idle[..i + 1][i] == was.idle[i];
        SweepOne(was, gone, c, cutoff);
        gone := StaleFrom(was, cutoff, i);
        i := i - 1;
      }
      assert was.idle[0..] == was.idle;
      assert gone == StaleIdle(was, cutoff);
    }

    method SweepOne(ghost was: Pool, ghost gone: set<ConnId>, c: ConnId, cutoff: int)
      requires Valid() && c in connections && c !in gone && View() == Retire(was, gone)
      modifies this, Objects()
      ensures Valid() && connections == old(connections)
      ensures View() == Retire(was, gone + if IsStale(was, c, cutoff) then {c} else {})
    {
      assert connections[c].State() == View().connections[c] == was.connections[c];
      if connections[c].lastUsedAt < cutoff || connections[c].closed {
        RetireMore(was, gone, {c});
        DestroyAndForget(c);
      } else {
        assert gone + {} == gone;
      }
    }

    method DestroyAll()
      requires Valid()
      modifies Objects()
      ensures Valid()
      ensures View() == old(View()).(connections := CloseAll(old(View()).connections, all))
    {
      ghost var was := View();
      var rest := all;
      assert View().connections == CloseAll(was.connections, all - rest);
      while rest != {}
        invariant rest <= all && Valid()
        invariant View() == was.(connections := CloseAll(was.connections, all - rest))
        decreases rest
      {
        var c :| c in rest;
        connections[c].Destroy();
        assert View().connections == CloseAll(was.connections, all - (rest - {c}));
        rest := rest - {c};
      }
    }

    method RefuseAll()
      requires Valid() && forall w :: w in waiters <==> w in promises && promises[w] == Waiting
      modifies this`waiters, this`promises
      ensures Valid() && View() == RefuseWaiters(old(View()))
    {
      var line := waiters;
      ghost var was := promises;
      waiters := [];
      var i := 0;
      while i < |line|
        invariant 0 <= i <= |line| && waiters == []
        invariant promises.Keys == was.Keys
        invariant forall w :: w in promises ==> promises[w] == if w in line[..i] then Refused else was[w]
      {
        assert line[i] in line;
        promises := promises[line[i] := Refused];
        i := i + 1;
      }
      assert line[..i] == line;
      assert promises == RefuseWaiters(old(View())).promises;
      assert View().connections == old(View()).connections;
    }

    /** Close everything and turn every waiter away. */
    method Drain()
      requires Valid() && forall w :: w in waiters <==> w in promises && promises[w] == Waiting
      modifies this, Objects()
      ensures Valid() && connections == old(connections)
      ensures View() == PoolModel.Drain(old(View()))
    {
      ghost var was := View();
      DestroyAll();
      EverythingRetires(was);
      all := {};
      idle := [];
      parametersCached := false;
      assert View().connections == CloseAll(was.connections, was.all);
      RefuseAll();
    }
  }

  class PooledSession {
    const id: SessId
    const pool: ProjectPool
    const reader: MessageReader
    var holding: Option<ConnId>
    var acquiring: bool
    var queued: seq<RawMessage>
    var closed: bool
    /** What has been written to the client's stream. */
    var written: seq<PoolerModel.ClientWrite>
    // History.
    ghost var received: Bytes
    ghost var fates: seq<PoolerModel.Fate>
    ghost var farewell: Bytes

    ghost predicate Valid()
      reads this, reader, pool
    {
      && !reader.startupPhase
      && pool.Valid()
      && (holding.Some? ==> holding.value in pool.connections)
    }

    ghost function Objects(): set<object>
      reads this, pool
    {
      {this, reader, pool} + pool.Objects()
    }

    ghost function State(): PoolerModel.Session
      reads this, reader
    {
      PoolerModel.Session(closed, acquiring, holding, queued, reader.buffer, received, fates, farewell, written)
    }

    ghost function View(): PoolerModel.Duo
      reads this, reader, pool, pool.Objects()
    {
      PoolerModel.Duo(pool.View(), State())
    }

    constructor (id: SessId, leftover: Bytes, pool: ProjectPool)
      requires pool.Valid()
      ensures Valid() && this.pool == pool && this.id == id && fresh(reader)
      ensures State() == PoolerModel.NewSession(leftover)
    {
      this.id, this.pool := id, pool;
      var r := new MessageReader(false);
      if |leftover| > 0 {
        r.Push(leftover);
        assert [] + leftover == leftover;
      }
      reader := r;
      holding, acquiring, queued, closed, written := None, false, [], false, [];
      received, fates, farewell := leftover, [], [];
    }

    method SendHeld(m: RawMessage)
      requires Valid() && holding.Some?
      modifies this`fates, pool.Objects()
      ensures Valid() && View() == PoolerModel.Forward(old(View()), id, m)
    {
      var c := holding.value;
      pool.connections[c].Send(id, m);
      fates := fates + [PoolerModel.Forwarded(c, m)];
      assert pool.View().connections == Send(old(pool.View()), c, id, m).connections;
    }

    method BeginAcquire(now: int)
      requires Valid()
      modifies this`acquiring, pool, pool.Objects()
      ensures Valid() && pool.connections == old(pool.connections)
      ensures View() == PoolerModel.StartAcquire(old(View()), id, now)
    {
      acquiring := true;
      pool.Acquire(ForSession(id), now);
    }

    /** The client left mid-transaction: its connection cannot be handed to anyone else. */
    method DropConnection()
      requires Valid() && holding.Some?
      modifies this`holding, pool, pool.Objects()
      ensures Valid()
      ensures View() == PoolerModel.Duo(PoolModel.Discard(old(pool.View()), old(holding).value),
                                        old(State()).(holding := None))
    {
      pool.Discard(holding.value);
      holding := None;
    }

    method Teardown()
      requires Valid()
      modifies this, pool, pool.Objects()
      ensures Valid() && View() == PoolerModel.Teardown(old(View()))
    {
      if closed { return; }
      closed := true;
      if holding.Some? {
        DropConnection();
      }
    }

    method OnClientData(chunk: Bytes, now: int)
      requires Valid()
      modifies Objects()
      ensures Valid() && View() == PoolerModel.Receive(old(View()), id, chunk, now)
    {
      reader.Push(chunk);
      received := received + chunk;
      Pump(now);
    }

    /** Send a framed message, or queue it and make sure a connection is on its way. */
    method AcceptMessage(m: RawMessage, now: int)
      requires Valid()
      modifies this`fates, this`queued, this`acquiring, pool, pool.Objects()
      ensures Valid() && Objects() == old(Objects())
      ensures View() == PoolerModel.Accept(old(View()), id, m, now)
    {
      if holding.Some? {
        SendHeld(m);
        return;
      }
      queued := queued + [m];
      if !acquiring {
        BeginAcquire(now);
      }
    }

    method Leave(m: RawMessage)
      requires Valid()
      modifies this, pool, pool.Objects()
      ensures Valid()
      ensures var e := old(View());
              View() == PoolerModel.Teardown(e.(session := e.session.(farewell := m.raw)))
    {
      farewell := m.raw;
      Teardown();
    }

    method Pump(now: int)
      requires Valid()
      modifies Objects()
      ensures Valid() && View() == PoolerModel.Pump(old(View()), id, now)
    {
      while true
        invariant Valid() && Objects() == old(Objects())
        invariant PoolerModel.Pump(View(), id, now) == PoolerModel.Pump(old(View()), id, now)
        decreases |reader.buffer|
      {
        if closed { return; }
        var r := TakeFromReader();
        match r {
          case ProtocolError(_) =>
            Teardown();
            return;
          case NoMessage =>
            return;
          case Message(m) =>
            if m.kind == Some(TERMINATE) {
              Leave(m);
              return;
            }
            AcceptMessage(m, now);
        }
      }
    }

    method TakeFromReader() returns (r: NextResult)
      requires Valid()
      modifies reader
      ensures Valid()
      ensures View() == old(View()).(session := old(State()).(buffer := reader.buffer))
      ensures match Next(false, old(reader.buffer))
              case Incomplete => r == NoMessage && reader.buffer == old(reader.buffer)
              case Implausible(length) => r == ProtocolError(length) && reader.buffer == old(reader.buffer)
              case Framed(m, rest) => r == Message(m) && reader.buffer == rest
    {
      r := reader.TakeNext();
      assert pool.View().connections == old(pool.View()).connections;
    }

    method FlushQueue()
      requires Valid() && holding.Some?
      modifies this`fates, this`queued, pool.Objects()
      ensures Valid() && pool.Objects() == old(pool.Objects())
      ensures View() == PoolerModel.Flush(old(View()), id)
    {
      while |queued| > 0
        invariant Valid() && holding == old(holding) && pool.Objects() == old(pool.Objects())
        invariant PoolerModel.Flush(View(), id) == PoolerModel.Flush(old(View()), id)
        decreases |queued|
      {
        SendNextQueued();
      }
    }

    method SendNextQueued()
      requires Valid() && holding.Some? && queued != []
      modifies this`fates, this`queued, pool.Objects()
      ensures Valid() && queued == old(queued)[1..]
      ensures var e := old(View());
              View() == PoolerModel.Forward(e.(session := e.session.(queued := queued)), id, old(queued)[0])
    {
      var m := queued[0];
      queued := queued[1..];
      SendHeld(m);
    }

    method Install(c: ConnId)
      requires Valid() && c in pool.connections
      modifies this`holding, pool.Objects()
      ensures Valid() && holding == Some(c)
      ensures var e := old(View());
              View() == PoolerModel.Duo(WithConn(e.pool, c, Conn(e.pool, c).(handler := Some(id))),
                                        e.session.(holding := Some(c)))
    {
      pool.connections[c].onMessage := Some(id);
      holding := Some(c);
      assert pool.View().connections
          == old(pool.View()).connections[c := Conn(old(pool.View()), c).(handler := Some(id))];
    }

    method GiveBack(c: ConnId, now: int)
      requires Valid() && c in pool.connections && c !in pool.idle
      requires !pool.connections[c].closed ==> c in pool.all
      modifies this`holding, pool, pool.Objects()
      ensures Valid() && pool.connections == old(pool.connections)
      ensures View() == PoolerModel.Duo(PoolModel.Release(old(pool.View()), c, now),
                                        old(State()).(holding := None))
    {
      holding := None;
      pool.Release(c, now);
    }

    method StopAcquiring()
      requires Valid()
      modifies this`acquiring
      ensures Valid()
      ensures View() == PoolerModel.Duo(old(pool.View()), old(State()).(acquiring := false))
    {
      acquiring := false;
    }

    /** `acquire` resumed: the connection is ours, or we have left and give it back. */
    method Granted(c: ConnId, now: int)
      requires Valid() && c in pool.connections && c !in pool.idle
      requires holding.None?
      requires !pool.connections[c].closed ==> c in pool.all
      modifies this, pool, pool.Objects()
      ensures Valid() && View() == PoolerModel.Granted(old(View()), id, c, now)
    {
      if closed {
        GiveBack(c, now);
        StopAcquiring();
        return;
      }
      Install(c);
      FlushQueue();
      // The queue is empty here, so the second flush of the `finally` block has nothing to do.
      StopAcquiring();
    }

    /** `acquire` resumed with an error. */
    method Denied()
      requires Valid()
      modifies this
      ensures Valid() && View() == PoolerModel.Denied(old(View()))
    {
      if !closed {
        written := written + [PoolerModel.Refusal];
      }
      fates := fates + PoolerModel.DropAll(queued);
      queued := [];
      acquiring := false;
      assert pool.View().connections == old(pool.View()).connections;
    }

    /** The connection we hold delivered message `m`, answering a request of `asker`. */
    method OnServerMessage(c: ConnId, m: RawMessage, asker: SessId, now: int)
      requires Valid() && c in pool.connections && c !in pool.idle
      requires !pool.connections[c].closed ==> c in pool.all
      modifies this, pool, pool.Objects()
      ensures Valid() && View() == PoolerModel.OnServerMessage(old(View()), id, c, m, asker, now)
    {
      if closed { return; }
      written := written + [PoolerModel.Relayed(asker, m)];
      if !IsReadyForQuery(m) || |m.payload| == 0 || m.payload[0] != STATUS_IDLE { return; }
      GiveBack(c, now);
      if |queued| > 0 && !acquiring {
        BeginAcquire(now);
      }
    }
  }
}

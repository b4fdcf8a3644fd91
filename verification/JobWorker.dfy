/** Workers over the queue, apps/control-plane/src/jobs/worker.ts, with crashes and shutdown. */
module JobWorkerModel {
  import opened Bytes
  import Q = JobQueueModel
  import opened JobQueueModel

  /**
   * A handler at work on a claimed job. `verdict` is what `handleFailure` concluded from a
   * JobCancelledError: to mark the job cancelled, or to release it.
   */
  datatype Execution = Execution(job: JobId, aborted: bool, verdict: Option<bool>)

  datatype Worker = Worker(stopping: bool, inFlight: map<JobId, nat>, executions: map<nat, Execution>)

  datatype System = System(table: Table, workers: map<Owner, Worker>)

  datatype Config = Config(ttl: int, concurrency: nat)

  datatype WorkerEvent =
    | Starts
    | TickSweeps
    | TickClaims(job: JobId, x: nat)
    | Beats(x: nat)
    | Checkpoints(x: nat, progress: Progress)
    | Returns(x: nat, result: Option<Progress>)
    | ThrowsCancelled(x: nat)
    | Concludes(x: nat)
    | ThrowsPermanent(x: nat, error: string)
    | ThrowsOther(x: nat, error: string, jitter: real)
    | Stops
    | Crashes

  datatype Happening =
    | At(owner: Owner, event: WorkerEvent)
    | Enqueues(job: JobId, req: EnqueueRequest)
    | UserCancels(job: JobId)

  datatype Moment = Moment(now: int, happening: Happening)

  function NewWorker(): Worker { Worker(false, map[], map[]) }

  function Finish(w: Worker, x: nat): Worker
    requires x in w.executions
  {
    w.(executions := w.executions - {x}, inFlight := w.inFlight - {w.executions[x].job})
  }

  function Abort(w: Worker, x: nat): Worker
    requires x in w.executions
  {
    w.(executions := w.executions[x := w.executions[x].(aborted := true)])
  }

  /** `stop`: every controller in the in-flight table is aborted. */
  function Stopped(w: Worker): Worker {
    w.(stopping := true,
       executions := map x | x in w.executions ::
         if w.executions[x].job in w.inFlight && w.inFlight[w.executions[x].job] == x
         then w.executions[x].(aborted := true) else w.executions[x])
  }

  /** The statement about a job that an event sends to the queue, if any. */
  ghost function Statement(sys: System, c: Config, m: Moment): Option<Q.Event> {
    match m.happening
    case Enqueues(job, req) => Some(Enqueued(job, req))
    case UserCancels(job) => Some(CancelAsked(job))
    case At(owner, e) => if owner in sys.workers then WorkerStatement(sys.workers[owner], sys.table, c, owner, e) else None
  }

  ghost function WorkerStatement(w: Worker, t: Table, c: Config, owner: Owner, e: WorkerEvent): Option<Q.Event> {
    match e
    case TickSweeps => if w.stopping then None else Some(Swept)
    case TickClaims(job, x) => if MayClaim(w, c, x) then Some(Claimed(job, owner)) else None
    case Beats(x) => if x in w.executions then Some(Beat(w.executions[x].job, owner)) else None
    case Checkpoints(x, progress) =>
      if x in w.executions then Some(Checkpointed(w.executions[x].job, owner, progress)) else None
    case Returns(x, result) => if Busy(w, x) then Some(Finished(w.executions[x].job, owner, result)) else None
    case ThrowsCancelled(x) =>
      if Busy(w, x) && !SeenCancelled(t, w.executions[x].job)
      then Some(Beat(w.executions[x].job, owner)) else None
    case Concludes(x) =>
      if !Concluding(w, x) then None
      else if w.executions[x].verdict == Some(true) then Some(Dropped(w.executions[x].job, owner))
      else Some(Q.Released(w.executions[x].job, owner))
    case ThrowsPermanent(x, error) =>
      if Busy(w, x) then Some(Rejected(w.executions[x].job, owner, error)) else None
    case ThrowsOther(x, error, jitter) =>
      if Busy(w, x) then Some(Errored(w.executions[x].job, owner, error, jitter)) else None
    case _ => None
  }

  predicate MayClaim(w: Worker, c: Config, x: nat) {
    !w.stopping && |w.inFlight| < c.concurrency && x !in w.executions
  }

  predicate Busy(w: Worker, x: nat) { x in w.executions && w.executions[x].verdict.None? }

  predicate Concluding(w: Worker, x: nat) { x in w.executions && w.executions[x].verdict.Some? }

  predicate SeenCancelled(t: Table, job: JobId) { job in t && t[job].state == Cancelled }

  predicate StillOwned(t: Table, job: JobId, owner: Owner) {
    OwnedBy(t, job, owner) && t[job].state == Running
  }

  /** `current?.state === "cancelled" || this.cancelWasRequested(job.id)`. */
  predicate WasCancelled(t: Table, job: JobId, owner: Owner) {
    SeenCancelled(t, job) || (StillOwned(t, job, owner) && t[job].cancelRequested)
  }

  /** The worker's own bookkeeping. */
  ghost function WorkerAfter(w: Worker, t: Table, c: Config, now: int, owner: Owner, e: WorkerEvent): Worker {
    match e
    case TickClaims(job, x) =>
      if MayClaim(w, c, x) && IsNext(t, job, now) then
        w.(executions := w.executions[x := Execution(job, false, None)], inFlight := w.inFlight[job := x])
      else w
    case Beats(x) =>
      if x in w.executions && (!StillOwned(t, w.executions[x].job, owner) || t[w.executions[x].job].cancelRequested)
      then Abort(w, x) else w
    case Returns(x, _) => if Busy(w, x) then Finish(w, x) else w
    case ThrowsCancelled(x) =>
      if Busy(w, x) then
        var verdict := WasCancelled(t, w.executions[x].job, owner) && !w.stopping;
        w.(executions := w.executions[x := w.executions[x].(verdict := Some(verdict))])
      else w
    case Concludes(x) => if Concluding(w, x) then Finish(w, x) else w
    case ThrowsPermanent(x, _) => if Busy(w, x) then Finish(w, x) else w
    case ThrowsOther(x, _, _) => if Busy(w, x) then Finish(w, x) else w
    case Stops => Stopped(w)
    case _ => w
  }

  ghost function Step(sys: System, c: Config, m: Moment): System {
    var said := Statement(sys, c, m);
    var table := if said.Some? then Q.Step(sys.table, c.ttl, Q.Turn(m.now, said.value)) else sys.table;
    match m.happening
    case At(owner, Starts) =>
      if owner in sys.workers then sys.(table := table)
      else System(table, sys.workers[owner := NewWorker()])
    case At(owner, Crashes) => System(table, sys.workers - {owner})
    case At(owner, e) =>
      if owner !in sys.workers then sys.(table := table)
      else System(table, sys.workers[owner := WorkerAfter(sys.workers[owner], sys.table, c, m.now, owner, e)])
    case _ => sys.(table := table)
  }

  ghost function RunAll(sys: System, c: Config, moments: seq<Moment>): System
    decreases |moments|
  {
    if moments == [] then sys else RunAll(Step(sys, c, moments[0]), c, moments[1..])
  }

  predicate SensibleMoment(m: Moment) {
    m.happening.Enqueues? ==> OrElse(m.happening.req.maxAttempts, 3) >= 1
  }

  // ---------------------------------------------------------------------------
  // Worker runs are queue runs

  ghost function Statements(sys: System, c: Config, moments: seq<Moment>): seq<Q.Turn>
    decreases |moments|
  {
    if moments == [] then []
    else
      var said := Statement(sys, c, moments[0]);
      (if said.Some? then [Q.Turn(moments[0].now, said.value)] else [])
      + Statements(Step(sys, c, moments[0]), c, moments[1..])
  }

  lemma StatementIsSensible(sys: System, c: Config, m: Moment)
    requires SensibleMoment(m)
    ensures var said := Statement(sys, c, m); said.Some? ==> Sensible(Q.Turn(m.now, said.value))
  {
  }

  /** So fencing, accounting and the rest hold of whatever any number of workers do. */
  lemma {:induction false} WorkersIssueStatements(sys: System, c: Config, moments: seq<Moment>)
    requires forall m :: m in moments ==> SensibleMoment(m)
    ensures RunAll(sys, c, moments).table == Q.Run(sys.table, c.ttl, Statements(sys, c, moments))
    ensures forall turn :: turn in Statements(sys, c, moments) ==> Sensible(turn)
    decreases |moments|
  {
    if moments != [] {
      WorkersIssueStatements(Step(sys, c, moments[0]), c, moments[1..]);
      StatementIsSensible(sys, c, moments[0]);
      var said := Statement(sys, c, moments[0]);
      var later := Statements(Step(sys, c, moments[0]), c, moments[1..]);
      if said.Some? {
        assert Statements(sys, c, moments)[1..] == later;
      } else {
        assert Statements(sys, c, moments) == later;
      }
    }
  }

  // ---------------------------------------------------------------------------
  // Cancellation

  /**
   * Rows are sound, cancelled only on request, a verdict to cancel rests on a request, and
   * no worker has more jobs in flight than it may.
   */
  ghost predicate WorkInv(sys: System, c: Config) {
    && Sound(sys.table)
    && (forall id :: id in sys.table && sys.table[id].state == Cancelled ==> sys.table[id].cancelRequested)
    && (forall owner :: owner in sys.workers ==> WorkerOk(sys.workers[owner], sys.table, c))
  }

  /** What a table promises a worker about its verdicts and its load. */
  predicate WorkerOk(w: Worker, t: Table, c: Config) {
    && (forall x :: x in w.executions ==> VerdictRests(t, w.executions[x]))
    && |w.inFlight| <= c.concurrency
  }

  predicate VerdictRests(t: Table, x: Execution) {
    x.job in t && (x.verdict == Some(true) ==> t[x.job].cancelRequested)
  }

  /** Rows never vanish and a cancel request is never withdrawn. */
  lemma RequestsStay(t: Table, ttl: int, turn: Q.Turn, id: JobId)
    requires id in t
    ensures id in Q.Step(t, ttl, turn)
    ensures t[id].cancelRequested ==> Q.Step(t, ttl, turn)[id].cancelRequested
  {
  }

  lemma CancelledOnRequest(t: Table, ttl: int, turn: Q.Turn, id: JobId)
    requires Sound(t) && id in Q.Step(t, ttl, turn) && Q.Step(t, ttl, turn)[id].state == Cancelled
    requires id in t && t[id].state == Cancelled ==> t[id].cancelRequested
    requires turn.event.Dropped? && turn.event.id == id && id in t ==> t[id].cancelRequested
    ensures Q.Step(t, ttl, turn)[id].cancelRequested
  {
    match turn.event
    case CancelAsked(_) =>
    case Dropped(_, _) =>
    case Swept =>
    case _ =>
  }

  lemma StepKeepsTable(sys: System, c: Config, m: Moment)
    requires WorkInv(sys, c) && SensibleMoment(m)
    ensures var t := Step(sys, c, m).table;
            && Sound(t)
            && (forall id :: id in sys.table ==> id in t && (sys.table[id].cancelRequested ==> t[id].cancelRequested))
            && (forall id :: id in t && t[id].state == Cancelled ==> t[id].cancelRequested)
  {
    var said := Statement(sys, c, m);
    if said.Some? {
      var turn := Q.Turn(m.now, said.value);
      StatementIsSensible(sys, c, m);
      StepKeepsSound(sys.table, c.ttl, turn);
      forall id | id in sys.table
        ensures id in Q.Step(sys.table, c.ttl, turn)
        ensures sys.table[id].cancelRequested ==> Q.Step(sys.table, c.ttl, turn)[id].cancelRequested
      {
        RequestsStay(sys.table, c.ttl, turn, id);
      }
      if turn.event.Dropped? {
        VerdictBehindDrop(sys, c, m);
      }
      forall id | id in Q.Step(sys.table, c.ttl, turn) && Q.Step(sys.table, c.ttl, turn)[id].state == Cancelled
        ensures Q.Step(sys.table, c.ttl, turn)[id].cancelRequested
      {
        CancelledOnRequest(sys.table, c.ttl, turn, id);
      }
    }
  }

  /** The only way to the statement that cancels is a verdict to cancel. */
  lemma VerdictBehindDrop(sys: System, c: Config, m: Moment)
    requires WorkInv(sys, c)
    requires Statement(sys, c, m).Some? && Statement(sys, c, m).value.Dropped?
    ensures var id := Statement(sys, c, m).value.id; id in sys.table && sys.table[id].cancelRequested
  {
    var owner, x := m.happening.owner, m.happening.event.x;
    assert VerdictRests(sys.table, sys.workers[owner].executions[x]);
  }

  lemma FinishKeepsOk(w: Worker, t: Table, c: Config, x: nat)
    requires WorkerOk(w, t, c) && x in w.executions
    ensures WorkerOk(Finish(w, x), t, c)
  {
    FewerKeys(w.inFlight, w.executions[x].job);
  }

  lemma AbortKeepsOk(w: Worker, t: Table, c: Config, x: nat)
    requires WorkerOk(w, t, c) && x in w.executions
    ensures WorkerOk(Abort(w, x), t, c)
  {
    assert VerdictRests(t, w.executions[x]);
  }

  lemma StopKeepsOk(w: Worker, t: Table, c: Config)
    requires WorkerOk(w, t, c)
    ensures WorkerOk(Stopped(w), t, c)
  {
    var v := Stopped(w);
    forall x | x in v.executions ensures VerdictRests(t, v.executions[x]) {
      assert VerdictRests(t, w.executions[x]);
    }
  }

  lemma ClaimKeepsOk(w: Worker, t: Table, c: Config, job: JobId, x: nat)
    requires WorkerOk(w, t, c) && MayClaim(w, c, x) && job in t
    ensures WorkerOk(w.(executions := w.executions[x := Execution(job, false, None)],
                        inFlight := w.inFlight[job := x]), t, c)
  {
    OneMoreKeyIn(w.inFlight, job, x);
  }

  lemma VerdictKeepsOk(w: Worker, t: Table, c: Config, x: nat, verdict: bool)
    requires WorkerOk(w, t, c) && x in w.executions
    requires verdict && w.executions[x].job in t ==> t[w.executions[x].job].cancelRequested
    ensures WorkerOk(w.(executions := w.executions[x := w.executions[x].(verdict := Some(verdict))]), t, c)
  {
    assert VerdictRests(t, w.executions[x]);
  }

  lemma WorkerKeepsVerdicts(w: Worker, t: Table, c: Config, now: int, owner: Owner, e: WorkerEvent)
    requires WorkerOk(w, t, c)
    requires forall id :: id in t && t[id].state == Cancelled ==> t[id].cancelRequested
    ensures WorkerOk(WorkerAfter(w, t, c, now, owner, e), t, c)
  {
    hide WorkerOk;
    match e
    case TickClaims(job, x) =>
      if MayClaim(w, c, x) && IsNext(t, job, now) { ClaimKeepsOk(w, t, c, job, x); }
    case Beats(x) =>
      if x in w.executions { AbortKeepsOk(w, t, c, x); }
    case ThrowsCancelled(x) =>
      if Busy(w, x) {
        VerdictKeepsOk(w, t, c, x, WasCancelled(t, w.executions[x].job, owner) && !w.stopping);
      }
    case Returns(x, _) => if Busy(w, x) { FinishKeepsOk(w, t, c, x); }
    case Concludes(x) => if Concluding(w, x) { FinishKeepsOk(w, t, c, x); }
    case ThrowsPermanent(x, _) => if Busy(w, x) { FinishKeepsOk(w, t, c, x); }
    case ThrowsOther(x, _, _) => if Busy(w, x) { FinishKeepsOk(w, t, c, x); }
    case Stops => StopKeepsOk(w, t, c);
    case _ =>
  }

  lemma FewerKeys(m: map<JobId, nat>, id: JobId)
    ensures |m - {id}| <= |m|
  {
    assert (m - {id}).Keys == m.Keys - {id};
    if id in m {
      assert m.Keys == (m.Keys - {id}) + {id};
    } else {
      assert m - {id} == m;
    }
  }

  lemma OneMoreKeyIn<V>(m: map<JobId, V>, id: JobId, x: V)
    ensures |m[id := x]| <= |m| + 1
  {
    assert m[id := x].Keys == m.Keys + {id};
  }

  lemma NewTableKeepsOk(w: Worker, t: Table, u: Table, c: Config)
    requires WorkerOk(w, t, c)
    requires forall id :: id in t ==> id in u && (t[id].cancelRequested ==> u[id].cancelRequested)
    ensures WorkerOk(w, u, c)
  {
    forall x | x in w.executions ensures VerdictRests(u, w.executions[x]) {
      assert VerdictRests(t, w.executions[x]);
    }
  }

  lemma StepKeepsWorkInv(sys: System, c: Config, m: Moment)
    requires WorkInv(sys, c) && SensibleMoment(m)
    ensures WorkInv(Step(sys, c, m), c)
  {
    hide WorkerOk, WorkerAfter, Sound, Statement;
    var next := Step(sys, c, m);
    StepKeepsTable(sys, c, m);
    forall owner | owner in next.workers ensures WorkerOk(next.workers[owner], next.table, c) {
      if owner in sys.workers {
        var w := sys.workers[owner];
        NewTableKeepsOk(w, sys.table, next.table, c);
        if m.happening.At? {
          var e := m.happening.event;
          WorkerKeepsVerdicts(w, sys.table, c, m.now, owner, e);
          NewTableKeepsOk(WorkerAfter(w, sys.table, c, m.now, owner, e), sys.table, next.table, c);
        }
      } else {
        NewWorkerIsOk(next.table, c);
      }
    }
  }

  lemma NewWorkerIsOk(t: Table, c: Config)
    ensures WorkerOk(NewWorker(), t, c)
  {
  }

  lemma {:induction false} RunKeepsWorkInv(sys: System, c: Config, moments: seq<Moment>)
    requires WorkInv(sys, c) && forall m :: m in moments ==> SensibleMoment(m)
    ensures WorkInv(RunAll(sys, c, moments), c)
    decreases |moments|
  {
    if moments != [] {
      StepKeepsWorkInv(sys, c, moments[0]);
      RunKeepsWorkInv(Step(sys, c, moments[0]), c, moments[1..]);
    }
  }

  /** Any number of workers, users, crashes and lost leases: no job is cancelled unasked. */
  lemma CancelledOnlyIfAsked(c: Config, moments: seq<Moment>, id: JobId)
    requires forall m :: m in moments ==> SensibleMoment(m)
    requires id in RunAll(System(map[], map[]), c, moments).table
    ensures var row := RunAll(System(map[], map[]), c, moments).table[id];
            row.state == Cancelled ==> row.cancelRequested
  {
    RunKeepsWorkInv(System(map[], map[]), c, moments);
  }

  /** A handler that stops on a shutdown abort is never counted as cancelled ... */
  lemma ShutdownNeverCancels(sys: System, c: Config, now: int, owner: Owner, x: nat)
    requires owner in sys.workers && sys.workers[owner].stopping && Busy(sys.workers[owner], x)
    ensures var w := Step(sys, c, Moment(now, At(owner, ThrowsCancelled(x)))).workers[owner];
            Concluding(w, x) && w.executions[x].verdict == Some(false)
  {
  }

  /** ... and its job, if still owned, goes back refunded and claimable that very moment. */
  lemma HandBackIsClaimable(sys: System, c: Config, now: int, owner: Owner, x: nat)
    requires WorkInv(sys, c) && owner in sys.workers && Concluding(sys.workers[owner], x)
    requires sys.workers[owner].executions[x].verdict == Some(false)
    ensures var id := sys.workers[owner].executions[x].job;
            var t := Step(sys, c, Moment(now, At(owner, Concludes(x)))).table;
            if StillOwned(sys.table, id, owner) then
              id in t && Claimable(t[id], now) && t[id].attempts == sys.table[id].attempts - 1
            else t == sys.table
  {
  }

  lemma PermanentErrorFails(sys: System, c: Config, now: int, owner: Owner, x: nat, error: string)
    requires owner in sys.workers && Busy(sys.workers[owner], x)
    requires OwnedBy(sys.table, sys.workers[owner].executions[x].job, owner)
    ensures var id := sys.workers[owner].executions[x].job;
            var next := Step(sys, c, Moment(now, At(owner, ThrowsPermanent(x, error))));
            id in next.table && next.table[id].state == Failed
  {
  }

  lemma FailedStays(next: System, c: Config, later: seq<Moment>, id: JobId)
    requires Sound(next.table) && id in next.table && next.table[id].state == Failed
    requires forall m :: m in later ==> SensibleMoment(m)
    ensures id in RunAll(next, c, later).table && RunAll(next, c, later).table[id] == next.table[id]
  {
    WorkersIssueStatements(next, c, later);
    TerminalIsForever(next.table, c.ttl, Statements(next, c, later), id);
  }

  /** A permanent error is final: the job fails at once and no later run changes its row. */
  lemma PermanentErrorIsFinal(sys: System, c: Config, now: int, owner: Owner, x: nat, error: string,
                              later: seq<Moment>)
    requires WorkInv(sys, c) && owner in sys.workers && Busy(sys.workers[owner], x)
    requires OwnedBy(sys.table, sys.workers[owner].executions[x].job, owner)
    requires forall m :: m in later ==> SensibleMoment(m)
    ensures var id := sys.workers[owner].executions[x].job;
            var next := Step(sys, c, Moment(now, At(owner, ThrowsPermanent(x, error))));
            && id in next.table && next.table[id].state == Failed
            && id in RunAll(next, c, later).table && RunAll(next, c, later).table[id] == next.table[id]
  {
    var id := sys.workers[owner].executions[x].job;
    PermanentErrorFails(sys, c, now, owner, x, error);
    StepKeepsTable(sys, c, Moment(now, At(owner, ThrowsPermanent(x, error))));
    hide Step, Sound, RunAll, Statements, WorkInv;
    FailedStays(Step(sys, c, Moment(now, At(owner, ThrowsPermanent(x, error)))), c, later, id);
  }
}

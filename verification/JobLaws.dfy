/** What the queue's statements promise, in the columns of a row, and what follows over runs. */
module JobLaws {
  import opened Bytes
  import opened Bits
  import opened JobQueueModel
  import W = JobWorkerModel

  // ---------------------------------------------------------------------------
  // Taking

  /** The claim query: attempts left; due, or left running under a lease that ran out. */
  predicate Runnable(row: JobRow, now: int) {
    && row.attempts < row.maxAttempts
    && ((row.state == Queued && row.runAt <= now)
        || (row.state == Running && row.leaseExpiresAt.Some? && row.leaseExpiresAt.value < now))
  }

  /** Highest priority first, and among equals the earliest due. */
  lemma NextInFields(t: Table, id: JobId, now: int)
    ensures IsNext(t, id, now) <==>
              && id in t && Runnable(t[id], now)
              && (forall other :: other in t && Runnable(t[other], now) ==>
                    t[other].priority < t[id].priority
                    || (t[other].priority == t[id].priority && t[id].runAt <= t[other].runAt))
  {
    if IsNext(t, id, now) {
      forall other | other in t && Runnable(t[other], now)
        ensures t[other].priority < t[id].priority
                || (t[other].priority == t[id].priority && t[id].runAt <= t[other].runAt)
      {
        assert IsCandidate(t, other, now);
      }
    }
  }

  /** A claim takes the lease for `ttl` and counts the attempt; the first start is remembered. */
  lemma ClaimInFields(t: Table, ttl: int, id: JobId, owner: Owner, now: int)
    requires IsNext(t, id, now)
    ensures var next := Step(t, ttl, Turn(now, Claimed(id, owner)));
            && id in next
            && next[id].state == Running && next[id].leaseOwner == Some(owner)
            && next[id].leaseExpiresAt == Some(now + ttl)
            && next[id].attempts == t[id].attempts + 1
            && next[id].startedAt == (if t[id].startedAt.Some? then t[id].startedAt else Some(now))
            && next[id].runAt == t[id].runAt && next[id].progress == t[id].progress
            && next[id].cancelRequested == t[id].cancelRequested && next[id].finishedAt == t[id].finishedAt
  {
  }

  /** A new job: queued, due when asked or at once, three attempts unless told otherwise. */
  lemma NewInFields(t: Table, ttl: int, id: JobId, req: EnqueueRequest, now: int)
    requires id !in t
    ensures var row := Step(t, ttl, Turn(now, Enqueued(id, req)))[id];
            && row.state == Queued && row.attempts == 0 && !row.cancelRequested
            && row.jobType == req.jobType && row.payload == req.payload
            && row.priority == (if req.priority.Some? then req.priority.value else 0)
            && row.runAt == (if req.runAt.Some? then req.runAt.value else now)
            && row.maxAttempts == (if req.maxAttempts.Some? then req.maxAttempts.value else 3)
            && row.progress.None? && row.leaseOwner.None? && row.lastError.None? && row.finishedAt.None?
  {
  }

  // ---------------------------------------------------------------------------
  // What each statement does to the row it names, and to every other

  /** One statement touches one row; a job's type, payload, priority and attempt limit never change. */
  lemma OnlyTheNamedRow(t: Table, ttl: int, turn: Turn, other: JobId)
    requires turn.event.Swept? || turn.event.id != other
    ensures !turn.event.Swept? ==> (other in Step(t, ttl, turn) <==> other in t)
    ensures !turn.event.Swept? && other in t ==> Step(t, ttl, turn)[other] == t[other]
  {
  }

  /** Whatever changes a row stamps it. */
  lemma ChangesAreStamped(t: Table, ttl: int, turn: Turn, id: JobId)
    requires id in Step(t, ttl, turn) && (id in t ==> Step(t, ttl, turn)[id] != t[id])
    ensures Step(t, ttl, turn)[id].updatedAt == turn.now
  {
  }

  predicate SameJob(a: JobRow, b: JobRow) {
    a.jobType == b.jobType && a.payload == b.payload && a.priority == b.priority && a.maxAttempts == b.maxAttempts
  }

  lemma StepKeepsJob(t: Table, ttl: int, turn: Turn, id: JobId)
    requires id in t
    ensures id in Step(t, ttl, turn) && SameJob(Step(t, ttl, turn)[id], t[id])
  {
    hide BackoffMs, IsNext, Clip, FailState, Sweepable;
  }

  lemma {:induction false} RunKeepsJob(t: Table, ttl: int, turns: seq<Turn>, id: JobId)
    requires id in t
    ensures id in Run(t, ttl, turns) && SameJob(Run(t, ttl, turns)[id], t[id])
    decreases |turns|
  {
    hide Step;
    if turns != [] {
      StepKeepsJob(t, ttl, turns[0], id);
      RunKeepsJob(Step(t, ttl, turns[0]), ttl, turns[1..], id);
    }
  }

  /** The row as its owner found it when it issues a statement. */
  predicate Mine(t: Table, id: JobId, owner: Owner) {
    id in t && t[id].state == Running && t[id].leaseOwner == Some(owner)
  }

  predicate LeaseGone(row: JobRow) { row.leaseOwner.None? && row.leaseExpiresAt.None? }

  lemma SuccessInFields(t: Table, ttl: int, id: JobId, owner: Owner, result: Option<Progress>, now: int)
    requires Mine(t, id, owner)
    ensures var row := Step(t, ttl, Turn(now, Finished(id, owner, result)))[id];
            && row.state == Succeeded && LeaseGone(row) && row.finishedAt == Some(now) && row.lastError.None?
            && row.progress == (if result.Some? then result else t[id].progress)
            && row.attempts == t[id].attempts
  {
  }

  /** The first 4000 characters of an error. */
  predicate Reports(row: JobRow, error: string) {
    row.lastError == Some(if |error| > 4000 then error[..4000] else error)
  }

  /** The wait before the next attempt doubles from two seconds and is at most five minutes. */
  lemma RetryInFields(t: Table, ttl: int, id: JobId, owner: Owner, error: string, jitter: real, now: int)
    requires Mine(t, id, owner) && 1 <= t[id].attempts < t[id].maxAttempts && 0.0 <= jitter < 1.0
    ensures var row := Step(t, ttl, Turn(now, Errored(id, owner, error, jitter)))[id];
            && row.state == Queued && LeaseGone(row) && row.finishedAt.None? && Reports(row, error)
            && row.attempts == t[id].attempts && row.progress == t[id].progress
            && now <= row.runAt && row.runAt < now + 300_000
            && row.runAt < now + 2_000 * Pow2(t[id].attempts - 1)
  {
    BackoffIsBounded(t[id].attempts, t[id].attempts, jitter);
  }

  /** Full jitter: the wait is that fraction of the ceiling, rounded down. */
  lemma WaitInFields(attempts: nat, jitter: real)
    requires attempts >= 1 && 0.0 <= jitter < 1.0
    ensures BackoffMs(attempts, jitter) ==
            (jitter * (if 2_000 * Pow2(attempts - 1) < 300_000 then 2_000 * Pow2(attempts - 1) else 300_000) as real).Floor
  {
  }

  lemma LastFailureInFields(t: Table, ttl: int, id: JobId, owner: Owner, error: string, jitter: real, now: int)
    requires Mine(t, id, owner) && t[id].attempts >= t[id].maxAttempts
    ensures var row := Step(t, ttl, Turn(now, Errored(id, owner, error, jitter)))[id];
            row.state == Failed && LeaseGone(row) && row.finishedAt == Some(now) && Reports(row, error)
            && row.runAt == t[id].runAt
  {
  }

  lemma RejectionInFields(t: Table, ttl: int, id: JobId, owner: Owner, error: string, now: int)
    requires Mine(t, id, owner)
    ensures var row := Step(t, ttl, Turn(now, Rejected(id, owner, error)))[id];
            row.state == Failed && LeaseGone(row) && row.finishedAt == Some(now) && Reports(row, error)
  {
  }

  /** A job handed back is due at once, the attempt refunded, its progress kept. */
  lemma HandBackInFields(t: Table, ttl: int, id: JobId, owner: Owner, now: int)
    requires Mine(t, id, owner) && t[id].attempts >= 1
    ensures var row := Step(t, ttl, Turn(now, Released(id, owner)))[id];
            row.state == Queued && LeaseGone(row) && row.runAt == now && row.attempts == t[id].attempts - 1
            && row.progress == t[id].progress && row.cancelRequested == t[id].cancelRequested
  {
  }

  lemma DropInFields(t: Table, ttl: int, id: JobId, owner: Owner, now: int)
    requires Mine(t, id, owner)
    ensures var row := Step(t, ttl, Turn(now, Dropped(id, owner)))[id];
            row.state == Cancelled && LeaseGone(row) && row.finishedAt == Some(now)
  {
  }

  /** A queued job is cancelled outright, a running one flagged and left running, an ended one left alone. */
  lemma CancelInFields(t: Table, ttl: int, id: JobId, now: int)
    requires id in t
    ensures var row := Step(t, ttl, Turn(now, CancelAsked(id)))[id];
            && (t[id].state == Queued ==>
                  row == t[id].(state := Cancelled, cancelRequested := true, finishedAt := Some(now), updatedAt := now))
            && (t[id].state == Running ==> row == t[id].(cancelRequested := true, updatedAt := now))
            && (t[id].state in {Succeeded, Failed, Cancelled} ==> row == t[id])
  {
  }

  /** The sweep fails running rows whose lease ran out on the last attempt, and touches no other. */
  lemma SweepInFields(t: Table, ttl: int, id: JobId, now: int)
    requires id in t
    ensures var next := Step(t, ttl, Turn(now, Swept));
            var row := t[id];
            && id in next
            && next[id] ==
               if row.state == Running && row.leaseExpiresAt.Some? && row.leaseExpiresAt.value < now
                  && row.attempts >= row.maxAttempts
               then row.(state := Failed, leaseOwner := None, leaseExpiresAt := None, updatedAt := now,
                         lastError := Some("Exceeded max attempts; last attempt died without reporting."),
                         finishedAt := Some(now))
               else row
  {
  }

  // ---------------------------------------------------------------------------
  // Waiting for its time

  lemma EarlyTurn(t: Table, ttl: int, turn: Turn, id: JobId)
    requires id in t && t[id].state == Queued && t[id].leaseOwner.None?
    requires turn.now < t[id].runAt && turn.event != CancelAsked(id)
    ensures id in Step(t, ttl, turn) && Step(t, ttl, turn)[id] == t[id]
  {
  }

  /** A queued job, a retry among them, is left alone until it is due, unless cancelled. */
  lemma {:induction false} NotBeforeDue(t: Table, ttl: int, turns: seq<Turn>, id: JobId)
    requires id in t && t[id].state == Queued && t[id].leaseOwner.None?
    requires forall turn :: turn in turns ==> turn.now < t[id].runAt && turn.event != CancelAsked(id)
    ensures id in Run(t, ttl, turns) && Run(t, ttl, turns)[id] == t[id]
    decreases |turns|
  {
    hide Step;
    if turns != [] {
      EarlyTurn(t, ttl, turns[0], id);
      NotBeforeDue(Step(t, ttl, turns[0]), ttl, turns[1..], id);
    }
  }

  // ---------------------------------------------------------------------------
  // How long a lease lasts

  ghost predicate HeldPast(t: Table, id: JobId, owner: Owner, until: int) {
    Mine(t, id, owner) && t[id].leaseExpiresAt.Some? && t[id].leaseExpiresAt.value >= until
  }

  lemma HeldTurn(t: Table, ttl: int, turn: Turn, id: JobId, owner: Owner, since: int)
    requires HeldPast(t, id, owner, since + ttl)
    requires since <= turn.now <= since + ttl && !GivesUp(turn.event, id, owner)
    ensures HeldPast(Step(t, ttl, turn), id, owner, since + ttl)
  {
    var e := turn.event;
    if e.Claimed? && e.id == id { assert !Claimable(t[id], turn.now); }
  }

  lemma {:induction false} HeldTurns(t: Table, ttl: int, turns: seq<Turn>, id: JobId, owner: Owner, since: int)
    requires HeldPast(t, id, owner, since + ttl)
    requires forall turn :: turn in turns ==> since <= turn.now <= since + ttl && !GivesUp(turn.event, id, owner)
    ensures HeldPast(Run(t, ttl, turns), id, owner, since + ttl)
    decreases |turns|
  {
    hide Step, HeldPast;
    if turns != [] {
      HeldTurn(t, ttl, turns[0], id, owner, since);
      HeldTurns(Step(t, ttl, turns[0]), ttl, turns[1..], id, owner, since);
    }
  }

  /** For `ttl` after a claim or a heartbeat nobody can take the job from an owner that holds on. */
  lemma LeaseLasts(t: Table, ttl: int, e: Event, since: int, turns: seq<Turn>)
    requires (e.Claimed? && IsNext(t, e.id, since)) || (e.Beat? && Mine(t, e.id, e.owner))
    requires forall turn :: turn in turns ==>
               since <= turn.now <= since + ttl && !GivesUp(turn.event, e.id, e.owner)
    ensures Mine(Run(Step(t, ttl, Turn(since, e)), ttl, turns), e.id, e.owner)
  {
    HeldTurns(Step(t, ttl, Turn(since, e)), ttl, turns, e.id, e.owner, since);
  }

  ghost predicate Silent(e: Event, id: JobId, owner: Owner) {
    !IsOwnersStatement(e, id, owner) && !(e.Claimed? && e.id == id)
  }

  ghost predicate LeftAt(t: Table, id: JobId, owner: Owner, until: int, attempts: int, most: int) {
    Mine(t, id, owner) && t[id].leaseExpiresAt == Some(until) && t[id].attempts == attempts && t[id].maxAttempts == most
  }

  lemma {:induction false} SilentTurns(t: Table, ttl: int, turns: seq<Turn>, id: JobId, owner: Owner, until: int)
    requires Mine(t, id, owner) && t[id].leaseExpiresAt == Some(until)
    requires forall turn :: turn in turns ==> turn.now <= until && Silent(turn.event, id, owner)
    ensures LeftAt(Run(t, ttl, turns), id, owner, until, t[id].attempts, t[id].maxAttempts)
    decreases |turns|
  {
    if turns != [] {
      var next := Step(t, ttl, turns[0]);
      assert LeftAt(next, id, owner, until, t[id].attempts, t[id].maxAttempts);
      SilentTurns(next, ttl, turns[1..], id, owner, until);
    }
  }

  /** A silent owner loses the job as soon as `ttl` is over: it runs again, or the sweep fails it. */
  lemma DeadOwnerLosesTheJob(t: Table, ttl: int, e: Event, since: int, turns: seq<Turn>, now: int)
    requires (e.Claimed? && IsNext(t, e.id, since)) || (e.Beat? && Mine(t, e.id, e.owner))
    requires forall turn :: turn in turns ==> turn.now <= since + ttl && Silent(turn.event, e.id, e.owner)
    ensures var end := Run(Step(t, ttl, Turn(since, e)), ttl, turns);
            && e.id in end
            && (Runnable(end[e.id], now) <==> now > since + ttl && end[e.id].attempts < end[e.id].maxAttempts)
            && (Step(end, ttl, Turn(now, Swept))[e.id].state == Failed <==>
                  now > since + ttl && end[e.id].attempts >= end[e.id].maxAttempts)
  {
    SilentTurns(Step(t, ttl, Turn(since, e)), ttl, turns, e.id, e.owner, since + ttl);
  }

  // ---------------------------------------------------------------------------
  // Progress

  predicate Overwrites(e: Event, id: JobId) {
    (e.Checkpointed? && e.id == id) || (e.Finished? && e.id == id && e.result.Some?)
  }

  lemma ProgressTurn(t: Table, ttl: int, turn: Turn, id: JobId)
    requires id in t && !Overwrites(turn.event, id)
    ensures id in Step(t, ttl, turn) && Step(t, ttl, turn)[id].progress == t[id].progress
  {
    hide BackoffMs, IsNext, Clip, FailState, Sweepable;
  }

  lemma {:induction false} ProgressTurns(t: Table, ttl: int, turns: seq<Turn>, id: JobId)
    requires id in t && forall turn :: turn in turns ==> !Overwrites(turn.event, id)
    ensures id in Run(t, ttl, turns) && Run(t, ttl, turns)[id].progress == t[id].progress
    decreases |turns|
  {
    hide Step;
    if turns != [] {
      ProgressTurn(t, ttl, turns[0], id);
      ProgressTurns(Step(t, ttl, turns[0]), ttl, turns[1..], id);
    }
  }

  /** The next attempt finds the last checkpoint, through failures, hand-backs, takeovers and sweeps. */
  lemma CheckpointSurvives(t: Table, ttl: int, id: JobId, owner: Owner, progress: Progress, now: int, turns: seq<Turn>)
    requires id in t && t[id].leaseOwner == Some(owner)
    requires forall turn :: turn in turns ==> !Overwrites(turn.event, id)
    ensures var end := Run(Step(t, ttl, Turn(now, Checkpointed(id, owner, progress))), ttl, turns);
            id in end && end[id].progress == Some(progress)
  {
    ProgressTurns(Step(t, ttl, Turn(now, Checkpointed(id, owner, progress))), ttl, turns, id);
  }

  // ---------------------------------------------------------------------------
  // Workers

  /** A worker, not stopping, runs job `id` as execution `x` and owns it. */
  ghost predicate AtWork(sys: W.System, owner: Owner, x: nat, id: JobId) {
    && owner in sys.workers && x in sys.workers[owner].executions
    && sys.workers[owner].executions[x].job == id && sys.workers[owner].executions[x].verdict.None?
    && !sys.workers[owner].stopping && Mine(sys.table, id, owner)
  }

  function Now(at: int, owner: Owner, e: W.WorkerEvent): W.Moment { W.Moment(at, W.At(owner, e)) }

  /** A handler that returns ends its job well; one that throws has it retried, or failed on the last attempt. */
  lemma HandlerOutcome(sys: W.System, c: W.Config, owner: Owner, x: nat, id: JobId, at: int,
                       result: Option<Progress>, error: string, jitter: real)
    requires AtWork(sys, owner, x, id)
    ensures var done := W.Step(sys, c, Now(at, owner, W.Returns(x, result)));
            && id in done.table && done.table[id].state == Succeeded
            && (result.Some? ==> done.table[id].progress == result)
            && x !in done.workers[owner].executions && id !in done.workers[owner].inFlight
    ensures var thrown := W.Step(sys, c, Now(at, owner, W.ThrowsOther(x, error, jitter)));
            && id in thrown.table
            && thrown.table[id].state == (if sys.table[id].attempts < sys.table[id].maxAttempts then Queued else Failed)
            && x !in thrown.workers[owner].executions && id !in thrown.workers[owner].inFlight
  {
  }

  /** A worker starts with nothing in flight and room for more; a crash forgets it, not its rows. */
  lemma StartsFresh(sys: W.System, c: W.Config, owner: Owner, at: int)
    requires owner !in sys.workers
    ensures var next := W.Step(sys, c, Now(at, owner, W.Starts));
            && next.table == sys.table && owner in next.workers
            && next.workers[owner].inFlight == map[] && next.workers[owner].executions == map[]
            && !next.workers[owner].stopping
    ensures W.Step(sys, c, Now(at, owner, W.Crashes)).table == sys.table
  {
  }

  /** Asking whether a stopped handler was cancelled is a heartbeat: the lease is renewed. */
  lemma AskingRenews(sys: W.System, c: W.Config, owner: Owner, x: nat, id: JobId, at: int)
    requires AtWork(sys, owner, x, id)
    ensures var next := W.Step(sys, c, Now(at, owner, W.ThrowsCancelled(x)));
            && Mine(next.table, id, owner) && next.table[id].leaseExpiresAt == Some(at + c.ttl)
            && x in next.workers[owner].executions
            && next.workers[owner].executions[x].verdict == Some(sys.table[id].cancelRequested)
  {
  }

  /** A heartbeat aborts the handler exactly when the lease is lost or a cancel is asked. */
  lemma BeatAbortsIff(sys: W.System, c: W.Config, owner: Owner, x: nat, at: int)
    requires owner in sys.workers && x in sys.workers[owner].executions && !sys.workers[owner].executions[x].aborted
    ensures var id := sys.workers[owner].executions[x].job;
            var next := W.Step(sys, c, Now(at, owner, W.Beats(x))).workers[owner];
            && x in next.executions
            && (next.executions[x].aborted <==>
                  !Mine(sys.table, id, owner) || sys.table[id].cancelRequested)
  {
  }

  /** A user's cancel of a running job goes through: flag, abort at the next beat, verdict, cancelled. */
  lemma CancelGoesThrough(sys: W.System, c: W.Config, owner: Owner, x: nat, id: JobId, at: int)
    requires AtWork(sys, owner, x, id)
    ensures var asked := W.Step(sys, c, W.Moment(at, W.UserCancels(id)));
            var beaten := W.Step(asked, c, Now(at, owner, W.Beats(x)));
            var thrown := W.Step(beaten, c, Now(at, owner, W.ThrowsCancelled(x)));
            var end := W.Step(thrown, c, Now(at, owner, W.Concludes(x)));
            && x in beaten.workers[owner].executions && beaten.workers[owner].executions[x].aborted
            && id in end.table && end.table[id].state == Cancelled && end.table[id].finishedAt == Some(at)
            && x !in end.workers[owner].executions
  {
  }

  /** A stopping worker claims nothing and sweeps nothing; every handler in flight is told to stop. */
  lemma StoppedClaimsNothing(sys: W.System, c: W.Config, owner: Owner, at: int, job: JobId, x: nat)
    requires owner in sys.workers
    ensures var w := W.Step(sys, c, Now(at, owner, W.Stops)).workers[owner];
            && w.stopping
            && (forall j :: j in sys.workers[owner].inFlight && sys.workers[owner].inFlight[j] in sys.workers[owner].executions
                  && sys.workers[owner].executions[sys.workers[owner].inFlight[j]].job == j
                  ==> w.executions[sys.workers[owner].inFlight[j]].aborted)
    ensures sys.workers[owner].stopping ==>
              && W.Step(sys, c, Now(at, owner, W.TickClaims(job, x))).table == sys.table
              && W.Step(sys, c, Now(at, owner, W.TickSweeps)).table == sys.table
  {
  }

  /** A worker with room takes the next job and starts exactly one handler for it. */
  lemma RoomTakesTheNext(sys: W.System, c: W.Config, owner: Owner, at: int, job: JobId, x: nat)
    requires owner in sys.workers && !sys.workers[owner].stopping && x !in sys.workers[owner].executions
    requires IsNext(sys.table, job, at)
    ensures var next := W.Step(sys, c, Now(at, owner, W.TickClaims(job, x)));
            && owner in next.workers
            && (if |sys.workers[owner].inFlight| < c.concurrency
                then Mine(next.table, job, owner) && next.table[job].leaseExpiresAt == Some(at + c.ttl)
                     && next.workers[owner].inFlight == sys.workers[owner].inFlight[job := x]
                     && next.workers[owner].executions == sys.workers[owner].executions[x := W.Execution(job, false, None)]
                else next.table == sys.table && next.workers[owner] == sys.workers[owner])
  {
  }
}

/** `JobQueue` and `JobWorker` as objects, each method against the functions the runs use. */
module JobRunner {
  import opened Bytes
  import Q = JobQueueModel
  import opened JobQueueModel
  import L = JobLaws
  import W = JobWorkerModel

  class JobQueue {
    const leaseTtlMs: int
    var jobs: Table

    constructor (leaseTtlMs: int)
      ensures this.leaseTtlMs == leaseTtlMs && jobs == map[]
    {
      this.leaseTtlMs := leaseTtlMs;
      jobs := map[];
    }

    method Enqueue(id: JobId, req: EnqueueRequest, now: int)
      requires id !in jobs
      modifies this
      ensures jobs == old(jobs)[id := NewRow(req, now)]
    {
      jobs := jobs[id := NewRow(req, now)];
    }

    /** A highest-priority, earliest candidate; None exactly when there is no candidate. */
    method Claim(owner: Owner, now: int) returns (claimed: Option<JobId>)
      modifies this
      ensures claimed.None? ==> jobs == old(jobs) && forall id :: !IsCandidate(jobs, id, now)
      ensures claimed.Some? ==>
                && IsNext(old(jobs), claimed.value, now)
                && jobs == old(jobs)[claimed.value := ClaimedRow(old(jobs)[claimed.value], owner, now, leaseTtlMs)]
      ensures claimed.None? <==> forall id :: id in old(jobs) ==> !L.Runnable(old(jobs)[id], now)
      ensures claimed.Some? ==>
                var row := old(jobs)[claimed.value];
                && L.Runnable(row, now)
                && (forall other :: other in old(jobs) && L.Runnable(old(jobs)[other], now) ==>
                      old(jobs)[other].priority < row.priority
                      || (old(jobs)[other].priority == row.priority && row.runAt <= old(jobs)[other].runAt))
    {
      var candidates := set id | id in jobs && Claimable(jobs[id], now);
      if candidates == {} {
        assert forall id :: IsCandidate(jobs, id, now) ==> id in candidates;
        assert forall id :: id in jobs && L.Runnable(jobs[id], now) ==> id in candidates;
        return None;
      }
      ghost var first := FirstExists(jobs, candidates);
      var id :| id in candidates && forall other :: other in candidates ==> !Before(jobs[other], jobs[id]);
      assert IsNext(jobs, id, now);
      L.NextInFields(jobs, id, now);
      jobs := jobs[id := ClaimedRow(jobs[id], owner, now, leaseTtlMs)];
      claimed := Some(id);
    }

    method Beat(id: JobId, owner: Owner, now: int) returns (stillOwned: bool, cancelRequested: bool)
      modifies this
      ensures jobs == Heartbeat(old(jobs), id, owner, now, leaseTtlMs)
      ensures stillOwned <==> W.StillOwned(old(jobs), id, owner)
      ensures cancelRequested <==> stillOwned && old(jobs)[id].cancelRequested
    {
      if id !in jobs || jobs[id].leaseOwner != Some(owner) || jobs[id].state != Running {
        return false, false;
      }
      jobs := jobs[id := jobs[id].(leaseExpiresAt := Some(now + leaseTtlMs), updatedAt := now)];
      return true, jobs[id].cancelRequested;
    }

    method SaveCheckpoint(id: JobId, owner: Owner, progress: Progress, now: int)
      modifies this
      ensures jobs == Checkpoint(old(jobs), id, owner, progress, now)
    {
      if id in jobs && jobs[id].leaseOwner == Some(owner) {
        jobs := jobs[id := jobs[id].(progress := Some(progress), updatedAt := now)];
      }
    }

    method MarkSucceeded(id: JobId, owner: Owner, progress: Option<Progress>, now: int)
      modifies this
      ensures jobs == Succeed(old(jobs), id, owner, progress, now)
    {
      if id in jobs && jobs[id].leaseOwner == Some(owner) {
        var row := NoLease(jobs[id], Succeeded, now).(lastError := None, finishedAt := Some(now));
        if progress.Some? {
          row := row.(progress := progress);
        }
        jobs := jobs[id := row];
      }
    }

    method MarkFailed(id: JobId, owner: Owner, error: string, jitter: real, now: int) returns (next: JobState)
      modifies this
      ensures jobs == Fail(old(jobs), id, owner, error, jitter, now)
      ensures next == FailState(old(jobs), id)
    {
      if id !in jobs { return Failed; }
      var current := jobs[id];
      var exhausted := current.attempts >= current.maxAttempts;
      next := if exhausted then Failed else Queued;
      if current.leaseOwner == Some(owner) {
        var row := NoLease(current, next, now).(lastError := Some(Clip(error)));
        if exhausted {
          row := row.(finishedAt := Some(now));
        } else {
          row := row.(finishedAt := None, runAt := now + BackoffMs(current.attempts, jitter));
        }
        jobs := jobs[id := row];
      }
    }

    method MarkFailedPermanently(id: JobId, owner: Owner, error: string, now: int)
      modifies this
      ensures jobs == FailPermanently(old(jobs), id, owner, error, now)
    {
      if id in jobs && jobs[id].leaseOwner == Some(owner) {
        jobs := jobs[id := NoLease(jobs[id], Failed, now).(lastError := Some(Clip(error)), finishedAt := Some(now))];
      }
    }

    method HandBack(id: JobId, owner: Owner, now: int)
      modifies this
      ensures jobs == Q.Release(old(jobs), id, owner, now)
    {
      if id in jobs && jobs[id].leaseOwner == Some(owner) && jobs[id].state == Running {
        var refunded := if jobs[id].attempts - 1 > 0 then jobs[id].attempts - 1 else 0;
        jobs := jobs[id := NoLease(jobs[id], Queued, now).(runAt := now, attempts := refunded)];
      }
    }

    method MarkCancelled(id: JobId, owner: Owner, now: int)
      modifies this
      ensures jobs == Q.MarkCancelled(old(jobs), id, owner, now)
    {
      if id in jobs && jobs[id].leaseOwner == Some(owner) {
        jobs := jobs[id := NoLease(jobs[id], Cancelled, now).(finishedAt := Some(now))];
      }
    }

    method RequestCancel(id: JobId, now: int) returns (row: Option<JobRow>)
      modifies this
      ensures jobs == Q.RequestCancel(old(jobs), id, now)
      ensures row == if id in jobs then Some(jobs[id]) else None
    {
      if id !in jobs { return None; }
      if jobs[id].state == Queued {
        jobs := jobs[id := jobs[id].(state := Cancelled, cancelRequested := true,
                                     finishedAt := Some(now), updatedAt := now)];
      } else if jobs[id].state == Running {
        jobs := jobs[id := jobs[id].(cancelRequested := true, updatedAt := now)];
      }
      return Some(jobs[id]);
    }

    method Sweep(now: int) returns (count: nat)
      modifies this
      ensures jobs == SweepExhausted(old(jobs), now)
      ensures count == |set id | id in old(jobs) && Sweepable(old(jobs)[id], now)|
    {
      count := |set id | id in jobs && Sweepable(jobs[id], now)|;
      jobs := SweepExhausted(jobs, now);
    }
  }

  class AbortController {
    var aborted: bool

    constructor ()
      ensures !aborted
    {
      aborted := false;
    }

    method Abort()
      modifies this
      ensures aborted
    {
      aborted := true;
    }
  }

  datatype HandlerError = JobCancelled | Permanent(message: string) | Other(message: string)

  /** The queue's table once `handleFailure` has dealt with an error. */
  function AfterFailure(t: Table, id: JobId, owner: Owner, stopping: bool, err: HandlerError,
                        jitter: real, now: int, ttl: int): Table {
    match err
    case JobCancelled =>
      var asked := if W.SeenCancelled(t, id) then t else Heartbeat(t, id, owner, now, ttl);
      if W.WasCancelled(t, id, owner) && !stopping then Q.MarkCancelled(asked, id, owner, now)
      else Q.Release(asked, id, owner, now)
    case Permanent(message) => FailPermanently(t, id, owner, message, now)
    case Other(message) => Fail(t, id, owner, message, jitter, now)
  }

  /** `after` is `before` once `started` were claimed in turn, each the next at its moment. */
  ghost predicate ClaimedInTurn(before: Table, started: seq<JobId>, owner: Owner, now: int, ttl: int, after: Table)
    decreases |started|
  {
    if started == [] then after == before
    else
      var id := started[|started| - 1];
      exists mid: Table ::
        && ClaimedInTurn(before, started[..|started| - 1], owner, now, ttl, mid)
        && IsNext(mid, id, now) && after == mid[id := ClaimedRow(mid[id], owner, now, ttl)]
  }

  ghost function Members(ids: seq<JobId>): set<JobId> { set id | id in ids }

  ghost function Candidates(t: Table, now: int): set<JobId> { set id | id in t && Claimable(t[id], now) }

  lemma OneMoreClaimed(before: Table, started: seq<JobId>, owner: Owner, now: int, ttl: int, mid: Table, id: JobId)
    requires ClaimedInTurn(before, started, owner, now, ttl, mid) && IsNext(mid, id, now) && ttl >= 0
    ensures var after := mid[id := ClaimedRow(mid[id], owner, now, ttl)];
            && ClaimedInTurn(before, started + [id], owner, now, ttl, after)
            && Candidates(after, now) < Candidates(mid, now)
    ensures Members(started + [id]) == Members(started) + {id}
  {
    var more := started + [id];
    assert more[..|more| - 1] == started && more[|more| - 1] == id;
    assert ClaimedInTurn(before, more[..|more| - 1], owner, now, ttl, mid);
    assert id in Candidates(mid, now);
  }

  class JobWorker {
    const instanceId: Owner
    const queue: JobQueue
    const concurrency: nat
    var stopping: bool
    var inFlight: map<JobId, AbortController>

    constructor (instanceId: Owner, queue: JobQueue, concurrency: nat)
      ensures this.instanceId == instanceId && this.queue == queue && this.concurrency == concurrency
      ensures !stopping && inFlight == map[]
    {
      this.instanceId, this.queue, this.concurrency := instanceId, queue, concurrency;
      stopping, inFlight := false, map[];
    }

    /** One turn of the claim loop: take the next job and start executing it. */
    method ClaimOne(now: int) returns (job: Option<JobId>)
      modifies this`inFlight, queue
      ensures job.None? ==>
                queue.jobs == old(queue.jobs) && inFlight == old(inFlight) && forall id :: !IsCandidate(queue.jobs, id, now)
      ensures job.Some? ==>
                && IsNext(old(queue.jobs), job.value, now)
                && queue.jobs == old(queue.jobs)[job.value :=
                     ClaimedRow(old(queue.jobs)[job.value], instanceId, now, queue.leaseTtlMs)]
                && inFlight.Keys == old(inFlight).Keys + {job.value}
                && |inFlight| <= |old(inFlight)| + 1
    {
      job := queue.Claim(instanceId, now);
      if job.Some? {
        var controller := new AbortController();
        W.OneMoreKeyIn(inFlight, job.value, controller);
        inFlight := inFlight[job.value := controller];
      }
    }

    method ClaimWhileRoom(now: int) returns (started: seq<JobId>)
      requires queue.leaseTtlMs >= 0
      modifies this`inFlight, queue
      ensures ClaimedInTurn(old(queue.jobs), started, instanceId, now, queue.leaseTtlMs, queue.jobs)
      ensures inFlight.Keys == old(inFlight).Keys + Members(started)
      ensures |inFlight| >= concurrency || forall id :: !IsCandidate(queue.jobs, id, now)
      ensures |old(inFlight)| <= concurrency ==> |inFlight| <= concurrency
    {
      started := [];
      ghost var was := queue.jobs;
      var more := true;
      while more && |inFlight| < concurrency
        invariant ClaimedInTurn(was, started, instanceId, now, queue.leaseTtlMs, queue.jobs)
        invariant inFlight.Keys == old(inFlight).Keys + Members(started)
        invariant |old(inFlight)| <= concurrency ==> |inFlight| <= concurrency
        invariant !more ==> forall id :: !IsCandidate(queue.jobs, id, now)
        decreases more, Candidates(queue.jobs, now)
      {
        more, started := ClaimNext(was, started, now);
      }
    }

    method ClaimNext(ghost was: Table, started: seq<JobId>, now: int) returns (more: bool, grown: seq<JobId>)
      requires queue.leaseTtlMs >= 0
      requires ClaimedInTurn(was, started, instanceId, now, queue.leaseTtlMs, queue.jobs)
      modifies this`inFlight, queue
      ensures ClaimedInTurn(was, grown, instanceId, now, queue.leaseTtlMs, queue.jobs)
      ensures !more ==> inFlight == old(inFlight) && grown == started && forall id :: !IsCandidate(queue.jobs, id, now)
      ensures more ==>
                && grown != [] && inFlight.Keys == old(inFlight).Keys + {grown[|grown| - 1]}
                && Members(grown) == Members(started) + {grown[|grown| - 1]}
                && |inFlight| <= |old(inFlight)| + 1
                && Candidates(queue.jobs, now) < Candidates(old(queue.jobs), now)
    {
      ghost var mid := queue.jobs;
      var job := ClaimOne(now);
      if job.None? { return false, started; }
      OneMoreClaimed(was, started, instanceId, now, queue.leaseTtlMs, mid, job.value);
      return true, started + [job.value];
    }

    /** Sweep, then claim until the worker is full or nothing is claimable. */
    method Tick(now: int) returns (started: seq<JobId>)
      requires queue.leaseTtlMs >= 0
      modifies this`inFlight, queue
      ensures stopping ==> queue.jobs == old(queue.jobs) && inFlight == old(inFlight) && started == []
      ensures !stopping ==>
                && ClaimedInTurn(SweepExhausted(old(queue.jobs), now), started, instanceId, now, queue.leaseTtlMs, queue.jobs)
                && inFlight.Keys == old(inFlight).Keys + Members(started)
                && (|inFlight| >= concurrency || forall id :: !IsCandidate(queue.jobs, id, now))
      ensures |old(inFlight)| <= concurrency ==> |inFlight| <= concurrency
    {
      if stopping { return []; }
      var swept := queue.Sweep(now);
      started := ClaimWhileRoom(now);
    }

    /** The heartbeat timer of one execution. */
    method OnHeartbeat(id: JobId, controller: AbortController, now: int)
      modifies queue, controller
      ensures queue.jobs == Heartbeat(old(queue.jobs), id, instanceId, now, queue.leaseTtlMs)
      ensures controller.aborted <==>
                (old(controller.aborted) || !W.StillOwned(old(queue.jobs), id, instanceId)
                 || old(queue.jobs)[id].cancelRequested)
    {
      var stillOwned, cancelRequested := queue.Beat(id, instanceId, now);
      if !stillOwned {
        controller.Abort();
        return;
      }
      if cancelRequested {
        controller.Abort();
      }
    }

    method HandleFailure(id: JobId, err: HandlerError, jitter: real, now: int)
      modifies queue
      ensures queue.jobs == AfterFailure(old(queue.jobs), id, instanceId, stopping, err, jitter, now, queue.leaseTtlMs)
    {
      match err
      case JobCancelled =>
        var wasCancelled := id in queue.jobs && queue.jobs[id].state == Cancelled;
        if !wasCancelled {
          var _, requested := queue.Beat(id, instanceId, now);
          wasCancelled := requested;
        }
        if wasCancelled && !stopping {
          queue.MarkCancelled(id, instanceId, now);
        } else {
          queue.HandBack(id, instanceId, now);
        }
      case Permanent(message) =>
        queue.MarkFailedPermanently(id, instanceId, message, now);
      case Other(message) =>
        var next := queue.MarkFailed(id, instanceId, message, jitter, now);
    }

    /** Stop claiming and signal every handler in flight. */
    method Stop()
      modifies this`stopping, set id | id in inFlight :: inFlight[id]
      ensures stopping && inFlight == old(inFlight)
      ensures forall id :: id in inFlight ==> inFlight[id].aborted
    {
      stopping := true;
      var rest := inFlight.Keys;
      while rest != {}
        invariant stopping && inFlight == old(inFlight) && rest <= inFlight.Keys
        invariant forall id :: id in inFlight && id !in rest ==> inFlight[id].aborted
        decreases rest
      {
        var id :| id in rest;
        inFlight[id].Abort();
        rest := rest - {id};
      }
    }
  }

  /**
   * What a handler's error does to the job it was running: shutdown aborts and lost leases
   * never cancel, a user's cancel on a job still owned always does, permanent errors end it.
   */
  lemma FailureOutcomes(t: Table, id: JobId, owner: Owner, stopping: bool, err: HandlerError,
                        jitter: real, now: int, ttl: int)
    requires Sound(t) && W.StillOwned(t, id, owner)
    ensures var after := AfterFailure(t, id, owner, stopping, err, jitter, now, ttl);
            && id in after
            && (after[id].state == Cancelled <==> err.JobCancelled? && t[id].cancelRequested && !stopping)
            && (err.JobCancelled? && (stopping || !t[id].cancelRequested) ==>
                  Claimable(after[id], now) && after[id].attempts == t[id].attempts - 1)
            && (err.Permanent? ==> after[id].state == Failed)
            && (err.Other? ==> after[id].state == (if t[id].attempts < t[id].maxAttempts then Queued else Failed))
  {
  }
}

/** The durable job queue, apps/control-plane/src/jobs/queue.ts: its table and its statements. */
module JobQueueModel {
  import opened Bytes
  import opened Bits

  type JobId = string
  type Owner = string
  type Progress = string

  datatype JobState = Queued | Running | Succeeded | Failed | Cancelled

  datatype JobRow = JobRow(
    jobType: string,
    payload: string,
    state: JobState,
    priority: int,
    runAt: int,
    attempts: int,
    maxAttempts: int,
    leaseOwner: Option<Owner>,
    leaseExpiresAt: Option<int>,
    cancelRequested: bool,
    progress: Option<Progress>,
    lastError: Option<string>,
    updatedAt: int,
    startedAt: Option<int>,
    finishedAt: Option<int>)

  type Table = map<JobId, JobRow>

  const RETRY_BASE_MS := 2_000
  const RETRY_MAX_MS := 5 * 60_000

  function BackoffCeiling(attempts: int): int {
    var doubled := RETRY_BASE_MS * Pow2(if attempts > 1 then attempts - 1 else 0);
    if doubled < RETRY_MAX_MS then doubled else RETRY_MAX_MS
  }

  /** `jitter` stands for `Math.random()`. */
  function BackoffMs(attempts: int, jitter: real): int {
    (jitter * BackoffCeiling(attempts) as real).Floor
  }

  datatype EnqueueRequest = EnqueueRequest(
    jobType: string,
    payload: string,
    priority: Option<int>,
    runAt: Option<int>,
    maxAttempts: Option<int>)

  function OrElse<T>(o: Option<T>, default: T): T {
    if o.Some? then o.value else default
  }

  function NewRow(req: EnqueueRequest, now: int): JobRow {
    JobRow(req.jobType, req.payload, Queued, OrElse(req.priority, 0), OrElse(req.runAt, now), 0,
           OrElse(req.maxAttempts, 3), None, None, false, None, None, now, None, None)
  }

  // ---------------------------------------------------------------------------
  // The claim query

  predicate Due(row: JobRow, now: int) { row.state == Queued && row.runAt <= now }

  /** A running row whose lease has run out; with no lease the comparison is false. */
  predicate Orphaned(row: JobRow, now: int) {
    row.state == Running && row.leaseExpiresAt.Some? && row.leaseExpiresAt.value < now
  }

  predicate Claimable(row: JobRow, now: int) {
    row.attempts < row.maxAttempts && (Due(row, now) || Orphaned(row, now))
  }

  predicate Sweepable(row: JobRow, now: int) {
    Orphaned(row, now) && row.attempts >= row.maxAttempts
  }

  /** ORDER BY priority DESC, run_at ASC. */
  predicate Before(a: JobRow, b: JobRow) {
    a.priority > b.priority || (a.priority == b.priority && a.runAt < b.runAt)
  }

  predicate IsCandidate(t: Table, id: JobId, now: int) { id in t && Claimable(t[id], now) }

  /** The row LIMIT 1 may return; SQL leaves the choice between ties open. */
  ghost predicate IsNext(t: Table, id: JobId, now: int) {
    IsCandidate(t, id, now) && forall other :: IsCandidate(t, other, now) ==> !Before(t[other], t[id])
  }

  function ClaimedRow(row: JobRow, owner: Owner, now: int, ttl: int): JobRow {
    row.(state := Running, leaseOwner := Some(owner), leaseExpiresAt := Some(now + ttl),
         attempts := row.attempts + 1, startedAt := Some(OrElse(row.startedAt, now)), updatedAt := now)
  }

  // ---------------------------------------------------------------------------
  // The owner's statements; WHERE lease_owner = owner never matches a NULL

  predicate OwnedBy(t: Table, id: JobId, owner: Owner) {
    id in t && t[id].leaseOwner == Some(owner)
  }

  function NoLease(row: JobRow, state: JobState, now: int): JobRow {
    row.(state := state, leaseOwner := None, leaseExpiresAt := None, updatedAt := now)
  }

  function Heartbeat(t: Table, id: JobId, owner: Owner, now: int, ttl: int): Table {
    if OwnedBy(t, id, owner) && t[id].state == Running
    then t[id := t[id].(leaseExpiresAt := Some(now + ttl), updatedAt := now)] else t
  }

  function Checkpoint(t: Table, id: JobId, owner: Owner, progress: Progress, now: int): Table {
    if OwnedBy(t, id, owner) then t[id := t[id].(progress := Some(progress), updatedAt := now)] else t
  }

  function Succeed(t: Table, id: JobId, owner: Owner, progress: Option<Progress>, now: int): Table {
    if OwnedBy(t, id, owner) then
      t[id := NoLease(t[id], Succeeded, now).(lastError := None, finishedAt := Some(now),
              progress := if progress.Some? then progress else t[id].progress)]
    else t
  }

  function Clip(error: string): string { if |error| <= 4000 then error else error[..4000] }

  function FailState(t: Table, id: JobId): JobState {
    if id !in t || t[id].attempts >= t[id].maxAttempts then Failed else Queued
  }

  function Fail(t: Table, id: JobId, owner: Owner, error: string, jitter: real, now: int): Table {
    if OwnedBy(t, id, owner) then
      var row := t[id];
      var exhausted := row.attempts >= row.maxAttempts;
      t[id := NoLease(row, FailState(t, id), now).(lastError := Some(Clip(error)),
              runAt := if exhausted then row.runAt else now + BackoffMs(row.attempts, jitter),
              finishedAt := if exhausted then Some(now) else None)]
    else t
  }

  function FailPermanently(t: Table, id: JobId, owner: Owner, error: string, now: int): Table {
    if OwnedBy(t, id, owner)
    then t[id := NoLease(t[id], Failed, now).(lastError := Some(Clip(error)), finishedAt := Some(now))] else t
  }

  function Release(t: Table, id: JobId, owner: Owner, now: int): Table {
    if OwnedBy(t, id, owner) && t[id].state == Running then
      t[id := NoLease(t[id], Queued, now).(runAt := now,
              attempts := if t[id].attempts - 1 > 0 then t[id].attempts - 1 else 0)]
    else t
  }

  function MarkCancelled(t: Table, id: JobId, owner: Owner, now: int): Table {
    if OwnedBy(t, id, owner) then t[id := NoLease(t[id], Cancelled, now).(finishedAt := Some(now))] else t
  }

  // ---------------------------------------------------------------------------
  // Everyone's statements

  function RequestCancel(t: Table, id: JobId, now: int): Table {
    if id !in t then t
    else if t[id].state == Queued then
      t[id := t[id].(state := Cancelled, cancelRequested := true, finishedAt := Some(now), updatedAt := now)]
    else if t[id].state == Running then
      t[id := t[id].(cancelRequested := true, updatedAt := now)]
    else t
  }

  const DIED := "Exceeded max attempts; last attempt died without reporting."

  function SweepExhausted(t: Table, now: int): Table {
    map id | id in t ::
      if Sweepable(t[id], now)
      then NoLease(t[id], Failed, now).(lastError := Some(DIED), finishedAt := Some(now)) else t[id]
  }

  // ---------------------------------------------------------------------------
  // Runs

  datatype Event =
    | Enqueued(id: JobId, req: EnqueueRequest)
    | Claimed(id: JobId, owner: Owner)
    | Beat(id: JobId, owner: Owner)
    | Checkpointed(id: JobId, owner: Owner, progress: Progress)
    | Finished(id: JobId, owner: Owner, result: Option<Progress>)
    | Errored(id: JobId, owner: Owner, error: string, jitter: real)
    | Rejected(id: JobId, owner: Owner, error: string)
    | Released(id: JobId, owner: Owner)
    | Dropped(id: JobId, owner: Owner)
    | CancelAsked(id: JobId)
    | Swept

  datatype Turn = Turn(now: int, event: Event)

  /** One statement. `Claimed` names the row the query picked; a wrong name claims nothing. */
  ghost function Step(t: Table, ttl: int, turn: Turn): Table {
    var now := turn.now;
    match turn.event
    case Enqueued(id, req) => if id in t then t else t[id := NewRow(req, now)]
    case Claimed(id, owner) => if IsNext(t, id, now) then t[id := ClaimedRow(t[id], owner, now, ttl)] else t
    case Beat(id, owner) => Heartbeat(t, id, owner, now, ttl)
    case Checkpointed(id, owner, progress) => Checkpoint(t, id, owner, progress, now)
    case Finished(id, owner, result) => Succeed(t, id, owner, result, now)
    case Errored(id, owner, error, jitter) => Fail(t, id, owner, error, jitter, now)
    case Rejected(id, owner, error) => FailPermanently(t, id, owner, error, now)
    case Released(id, owner) => Release(t, id, owner, now)
    case Dropped(id, owner) => MarkCancelled(t, id, owner, now)
    case CancelAsked(id) => RequestCancel(t, id, now)
    case Swept => SweepExhausted(t, now)
  }

  ghost function Run(t: Table, ttl: int, turns: seq<Turn>): Table
    decreases |turns|
  {
    if turns == [] then t else Run(Step(t, ttl, turns[0]), ttl, turns[1..])
  }

  /** Requests ask for at least one attempt; the API and every caller do. */
  predicate Sensible(turn: Turn) {
    turn.event.Enqueued? ==> OrElse(turn.event.req.maxAttempts, 3) >= 1
  }

  // ---------------------------------------------------------------------------
  // No zombies

  predicate Terminal(row: JobRow) { row.state in {Succeeded, Failed, Cancelled} }

  predicate RowOk(row: JobRow) {
    && (row.state == Running <==> row.leaseOwner.Some?)
    && (row.leaseOwner.Some? <==> row.leaseExpiresAt.Some?)
    && 0 <= row.attempts <= row.maxAttempts && 1 <= row.maxAttempts
    && (row.state == Queued ==> row.attempts < row.maxAttempts)
    && (row.state == Running ==> row.attempts >= 1)
    && (Terminal(row) <==> row.finishedAt.Some?)
  }

  ghost predicate Sound(t: Table) { forall id :: id in t ==> RowOk(t[id]) }

  lemma EndingKeepsRow(t: Table, ttl: int, turn: Turn, id: JobId)
    requires id in t && RowOk(t[id])
    requires turn.event.Finished? || turn.event.Errored? || turn.event.Rejected? || turn.event.Released? || turn.event.Dropped?
    ensures id in Step(t, ttl, turn) && RowOk(Step(t, ttl, turn)[id])
  {
  }

  lemma RowStaysOk(t: Table, ttl: int, turn: Turn, id: JobId)
    requires Sensible(turn) && (id in t ==> RowOk(t[id]))
    ensures id in Step(t, ttl, turn) ==> RowOk(Step(t, ttl, turn)[id])
  {
    var e := turn.event;
    if id in t && (e.Finished? || e.Errored? || e.Rejected? || e.Released? || e.Dropped?) {
      EndingKeepsRow(t, ttl, turn, id);
    }
  }

  lemma StepKeepsSound(t: Table, ttl: int, turn: Turn)
    requires Sound(t) && Sensible(turn)
    ensures Sound(Step(t, ttl, turn))
  {
    forall id | id in Step(t, ttl, turn) ensures RowOk(Step(t, ttl, turn)[id]) {
      RowStaysOk(t, ttl, turn, id);
    }
  }

  lemma {:induction false} RunKeepsSound(t: Table, ttl: int, turns: seq<Turn>)
    requires Sound(t) && forall turn :: turn in turns ==> Sensible(turn)
    ensures Sound(Run(t, ttl, turns))
    decreases |turns|
  {
    if turns != [] {
      StepKeepsSound(t, ttl, turns[0]);
      RunKeepsSound(Step(t, ttl, turns[0]), ttl, turns[1..]);
    }
  }

  /**
   * In every reachable table each row is well formed, so a job that is due or whose lease
   * ran out is picked up by exactly one of the claim query and the sweep.
   */
  lemma NoZombies(ttl: int, turns: seq<Turn>, id: JobId, now: int)
    requires forall turn :: turn in turns ==> Sensible(turn)
    requires id in Run(map[], ttl, turns)
    ensures var row := Run(map[], ttl, turns)[id];
            && RowOk(row)
            && !(Claimable(row, now) && Sweepable(row, now))
            && (Claimable(row, now) || Sweepable(row, now) <==>
                  Due(row, now) || (row.state == Running && OrElse(row.leaseExpiresAt, now) < now))
  {
    RunKeepsSound(map[], ttl, turns);
  }

  /** Terminal states absorb: no statement changes a terminal row in any way. */
  lemma TerminalStays(t: Table, ttl: int, turn: Turn, id: JobId)
    requires Sound(t) && id in t && Terminal(t[id])
    ensures id in Step(t, ttl, turn) && Step(t, ttl, turn)[id] == t[id]
  {
  }

  lemma {:induction false} TerminalIsForever(t: Table, ttl: int, turns: seq<Turn>, id: JobId)
    requires Sound(t) && id in t && Terminal(t[id])
    requires forall turn :: turn in turns ==> Sensible(turn)
    ensures id in Run(t, ttl, turns) && Run(t, ttl, turns)[id] == t[id]
    decreases |turns|
  {
    if turns != [] {
      StepKeepsSound(t, ttl, turns[0]);
      TerminalStays(t, ttl, turns[0], id);
      TerminalIsForever(Step(t, ttl, turns[0]), ttl, turns[1..], id);
    }
  }

  // ---------------------------------------------------------------------------
  // Fencing

  /** The owner's own ways to end its hold. */
  predicate GivesUp(e: Event, id: JobId, owner: Owner) {
    (e.Finished? || e.Errored? || e.Rejected? || e.Released? || e.Dropped?) && e.id == id && e.owner == owner
  }

  /** Every turn happens no later than the lease then in force, and `owner` never gives up. */
  ghost predicate HeldThroughout(t: Table, ttl: int, turns: seq<Turn>, id: JobId, owner: Owner)
    decreases |turns|
  {
    turns == [] ||
    (id in t && t[id].leaseExpiresAt.Some? && turns[0].now <= t[id].leaseExpiresAt.value
     && !GivesUp(turns[0].event, id, owner)
     && HeldThroughout(Step(t, ttl, turns[0]), ttl, turns[1..], id, owner))
  }

  /** Nobody else gets a job while its owner's lease runs, whatever everybody does. */
  lemma {:induction false} LeaseExcludesOthers(t: Table, ttl: int, turns: seq<Turn>, id: JobId, owner: Owner)
    requires Sound(t) && OwnedBy(t, id, owner)
    requires forall turn :: turn in turns ==> Sensible(turn)
    requires HeldThroughout(t, ttl, turns, id, owner)
    ensures OwnedBy(Run(t, ttl, turns), id, owner) && Run(t, ttl, turns)[id].state == Running
    decreases |turns|
  {
    if turns != [] {
      StepKeepsSound(t, ttl, turns[0]);
      LeaseExcludesOthers(Step(t, ttl, turns[0]), ttl, turns[1..], id, owner);
    }
  }

  /** A statement `owner` issues about job `id` other than a fresh claim. */
  predicate IsOwnersStatement(e: Event, id: JobId, owner: Owner) {
    GivesUp(e, id, owner) || ((e.Beat? || e.Checkpointed?) && e.id == id && e.owner == owner)
  }

  /** In this run, no statement of `owner` about `id` has any effect. */
  ghost predicate AllFenced(t: Table, ttl: int, turns: seq<Turn>, id: JobId, owner: Owner)
    decreases |turns|
  {
    turns == [] ||
    ((IsOwnersStatement(turns[0].event, id, owner) ==> Step(t, ttl, turns[0]) == t)
     && AllFenced(Step(t, ttl, turns[0]), ttl, turns[1..], id, owner))
  }

  /** Once the lease is someone else's, or gone, the old owner is powerless until it claims again. */
  lemma {:induction false} StaleOwnerIsFenced(t: Table, ttl: int, turns: seq<Turn>, id: JobId, owner: Owner)
    requires id in t && t[id].leaseOwner != Some(owner)
    requires forall turn :: turn in turns ==> turn.event != Claimed(id, owner)
    ensures AllFenced(t, ttl, turns, id, owner)
    ensures id in Run(t, ttl, turns) && Run(t, ttl, turns)[id].leaseOwner != Some(owner)
    decreases |turns|
  {
    if turns != [] {
      StaleOwnerIsFenced(Step(t, ttl, turns[0]), ttl, turns[1..], id, owner);
    }
  }

  // ---------------------------------------------------------------------------
  // Attempt accounting

  ghost function Claims(t: Table, ttl: int, turns: seq<Turn>, id: JobId): nat
    decreases |turns|
  {
    if turns == [] then 0
    else
      var e := turns[0].event;
      (if e.Claimed? && e.id == id && IsNext(t, id, turns[0].now) then 1 else 0)
      + Claims(Step(t, ttl, turns[0]), ttl, turns[1..], id)
  }

  /** Releases that took effect. */
  ghost function Refunds(t: Table, ttl: int, turns: seq<Turn>, id: JobId): nat
    decreases |turns|
  {
    if turns == [] then 0
    else
      var e := turns[0].event;
      (if e.Released? && e.id == id && OwnedBy(t, id, e.owner) && t[id].state == Running then 1 else 0)
      + Refunds(Step(t, ttl, turns[0]), ttl, turns[1..], id)
  }

  lemma AttemptsStep(t: Table, ttl: int, turn: Turn, id: JobId)
    requires id in t ==> RowOk(t[id])
    ensures AttemptsOf(Step(t, ttl, turn), id) == AttemptsOf(t, id)
              + (if turn.event.Claimed? && turn.event.id == id && IsNext(t, id, turn.now) then 1 else 0)
              - (if turn.event.Released? && turn.event.id == id && OwnedBy(t, id, turn.event.owner)
                    && t[id].state == Running then 1 else 0)
  {
  }

  function AttemptsOf(t: Table, id: JobId): int {
    if id in t then t[id].attempts else 0
  }

  lemma {:induction false} AttemptsAddUp(t: Table, ttl: int, turns: seq<Turn>, id: JobId)
    requires Sound(t) && forall turn :: turn in turns ==> Sensible(turn)
    ensures AttemptsOf(Run(t, ttl, turns), id)
         == AttemptsOf(t, id) + Claims(t, ttl, turns, id) - Refunds(t, ttl, turns, id)
    decreases |turns|
  {
    if turns != [] {
      StepKeepsSound(t, ttl, turns[0]);
      AttemptsStep(t, ttl, turns[0], id);
      AttemptsAddUp(Step(t, ttl, turns[0]), ttl, turns[1..], id);
    }
  }

  /** Over any run from an empty table; without refunds a job starts at most `maxAttempts` times. */
  lemma AttemptsAreAccounted(ttl: int, turns: seq<Turn>, id: JobId)
    requires forall turn :: turn in turns ==> Sensible(turn)
    requires id in Run(map[], ttl, turns)
    ensures var row := Run(map[], ttl, turns)[id];
            && row.attempts == Claims(map[], ttl, turns, id) - Refunds(map[], ttl, turns, id)
            && Claims(map[], ttl, turns, id) <= row.maxAttempts + Refunds(map[], ttl, turns, id)
  {
    RunKeepsSound(map[], ttl, turns);
    AttemptsAddUp(map[], ttl, turns, id);
  }

  // ---------------------------------------------------------------------------
  // Backoff and the choice of the next job

  lemma Scaled(jitter: real, c: real)
    requires 0.0 <= jitter < 1.0 && c > 0.0
    ensures 0.0 <= jitter * c < c
  {
  }

  lemma FloorBelow(x: real, c: int)
    requires 0.0 <= x < c as real
    ensures 0 <= x.Floor < c
  {
    assert x.Floor as real <= x;
  }

  lemma ScaledFloor(jitter: real, c: int)
    requires 0.0 <= jitter < 1.0 && c > 0
    ensures 0 <= (jitter * c as real).Floor < c
  {
    Scaled(jitter, c as real);
    FloorBelow(jitter * c as real, c);
  }

  lemma CeilingGrows(attempts: int, later: int)
    requires attempts <= later
    ensures 0 < BackoffCeiling(attempts) <= BackoffCeiling(later) <= RETRY_MAX_MS
  {
    Pow2Grows(if attempts > 1 then attempts - 1 else 0, if later > 1 then later - 1 else 0);
  }

  /** A retry waits less than its ceiling, which never shrinks from one attempt to the next. */
  lemma BackoffIsBounded(attempts: int, later: int, jitter: real)
    requires 0.0 <= jitter < 1.0 && attempts <= later
    ensures 0 <= BackoffMs(attempts, jitter) < BackoffCeiling(attempts) <= BackoffCeiling(later) <= RETRY_MAX_MS
  {
    CeilingGrows(attempts, later);
    ScaledFloor(jitter, BackoffCeiling(attempts));
  }

  /** Among any candidates there is one nobody is ahead of. */
  lemma {:induction false} FirstExists(t: Table, ids: set<JobId>) returns (first: JobId)
    requires ids != {} && ids <= t.Keys
    ensures first in ids && forall other :: other in ids ==> !Before(t[other], t[first])
    decreases ids
  {
    var some :| some in ids;
    if ids == {some} {
      first := some;
    } else {
      var rest := FirstExists(t, ids - {some});
      first := if Before(t[some], t[rest]) then some else rest;
    }
  }

  lemma NextExistsIff(t: Table, now: int)
    ensures (exists id :: IsNext(t, id, now)) <==> (exists id :: IsCandidate(t, id, now))
  {
    var ids := set id | id in t && Claimable(t[id], now);
    if some :| IsCandidate(t, some, now) {
      assert some in ids;
      var first := FirstExists(t, ids);
      assert IsNext(t, first, now);
    }
  }
}

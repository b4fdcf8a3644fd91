# justpostgres verification

A Dafny model of the parts of justpostgres whose correctness is hardest to see from the code, and
proofs about it. `dafny verify dfyconfig.toml` checks the whole project.

- **Transaction pooling** (`Pool`, `Pooler`, `PoolerSafety`, `PoolerOrder`, `PoolerReplies`, `PoolerService`,
  `PoolerClean`, `PoolerLimits`, `TransactionPool`). Clients share a bounded set of server connections. One turn of
  the event loop is one atomic step; an `await` is a promise that settles in one step and is read by
  its continuation in another. The rules are functions on values, proved about over whole runs; the
  classes of `TransactionPool` carry them out in place and are proved equal to them.
- **Jobs** (`JobQueue`, `JobWorker`, `JobLaws`, `JobRunner`, `ProjectDelete`, `DeleteLaws`). The lease-based table, any number
  of workers over it that may crash or stop, and the checkpointed teardown that resumes after a crash.
- **SQL text** (`SqlText`, `SqlLaws`). The statement splitter, the literal and comment blanker, and the printers
  they must read back.
- **Table browsing and edits** (`Sql`, `Browse`, `BrowsePaging`, `BrowseListing`, `BrowseLaws`, `Mutate`,
  `MutateLaws`). Generated clauses with numbered parameters, evaluated under three-valued logic, and keyset paging.
- **The wire** (`Bytes`, `Protocol`, `Codecs`, `CodecLaws`, `SessionRelay`, `RelayLaws`). Framing, encoders and parsers, and the
  session relay's switch from framing to piping. Formats follow the section "Message Formats" of the
  PostgreSQL chapter "Frontend/Backend Protocol".
- **Authentication** (`Strings`, `Bits`, `BitLaws`, `Scram`, `ScramLaws`, `TrustedProxy`, `TrustedProxyLaws`). SCRAM-SHA-256 on both sides
  (section 3 of RFC 5802, RFC 7677) and trusted-proxy resolution with signed 32-bit CIDR masks
  (section 3.1 of RFC 4632).

The modules whose names end in `Laws`, with `PoolerReplies` and `PoolerService`, say what the others
compute in terms that do not depend on how they are defined: fields, literal characters, bytes, formulas.

## Promises that hold only under a condition

Each is proved with its condition.

- Nobody waits beside an idle connection: a backend that garbles a message leaves its connection in
  `idle`, dead, and `acquire` looks only at the newest idle connection. With the pool full and a dead one
  on top of a live one, the client queues (`PoolerLimits.WaitsBesideIdleIff`, and as a run
  `PoolerLimits.ClientWaitsBesideIdle`); the dead one keeps its slot until a drain
  (`PoolerLimits.AcquireLosesIff`, `PoolerLimits.LostSlotShrinksThePool`).
- A clean hand-over: a client that pipelines a second query leaks its reply to the next holder
  (`PoolerLimits.PipeliningLeaks`); a released connection is clean exactly when nothing but COPY traffic
  was written after the answered request (`PoolerClean.ReleaseIsCleanIff`).
- A deleted project is eventually retired: stopping a container that is gone throws, and so does removing
  a volume or network somebody else uses, on every attempt (`ProjectDelete.CanStillRetireIff`). A PostgREST
  container on the network is enough (`ProjectDelete.RestContainerBlocks`), and a fenced checkpoint
  strands a teardown that was clear for good (`ProjectDelete.FencedSaveStrands`).
- A saved step is not repeated: it can be, exactly while a live attempt's next checkpoint is below what
  is saved and the calls in front of it go through (`ProjectDelete.CanRepeatIff`, and as a run
  `ProjectDelete.StaleSaveRepeats`); a run gets there only by overtaking an attempt of the owner
  (`ProjectDelete.LagsIff`, `ProjectDelete.SavedStepsAreNotRepeated`).
- A retired project's data is gone: the copy-on-write store swallows failed removals
  (`ProjectDelete.PromiseNeedsAnHonestStore`, `ProjectDelete.SwallowedRun`); and a project whose data
  volume is no longer named after its ref keeps it (`ProjectDelete.EmptiedLeavesNothingIff`).
- A printed name or literal is read back: exactly when the text after it does not begin with the same
  quote (`SqlText.PrintedIsOneToken`).
- A cursor of another listing is refused: of other order columns, if no column name has a comma in it
  (`BrowseLaws.StaleCursorRefusedIff`, `BrowseLaws.CommaPasses`); of the other direction, never.
- Prepended `X-Forwarded-For` entries never matter: exactly when the chain holds an untrusted hop
  (`TrustedProxy.PrependingNeverMattersIff`).

## Model

| member | source | states |
|---|---|---|
| Bytes.ReadWriteInt32 | apps/router/src/protocol.ts:197-210 | a signed 32-bit integer written big-endian is read back, wherever it stands in the buffer |
| Bytes.WriteReadInt32 | apps/router/src/protocol.ts:222-228 | any four bytes read as a signed integer are the bytes that integer is written as |
| Protocol.NextIsStable | apps/router/src/protocol.ts:100-132 | once the head of the buffer is a message or an error, later bytes cannot change that decision |
| Protocol.FramingConservesBytes | apps/router/src/protocol.ts:100-132 | messages framed plus leftover are exactly the buffer, in order |
| Protocol.FrameSplit | apps/router/src/protocol.ts:84-132 | draining after a first part and again after a second equals draining the whole once |
| Protocol.ChunkIndependence | apps/router/src/protocol.ts:74-133 | for every way of cutting a stream into chunks: same messages, same leftover, same failure |
| Protocol.EncodedMessagesDecode | apps/router/src/protocol.ts:222-228 | concatenated encoded messages within the size limit frame back into the original list, nothing left |
| Protocol.FramedIsEncodable | apps/router/src/protocol.ts:118-132 | every typed message the reader frames is one the encoder would print |
| Protocol.MessageReader.TakeNext | apps/router/src/protocol.ts:100-132 | takes exactly one framed message, or leaves the buffer untouched on incomplete or implausible input |
| Protocol.MessageReader.Feed | apps/router/src/backend.ts:106-121 | one socket event yields exactly the messages complete so far and keeps the rest |
| Codecs.ParseStartupPacket | apps/router/src/protocol.ts:157-194 | the loop computes the recursive reading of the packet, errors included |
| Codecs.EncodeStartupPacket | apps/router/src/protocol.ts:197-210 | the loop prints length, version, every entry NUL-terminated, and the final NUL |
| Codecs.StartupPacketFrames | apps/router/src/protocol.ts:105-116 | an encoded startup packet is framed as itself whatever bytes follow |
| Codecs.ParseUndoesEncode | apps/router/src/protocol.ts:157-210 | for distinct non-empty NUL-free keys, NUL-free values and any version that is not a request code, parsing recovers the version and exactly the entries |
| Codecs.ParseErrorResponse | apps/router/src/protocol.ts:301-313 | the loop computes the recursive reading of the tagged fields |
| Codecs.ErrorRoundTrip | apps/router/src/protocol.ts:237-313 | every field an error prints is recovered with its value, and no other tag appears; empty detail and hint are absent |
| Codecs.SaslRoundTrip | apps/router/src/scram.ts:230-247 | mechanism and data come back for every NUL-free mechanism, empty data included |
| SessionRelay.FramedStream.NextMessage | apps/router/src/framed.ts:36-48 | settles, waits or throws as the buffer, the end and a failure dictate; a failure wins over buffered messages |
| SessionRelay.FramedStream.OnData | apps/router/src/framed.ts:72-89 | buffers the chunk and settles a waiting reader with a message, or rejects it on a framing error |
| SessionRelay.StepKeepsInv | apps/router/src/session.ts:203-234 | written bytes, the message in flight and the buffer stay exactly what the backend has sent |
| SessionRelay.RelayIsTransparent | apps/router/src/session.ts:203-234 | however the backend is chunked, ends or fails: the client has a prefix of its bytes, all of them once piped, and an idle loop withholds only part of one message |
| SessionRelay.FramedUntilReady | apps/router/src/session.ts:206-227 | what the loop forwards is a prefix of the stream's own framing and no message before the last is ReadyForQuery |
| SessionRelay.CaughtUp | apps/router/src/session.ts:203-234 | a loop with nothing left to do has let go with every byte written, or waits on a live backend that has not yet sent ReadyForQuery |
| SessionRelay.BackendRelay.OnBackendData | apps/router/src/session.ts:203-234 | a chunk is framed before the switch and written straight through after it |
| SessionRelay.BackendRelay.OnSettled | apps/router/src/session.ts:207-234 | one pass of the loop body: forward, then leave the loop or ask again |
| SessionRelay.BackendGetsTheRest | apps/router/src/session.ts:190-198 | whatever arrived while connecting and however cut: the backend is written the startup packet and then exactly the bytes the client sent after its own, in order, and nothing before it is connected |
| SessionRelay.BackendReadsTheRole | apps/router/src/session.ts:187-191 | the backend parses the rewritten packet as the client's parameters with only `user` replaced |
| SessionRelay.ParsedIsPrintable | apps/router/src/protocol.ts:178-193 | every parameter the parser accepts meets the printer's conditions |
| CodecLaws.FrameIs | apps/router/src/protocol.ts:100-140 | before and after the startup packet: what is incomplete, implausible (below 4 or above 512 MiB) and framed, and the exact bytes of message and rest |
| CodecLaws.DrainedIs | apps/router/src/backend.ts:106-121 | draining ends before part of a message, or has failed before an implausible one |
| CodecLaws.StartupKinds | apps/router/src/protocol.ts:157-175 | the SSL and GSS codes carry nothing, the cancel code two integers, and a packet too short for either is malformed |
| CodecLaws.ReadingEnds | apps/router/src/protocol.ts:181-185 | reading stops at an empty name and at a name no NUL ends, keeping what was read |
| CodecLaws.ValueMustEnd | apps/router/src/protocol.ts:187-188 | a value no NUL ends makes the packet malformed |
| CodecLaws.PacketIs | apps/router/src/protocol.ts:197-210 | a printed packet begins with its own length and the version and ends with the entries and one more NUL |
| CodecLaws.ErrorIsPrinted | apps/router/src/protocol.ts:237-257 | byte for byte: S and V with the severity or FATAL, C, M, then D and H only if they say something, and a NUL |
| CodecLaws.SaslIs | apps/router/src/scram.ts:230-237 | the data is what the length says, clipped to what is there, and nothing for a length that is not positive |
| RelayLaws.LetsGoForAReason | apps/router/src/session.ts:203-234 | on every run: until it lets go the relay has written exactly the messages it forwarded, and it lets go only behind a ReadyForQuery or a key too short to read, at the stream's end or failure, or before an impossible length |
| RelayLaws.LetsGoWhenItMust | apps/router/src/session.ts:203-234 | on every run, once caught up: behind a ReadyForQuery, at the end and before an impossible length it has let go |
| RelayLaws.ClientReaderIs | apps/router/src/session.ts:193-198 | on every run: once detached the client's reader holds nothing; until then it holds all that came and knows whether the client ended or failed |
| RelayLaws.PacketForTheRole | apps/router/src/session.ts:187-191 | the backend reads version 3.0, `user` as the role, and every other parameter as the client gave it |
| PoolModel.AcquireKeepsInv | apps/router/src/pool.ts:55-81 | acquiring keeps exclusive ownership, the capacity bound and one promise per waiter |
| PoolModel.ReleaseKeepsInv | apps/router/src/pool.ts:83-114 | releasing moves the connection to exactly one new place: forgotten, a waiter's promise, or idle |
| PoolModel.DiscardKeepsInv | apps/router/src/pool.ts:117-121 | discarding forgets the connection without disturbing any other owner |
| PoolModel.OpenDoneKeepsInv | apps/router/src/pool.ts:174-192 | a finished connect replaces a connect in flight one for one, so the bound holds at every moment |
| PoolModel.OpenFailedKeepsInv | apps/router/src/pool.ts:174-192 | a failed connect gives its slot back |
| PoolModel.TimedOutKeepsInv | apps/router/src/pool.ts:68-77 | a timed-out waiter leaves the line and its promise is rejected, nothing else moves |
| PoolModel.DrainKeepsInv | apps/router/src/pool.ts:151-160 | draining keeps the books: connects in flight stay counted, every waiter is rejected |
| PoolModel.FramingErrorKeepsInv | apps/router/src/backend.ts:110-117 | a garbling backend is closed without breaking ownership, though it may stay in idle |
| PoolerSafety.StepKeepsInv | apps/router/src/transaction.ts:342-455 | every kind of event-loop turn keeps the whole-system invariant |
| PoolerSafety.EveryRunIsExclusive | apps/router/src/transaction.ts:321-455 | on every run from an empty pool: each live connection is in exactly one of idle, one session's hands, one promise; a connection's handler is session s's exactly when s holds it; live plus connecting never exceeds the size |
| PoolerOrder.PumpKeepsOrder | apps/router/src/transaction.ts:355-385 | accepting client bytes neither loses, repeats nor reorders a message, whichever branch takes it |
| PoolerOrder.EveryRunKeepsOrder | apps/router/src/transaction.ts:355-439 | on every run: messages sent, messages dropped by failed acquires and the queue are the framing of exactly the bytes the client sent, in order |
| PoolerReplies.ReplyReachesTheClient | apps/router/src/transaction.ts:423-425 | whatever a backend says on a connection a session holds is appended to what that session's client was written, attributed to the oldest unanswered request, and no other client is written anything |
| PoolerReplies.TurnWrites | apps/router/src/transaction.ts:401-425 | each turn adds to each client's output exactly a reply of a connection its session holds or a refusal of its own acquire |
| PoolerReplies.EveryReplyIsRelayed | apps/router/src/transaction.ts:321-439 | on every run, refusals aside: a client gets exactly what the backends said while its session held them, in order |
| PoolerReplies.SessionTurnDelivers | apps/router/src/transaction.ts:350-420 | in a session's turn every open connection is sent exactly the messages that session counts as forwarded to it, in order |
| PoolerReplies.AnswerSettles | apps/router/src/transaction.ts:423-439 | a reply changes what any connection still owes only by the sync point it answers; the session's reaction sends nothing |
| PoolerService.KeptUntilIdle | apps/router/src/transaction.ts:427-436 | a session lets its connection go on exactly one message: type Z with status I |
| PoolerService.GivenBack | apps/router/src/pool.ts:83-114 | then the head of the line has it, or it is the newest idle one, stamped with that instant |
| PoolerService.GoneIsDiscarded | apps/router/src/transaction.ts:441-455 | a vanished client closes its session, and the connection it held is closed and forgotten |
| PoolerService.LastGivenBackFirst | apps/router/src/pool.ts:55-114 | with nobody waiting, the connection given back last is the next one handed out |
| PoolerService.FirstComeFirstServed | apps/router/src/pool.ts:79-110 | in every turn from a sound state only the head of the line is handed a connection |
| PoolerService.NobodyOvertakes | apps/router/src/pool.ts:66-110 | two requesters still waiting after a turn are in the order they were in before it |
| PoolerService.SweepClosesTheStale | apps/router/src/pool.ts:139-149 | a sweep closes exactly the idle connections last used before the cutoff |
| PoolerService.DrainClosesAll | apps/router/src/pool.ts:151-160 | after a drain every connection is closed, held ones too, and nothing is listed |
| PoolerService.LostBackend | apps/router/src/pool.ts:180-186 | a backend that hangs up is closed and forgotten, one that garbles is closed and stays listed; no other connection is touched |
| PoolerService.EveryRunFramesAll | apps/router/src/transaction.ts:355-385 | on every run an open session has left no complete message of its client unhandled |
| PoolerService.TerminateEnds | apps/router/src/transaction.ts:369-372 | the five bytes of Terminate close the session, and nothing behind them is read |
| PoolerClean.NothingLeftIff | apps/router/src/transaction.ts:433-436 | the answer to a sync point leaves nothing outstanding exactly when only COPY traffic was written after it |
| PoolerClean.CopyIsOneRequest | apps/router/src/transaction.ts:374-377 | a COPY is answered as one request however much the client streams into it |
| PoolerClean.StepKeepsClean | apps/router/src/transaction.ts:387-455 | while nothing but COPY traffic follows an unanswered sync point, every turn keeps idle and in-transit connections clean and replies with their askers |
| PoolerClean.HandOverIsClean | apps/router/src/transaction.ts:387-455 | on every paced run, COPY included: a connection changes hands only with status I and nothing unanswered, and every reply written answers a request of that same session |
| PoolerClean.ReleaseIsCleanIff | apps/router/src/transaction.ts:433-436 | the connection a ReadyForQuery releases is clean exactly when nothing but COPY traffic followed the request it answers |
| PoolerLimits.WaitsBesideIdleIff | apps/router/src/pool.ts:55-80 | a turn leaves a client waiting beside an idle connection exactly when somebody asks while the pool is full and the newest of several idle connections is dead |
| PoolerLimits.ClientWaitsBesideIdle | apps/router/src/pool.ts:55-80 | a run of a pool of two that leaves a client waiting although a live connection is idle |
| PoolerLimits.NoneWastedIff | apps/router/src/backend.ts:110-117 | from a state with only live connections in idle and nobody waiting beside one, a turn breaks that exactly when a backend garbles a message on an idle connection, which then stays there dead |
| PoolerLimits.RunWastesNone | apps/router/src/pool.ts:55-198 | so on runs without such errors no dead connection is ever idle and nobody ever waits beside an idle one |
| PoolerLimits.AcquireLosesIff | apps/router/src/pool.ts:55-64 | acquire drops the connection it pops, still counted, exactly when that one is dead |
| PoolerLimits.LostSlotShrinksThePool | apps/router/src/pool.ts:55-64 | from then on, until a drain, live plus connecting stay below the configured size on every run |
| PoolerLimits.EveryPromiseSettlesOnce | apps/router/src/pool.ts:66-80 | in every reachable turn a promise settles from pending to a connection or a refusal, and a settled one never changes |
| PoolerLimits.ConnectionsStayBounded | apps/router/src/pool.ts:62-80 | on every run live connections plus connects in flight never exceed the configured size |
| PoolerLimits.PipeliningLeaks | apps/router/src/transaction.ts:374-377 | a concrete run in which a client that pipelines two queries has its second reply written to another client |
| TransactionPool.ProjectPool.Acquire | apps/router/src/pool.ts:55-81 | in place, the whole state after acquiring is the specified one: newest idle, a connect, or a place in line |
| TransactionPool.ProjectPool.Release | apps/router/src/pool.ts:83-114 | in place, the whole state after a release is the specified one, dead connections included |
| TransactionPool.ProjectPool.Discard | apps/router/src/pool.ts:117-121 | in place, the handler is gone, the connection closed and forgotten |
| TransactionPool.ProjectPool.OpenSucceeded | apps/router/src/pool.ts:174-192 | the new connection joins `all` and the requester's promise holds it |
| TransactionPool.ProjectPool.OpenThrew | apps/router/src/pool.ts:174-192 | the slot is returned and the promise rejected |
| TransactionPool.ProjectPool.TimerFired | apps/router/src/pool.ts:68-77 | only that waiter leaves the line, rejected |
| TransactionPool.ProjectPool.OnSocketClosed | apps/router/src/pool.ts:181-186 | the connection leaves `idle` and `all`, others stay |
| TransactionPool.ProjectPool.OnFramingError | apps/router/src/backend.ts:110-117 | the connection is closed but stays listed |
| TransactionPool.ProjectPool.SweepIdle | apps/router/src/pool.ts:139-149 | the backward loop retires exactly the stale or closed idle connections |
| TransactionPool.ProjectPool.Drain | apps/router/src/pool.ts:151-160 | the loops close and forget every connection and reject every waiter |
| TransactionPool.PooledSession.Pump | apps/router/src/transaction.ts:355-385 | the loop takes every complete message and ends in the specified state, with the reader's leftover |
| TransactionPool.PooledSession.OnClientData | apps/router/src/transaction.ts:350-353 | a chunk takes session and pool to the specified state |
| TransactionPool.PooledSession.Granted | apps/router/src/transaction.ts:389-400 | a granted connection is installed and the queue flushed in order, or given back if the client has gone |
| TransactionPool.PooledSession.Denied | apps/router/src/transaction.ts:401-420 | a refusal empties the queue and tells a client that is still there |
| TransactionPool.PooledSession.OnServerMessage | apps/router/src/transaction.ts:423-439 | in place, the turn of the specified step; what that step writes and gives back is `PoolerReplies.ReplyReachesTheClient` and `PoolerService.KeptUntilIdle` |
| TransactionPool.PooledSession.Teardown | apps/router/src/transaction.ts:441-455 | a held connection is discarded, and a second teardown does nothing |
| JobQueueModel.NoZombies | apps/control-plane/src/jobs/queue.ts:76-336 | in every reachable table: running exactly when owner and lease are set, attempts within bounds, a queued job has attempts left, and every due or expired live job is either claimable or sweepable, not both |
| JobQueueModel.TerminalIsForever | apps/control-plane/src/jobs/queue.ts:105-336 | a succeeded, failed or cancelled row is never changed by any later run |
| JobQueueModel.LeaseExcludesOthers | apps/control-plane/src/jobs/queue.ts:105-167 | while a lease is current and not given up, no other owner can take the job |
| JobQueueModel.StaleOwnerIsFenced | apps/control-plane/src/jobs/queue.ts:148-273 | once another owner has the job, every later statement of the old owner leaves the table unchanged |
| JobQueueModel.AttemptsAddUp | apps/control-plane/src/jobs/queue.ts:105-258 | over any run, attempts move by claims minus effective releases |
| JobQueueModel.AttemptsAreAccounted | apps/control-plane/src/jobs/queue.ts:105-258 | attempts equal claims minus effective releases, so a job never released starts at most maxAttempts times |
| JobQueueModel.BackoffIsBounded | apps/control-plane/src/jobs/queue.ts:11-14 | the delay is non-negative, below a ceiling that grows with the attempts and never exceeds five minutes |
| JobQueueModel.NextExistsIff | apps/control-plane/src/jobs/queue.ts:105-146 | there is a job to claim exactly when some row is a candidate |
| JobRunner.JobQueue.Enqueue | apps/control-plane/src/jobs/queue.ts:76-103 | adds exactly one queued row with the request's defaults filled in |
| JobRunner.JobQueue.Claim | apps/control-plane/src/jobs/queue.ts:105-146 | takes a runnable row such that every other has a lower priority, or the same and is due no earlier; none exactly when no row is runnable |
| JobRunner.JobQueue.Beat | apps/control-plane/src/jobs/queue.ts:148-160 | renews only the owner's running lease and reports ownership and the cancel request |
| JobRunner.JobQueue.MarkFailed | apps/control-plane/src/jobs/queue.ts:188-220 | requeues with backoff while attempts are left and fails otherwise, for the owner only |
| JobRunner.JobQueue.RequestCancel | apps/control-plane/src/jobs/queue.ts:281-313 | cancels a queued job at once, marks a running one, leaves a finished one |
| JobRunner.JobQueue.Sweep | apps/control-plane/src/jobs/queue.ts:315-336 | fails exactly the expired running jobs with no attempts left and counts them |
| JobRunner.JobWorker.ClaimWhileRoom | apps/control-plane/src/jobs/worker.ts:106-120 | the claim loop starts jobs in queue order until it is full or nothing is claimable |
| JobRunner.JobWorker.Tick | apps/control-plane/src/jobs/worker.ts:106-126 | a stopping worker does nothing; otherwise sweep, then claim |
| JobRunner.JobWorker.OnHeartbeat | apps/control-plane/src/jobs/worker.ts:133-144 | aborts the local run exactly on a lost lease or a cancel request |
| JobRunner.JobWorker.HandleFailure | apps/control-plane/src/jobs/worker.ts:183-216 | the table after a failure is the one its error class calls for |
| JobRunner.JobWorker.Stop | apps/control-plane/src/jobs/worker.ts:71-94 | every controller in flight is aborted and no later tick claims |
| JobRunner.FailureOutcomes | apps/control-plane/src/jobs/worker.ts:183-216 | cancel, release, permanent failure and retry: which rows each error class can produce, and when |
| JobWorkerModel.WorkersIssueStatements | apps/control-plane/src/jobs/worker.ts:106-220 | whatever workers, users and crashes do, the table evolves as some run of queue statements |
| JobWorkerModel.CancelledOnlyIfAsked | apps/control-plane/src/jobs/worker.ts:183-201 | on every interleaving a cancelled job has its cancel request set |
| JobWorkerModel.ShutdownNeverCancels | apps/control-plane/src/jobs/worker.ts:183-201 | a handler that stops on a shutdown abort is never concluded as cancelled |
| JobWorkerModel.HandBackIsClaimable | apps/control-plane/src/jobs/worker.ts:196-199 | a job handed back by its owner is claimable that very moment with its attempt refunded |
| JobWorkerModel.PermanentErrorIsFinal | apps/control-plane/src/jobs/worker.ts:203-208 | a permanent error fails the job at once and no later run changes the row |
| JobLaws.NextInFields | apps/control-plane/src/jobs/queue.ts:109-124 | a row is next exactly when it is runnable and every other runnable row has a lower priority, or the same and is due no earlier |
| JobLaws.RunKeepsJob | apps/control-plane/src/jobs/queue.ts:76-336 | no run changes a job's type, payload, priority or attempt limit |
| JobLaws.RetryInFields | apps/control-plane/src/jobs/queue.ts:188-220 | with attempts left an error requeues the job, due within the ceiling of two seconds doubled per attempt and five minutes, error and progress kept |
| JobLaws.NotBeforeDue | apps/control-plane/src/jobs/queue.ts:105-146 | on any run before its due time a queued job, a retry among them, is left exactly as it is unless cancelled |
| JobLaws.LeaseLasts | apps/control-plane/src/jobs/queue.ts:105-160 | for the lease time after a claim or a heartbeat, whatever everybody else does, an owner that does not give up still owns the running job |
| JobLaws.DeadOwnerLosesTheJob | apps/control-plane/src/jobs/queue.ts:105-336 | after a run in which the owner stays silent, the job is claimable the moment the lease time is over and not before, or, with no attempt left, the sweep fails it |
| JobLaws.CheckpointSurvives | apps/control-plane/src/jobs/queue.ts:162-168 | whatever failures, hand-backs, takeovers and sweeps follow, the next attempt finds the last checkpoint |
| JobLaws.SweepInFields | apps/control-plane/src/jobs/queue.ts:315-336 | the sweep changes exactly the running rows whose lease ran out on the last attempt |
| JobLaws.HandlerOutcome | apps/control-plane/src/jobs/worker.ts:152-181 | a handler that returns ends its job well; one that throws has it retried, or failed on its last attempt; either way it leaves the in-flight table |
| JobLaws.BeatAbortsIff | apps/control-plane/src/jobs/worker.ts:133-144 | a heartbeat aborts the handler exactly when the job is no longer this worker's or a cancel was asked |
| JobLaws.CancelGoesThrough | apps/control-plane/src/jobs/worker.ts:133-201 | a cancel of a running job, the next heartbeat, the handler's stop and its conclusion end in a cancelled job |
| JobLaws.RoomTakesTheNext | apps/control-plane/src/jobs/worker.ts:115-120 | a worker with room owns the next job for one lease time and starts one handler for it; a full one does nothing |
| ProjectDelete.StepKeepsInv | apps/control-plane/src/jobs/handlers/project-delete.ts:43-102 | any step of any attempt, a crash and a failed call included, keeps: saved and passed steps are done, nothing foreign is touched |
| ProjectDelete.RetiredMeansEmptied | apps/control-plane/src/jobs/handlers/project-delete.ts:43-102 | across crashes, resumes and overlapping attempts, a retired row means Docker lost this project's objects and nothing else |
| ProjectDelete.DataGoesAfterContainer | apps/control-plane/src/jobs/handlers/project-delete.ts:60-87 | volumes go only when the container is gone, the network only when both volumes are |
| ProjectDelete.EmptiedLeavesNothingIff | apps/control-plane/src/jobs/handlers/project-delete.ts:75-87 | what a completed teardown leaves holds nothing of the project exactly when the row knew its container and its data volume bore its ref's name |
| ProjectDelete.LagsIff | apps/control-plane/src/jobs/queue.ts:162-168 | a turn lets the owner fall behind what is saved exactly when an instance with a laggard takes the job, or a checkpoint of the owner overtakes a laggard of its own |
| ProjectDelete.SavedStepsAreNotRepeated | apps/control-plane/src/jobs/handlers/project-delete.ts:54-88 | on a run without such a turn, what is saved only grows and an attempt claimed once step k is saved is never about to do any of the steps 1 to k |
| ProjectDelete.OneAtATimeKeepsPace | apps/control-plane/src/jobs/handlers/project-delete.ts:54-88 | in particular on every run in which each instance runs one attempt at a time |
| ProjectDelete.CanRepeatIff | apps/control-plane/src/jobs/queue.ts:162-168 | from any reachable state some continuation repeats a saved step exactly when some live attempt's next save is below what is saved and the calls in front of it go through |
| ProjectDelete.StaleSaveRepeats | apps/control-plane/src/jobs/queue.ts:162-168 | a run without that condition: a stalled attempt of the same instance passes the fence with an old checkpoint and a saved step is done again |
| ProjectDelete.AloneRetiresIff | apps/control-plane/src/jobs/handlers/project-delete.ts:60-99 | from any phase, an undisturbed attempt retires the row exactly when its path is clear: a container to stop, volumes and network nobody else uses |
| ProjectDelete.NextAttemptFinishesIff | apps/control-plane/src/jobs/handlers/project-delete.ts:43-102 | after any interruptions, one attempt left alone retires the row exactly when what is not saved as done can be done, and then leaves Docker as an uninterrupted one would |
| ProjectDelete.CanStillRetireIff | apps/control-plane/src/docker/dockerode-driver.ts:153-168 | from any reachable state some continuation retires the row exactly when a fresh attempt could do it alone or one already running could |
| ProjectDelete.CanRetireIff | apps/control-plane/src/docker/dockerode-driver.ts:153-168 | some run retires the row exactly when the container it names is there to be stopped and nobody else uses its volumes and network at the start |
| ProjectDelete.FencedSaveStrands | apps/control-plane/src/docker/dockerode-driver.ts:153-160 | for every project with a clear start, one fixed run in which the fence refuses a checkpoint leaves the container gone with nothing saved, and no continuation at all retires the row |
| ProjectDelete.RestContainerBlocks | apps/control-plane/src/jobs/handlers/rest-enable.ts:124-167 | a PostgREST container on the network keeps the row from being retired on every run |
| ProjectDelete.PromiseNeedsAnHonestStore | apps/control-plane/src/storage/datastore.ts:106-108 | no run retires a row over its data volume exactly when the store reports failed removals, or no run retires it at all |
| ProjectDelete.SwallowedRun | apps/control-plane/src/storage/datastore.ts:279-284 | a run of the copy-on-write store that retires the row while the volume is still there |
| ProjectDelete.DeleteHandler.CarryOn | apps/control-plane/src/jobs/handlers/project-delete.ts:60-99 | the guarded blocks, entered at any step, end as the step machine does undisturbed, throwing where the driver throws |
| ProjectDelete.DeleteHandler.Execute | apps/control-plane/src/jobs/handlers/project-delete.ts:43-102 | an uninterrupted run deletes exactly when nothing is in its way and throws otherwise; a missing or retired project is left alone |
| DeleteLaws.CallsInOrder | apps/control-plane/src/jobs/handlers/project-delete.ts:56-98 | an undisturbed attempt resumed at any step makes exactly the remaining calls in order, each saved before the next is begun |
| DeleteLaws.SavedInFields | apps/control-plane/src/jobs/queue.ts:162-168 | the saved step moves only when an attempt of the job's present owner checkpoints |
| DeleteLaws.RowIsKeptOrRetired | apps/control-plane/src/jobs/handlers/project-delete.ts:89-98 | on every run the row is as it was, or retired: no container, no port, same ref and names |
| DeleteLaws.VolumeInFields | apps/control-plane/src/jobs/handlers/project-delete.ts:73-82 | a volume goes unless a container mounts it, and then the attempt is over, but for the copy-on-write store, which carries on |
| SqlText.SplitStatements | apps/control-plane/src/data/sql-text.ts:17-61 | the scan returns the non-blank trimmed pieces with their offsets, in order; which characters a piece ends at is `SqlLaws.ScriptIsUnderstood` |
| SqlText.StripNoise | apps/control-plane/src/data/sql-text.ts:119-152 | the scan blanks every literal and comment and keeps every other character; which those are is `SqlLaws.NoiseIff` |
| SqlText.SkipQuoted | apps/control-plane/src/data/sql-text.ts:63-80 | stops behind the closing quote, a doubled quote being none |
| SqlText.SkipBlockComment | apps/control-plane/src/data/sql-text.ts:98-116 | stops behind the matching close of nested comments, or at the end |
| SqlText.SplitIsLossless | apps/control-plane/src/data/sql-text.ts:17-61 | the pieces joined with semicolons are the script |
| SqlText.SplitIsStable | apps/control-plane/src/data/sql-text.ts:17-61 | every statement text splits again into itself as the only statement, for every script |
| SqlText.StatementIsWhereItSays | apps/control-plane/src/data/sql-text.ts:11-24 | a statement's text is found at its reported offset behind white space only |
| SqlText.CutToken | apps/control-plane/src/data/sql-text.ts:63-116 | cutting a text before white space or a semicolon cuts the token in front of it and changes nothing else |
| SqlText.ScannersAgree | apps/control-plane/src/data/sql-text.ts:17-152 | pieces outnumber the semicolons that survive blanking by one: the scanners agree on what is top level |
| SqlText.StripPieceByPiece | apps/control-plane/src/data/sql-text.ts:17-152 | blanking a script is blanking its pieces one by one |
| SqlText.StripIsIdempotent | apps/control-plane/src/data/sql-text.ts:119-152 | once blanked, nothing is left to blank |
| SqlText.ScanLineComment | apps/control-plane/src/data/sql-text.ts:45-49 | stepping over the newline that ends a comment, as only the splitter does, moves no boundary |
| SqlText.CommentIsOneToken | apps/control-plane/src/data/sql-text.ts:97-116 | comments nest: for every way of nesting them, a comment is one token up to the close that matches its opening |
| SqlText.DollarBodyIsOneToken | apps/control-plane/src/data/sql-text.ts:82-95 | a dollar-quoted body is one token up to the first repetition of its tag, whatever quotes, comments or semicolons it holds |
| SqlText.PrintedIsOneToken | apps/control-plane/src/data/identifiers.ts:22-36 | for either quote character: what is printed is read back as one token carrying its value, exactly when the same quote does not follow |
| SqlText.PrintedIsInert | apps/control-plane/src/data/identifiers.ts:22-36 | for either quote character: no value can carry a semicolon or keyword out of its quotes |
| SqlText.PrintingIsInjective | apps/control-plane/src/data/identifiers.ts:22-27 | two identifiers print alike only if they are equal |
| SqlLaws.NoiseIff | apps/control-plane/src/data/sql-text.ts:31-54 | a literal or comment begins exactly at a quote of either kind, two dashes, slash and star, or a dollar tag of at most 130 characters |
| SqlLaws.NestedCommentIsOneToken | apps/control-plane/src/data/sql-text.ts:97-116 | a comment inside a comment has to be closed first, in literal characters |
| SqlLaws.ScriptIsUnderstood | apps/control-plane/src/data/sql-text.ts:17-152 | for every script spelled from names, literals, nested comments, line comments, dollar-quoted bodies, semicolons and other characters: it is split at its semicolons and nowhere else, and blanking shows one space for each of the others |
| SqlLaws.UnclosedQuote | apps/control-plane/src/data/sql-text.ts:63-80 | a quote never closed swallows the rest of the script |
| SqlLaws.UnclosedComment | apps/control-plane/src/data/sql-text.ts:98-116 | so does a block comment |
| SqlLaws.UnclosedDollar | apps/control-plane/src/data/sql-text.ts:92-95 | and a dollar-quoted body whose tag does not come again |
| SqlLaws.StatementsAreThePieces | apps/control-plane/src/data/sql-text.ts:17-61 | the statements are exactly the pieces that are not blank, trimmed, each at its offset, in ascending order |
| SqlLaws.NameIsInert | apps/control-plane/src/data/identifiers.ts:22-27 | a name of 1 to 128 characters without NUL, and no other, prints; in front of any text it moves no boundary and is blanked to one space |
| SqlLaws.LiteralIsInert | apps/control-plane/src/data/identifiers.ts:34-36 | a printed literal in front of any text moves no boundary and is blanked to one space |
| SqlModel.SortSorts | apps/control-plane/src/data/browse.ts:198-200 | the modelled ORDER BY gives a sorted permutation of the rows |
| Browse.BuildFilters | apps/control-plane/src/data/browse.ts:129-165 | the loop pushes clauses and parameters as specified and stops at the first bad filter |
| Browse.BuildOrder | apps/control-plane/src/data/browse.ts:172-177 | sort column first, then the key columns it does not name |
| Browse.PushCursor | apps/control-plane/src/data/browse.ts:212-219 | one row comparison whose parameters follow the filters' |
| Browse.ReadPage | apps/control-plane/src/data/browse.ts:115-273 | the whole request, error paths included, gives the specified page; its order, size and acceptance are `BrowseLaws.ListedAsAsked`, `BrowseLaws.PageSizeIs` and `BrowseLaws.AcceptedIff` |
| BrowsePaging.ClauseMeansFilter | apps/control-plane/src/data/browse.ts:129-165 | each operator's clause is true of a row exactly when the row satisfies the filter, NULLs included |
| BrowsePaging.WhereMeansFilters | apps/control-plane/src/data/browse.ts:123-169 | the WHERE clause keeps exactly the rows that satisfy every filter |
| BrowsePaging.CursorClauseMeansAfter | apps/control-plane/src/data/browse.ts:212-219 | the row comparison is true of exactly the rows after the cursor's in the listing's own direction |
| BrowsePaging.SortCommutes | apps/control-plane/src/data/browse.ts:198-229 | sorting only the rows after a row gives the part of the whole listing after it |
| BrowseListing.KeyBreaksTies | apps/control-plane/src/data/browse.ts:172-177 | the order columns tell apart any two rows that differ in the primary key |
| BrowseListing.PageAt | apps/control-plane/src/data/browse.ts:203-255 | the page behind the first k rows is the next `limit` of them, with a cursor behind it exactly when rows are left |
| BrowseListing.PagingListsEverything | apps/control-plane/src/data/browse.ts:98-255 | following the cursors lists exactly what one big sorted query would, each row once; the order asked for is `BrowseLaws.ListedAsAsked` |
| BrowseListing.PageCountIs | apps/control-plane/src/data/browse.ts:221-255 | the number of pages is the rounded-up quotient, and one for an empty listing |
| BrowseListing.CountIsOfTheFilters | apps/control-plane/src/data/browse.ts:283-305 | the exact count is of the rows satisfying the filters, whatever cursor the page query carries |
| BrowseLaws.ListedAsAsked | apps/control-plane/src/data/browse.ts:171-200 | any two rows on the pages of an accepted request stand in the order of the column asked for, in the direction asked for, and where they tie or nothing was asked by the primary key columns in turn |
| BrowseLaws.AcceptedIff | apps/control-plane/src/data/browse.ts:123-177 | a first page is given exactly when every filter names a column and has the values its operator needs, and the sort and key columns exist |
| BrowseLaws.OffsetIff | apps/control-plane/src/data/browse.ts:179-190 | OFFSET is used exactly without a primary key, or when the sort column or a key column may be NULL |
| BrowseLaws.PageSizeIs | apps/control-plane/src/data/browse.ts:224-241 | a page holds at most max(1, limit) rows, and exactly so many when another follows |
| BrowseLaws.OffsetPageIs | apps/control-plane/src/data/browse.ts:203-243 | in offset mode any readable cursor is accepted, a missing, negative or non-numeric position counting as 0, and the page is that part of the listing with the next position behind it |
| BrowseLaws.SatisfyingIs | apps/control-plane/src/data/browse.ts:123-169 | the rows listed are the table's rows that satisfy every filter, as often as the table has them |
| BrowseLaws.StaleCursorRefusedIff | apps/control-plane/src/data/browse.ts:204-211 | a cursor with comma-free column names is refused exactly when they are not the listing's own, and else accepted whatever its direction |
| BrowseLaws.CommaPasses | apps/control-plane/src/data/browse.ts:209-211 | with a comma in a column name the names of two different orders join alike |
| Strings.ItemsOfBoth | apps/control-plane/src/data/browse.ts:144-146 | a list cut at a comma is the items of its two sides, in order |
| Strings.ItemsOfOne | apps/control-plane/src/data/browse.ts:144-146 | an item counts without the white space around it, and not at all if nothing else is there |
| Mutate.PushKey | apps/control-plane/src/data/mutate.ts:46-69 | the loop compiles the key predicate, refusing missing and null key columns |
| Mutate.PushAssignments | apps/control-plane/src/data/mutate.ts:118-124 | the loop numbers a parameter for each non-null change |
| Mutate.PrepareUpdate | apps/control-plane/src/data/mutate.ts:108-135 | key parameters follow the assignments' in one numbering |
| Mutate.KeyAcceptedIff | apps/control-plane/src/data/mutate.ts:46-69 | a key is accepted exactly when it gives every primary key column a value |
| Mutate.PredicateMeansKey | apps/control-plane/src/data/mutate.ts:46-69 | the predicate is true of exactly the rows with that full key, whatever parameters came before |
| Mutate.ChangedCells | apps/control-plane/src/data/mutate.ts:118-124 | each named column takes its change as its type reads it, every other cell stays |
| Mutate.UpdateMeans | apps/control-plane/src/data/mutate.ts:108-135 | a built UPDATE sets what the changes say where the key says |
| Mutate.UpdateTouchesOneRow | apps/control-plane/src/data/mutate.ts:108-146 | with a unique key exactly the addressed row changes and is returned, or nothing changes and the caller is told |
| Mutate.DeleteTouchesOneRow | apps/control-plane/src/data/mutate.ts:148-168 | with a unique key exactly the addressed row goes, or nothing changes and the caller is told |
| MutateLaws.UpdateAcceptedIff | apps/control-plane/src/data/mutate.ts:22-69 | an update is built exactly for an editable relation, at least one change, known columns and a full key |
| MutateLaws.RefusedChangesNothing | apps/control-plane/src/data/mutate.ts:22-69 | a refused update or delete leaves the table as it was and does not speak of matched rows |
| MutateLaws.KeyProblem | apps/control-plane/src/data/mutate.ts:46-66 | a partial key is refused with exactly the columns it lacks, a full one by its first NULL or unknown column |
| MutateLaws.ManyAreChanged | apps/control-plane/src/data/mutate.ts:129-146 | unique key or not: the caller learns how many rows had the key, and every one of them, and no other, has been changed |
| MutateLaws.DeleteRemovesTheKey | apps/control-plane/src/data/mutate.ts:148-168 | unique key or not: every row with the key is gone, no other is, and the caller is told if there was none |
| Scram.XorInto | apps/router/src/scram.ts:51-55 | the loop computes the bytewise exclusive or |
| Scram.XorBytesUndone | apps/router/src/scram.ts:51-55 | applying the same mask twice gives the bytes back |
| Scram.ReadAttributes | apps/router/src/scram.ts:68-75 | the loop reads the comma-separated attribute list, later duplicates winning |
| Scram.NthCommaIndex | apps/router/src/scram.ts:220-227 | finds the n-th comma or reports that there are fewer |
| Scram.ReadThree | apps/router/src/scram.ts:68-75 | a printed list of distinct one-letter attributes with comma-free values is read back exactly |
| Scram.ServerAnswersFirst | apps/router/src/scram.ts:94-113 | the server takes the client's nonce out of its first message and challenges with it extended |
| Scram.ClientAnswers | apps/router/src/scram.ts:168-197 | the client recovers nonce, salt and count from the challenge and answers for its own password |
| Scram.ProofIsLast | apps/router/src/scram.ts:119-121 | cutting at the last `,p=` recovers the part the proof signs |
| Scram.AcceptedIffProves | apps/router/src/scram.ts:119-147 | a final message with any proof is accepted exactly when the hash of proof xor signature is the stored key |
| Scram.SamePasswordAgrees | apps/router/src/scram.ts:81-218 | with one password, any salt and comma-free nonces: accepted, one auth message on both sides, and the server signature verifies |
| Scram.OtherPasswordIff | apps/router/src/scram.ts:81-218 | with any two passwords: accepted exactly when the client's proof opens the server's stored key |
| Scram.SignatureVerifies | apps/router/src/scram.ts:206-217 | the client accepts a signature exactly when it is the one it expects |
| Scram.ScramServer.FirstMessage | apps/router/src/scram.ts:94-113 | the new server state is the specified one; a refusal leaves nonce and challenge as they were |
| Scram.ScramServer.FinalMessage | apps/router/src/scram.ts:119-147 | verdict and signature are the specified ones and the state is not touched |
| Scram.ScramClient.FinalMessage | apps/router/src/scram.ts:168-197 | message, remembered auth message and expected signature are the specified ones |
| Scram.ScramClient.VerifyServerSignature | apps/router/src/scram.ts:206-217 | accepts, or says which way the server's message fails |
| ScramLaws.XorBytesIs | apps/router/src/scram.ts:51-55 | each bit of the result is the exclusive or of the two bits |
| ScramLaws.AttributesOfBoth | apps/router/src/scram.ts:68-75 | a list cut at a comma has the attributes of its two sides, the later of two with one name counting |
| ScramLaws.FirstMessageIs | apps/router/src/scram.ts:94-113 | a first message of any header and bare part: channel binding refused, then a missing nonce, else the challenge text with the extended nonce, the salt and 4096 rounds |
| ScramLaws.ServerAcceptsIff | apps/router/src/scram.ts:119-147 | a proof is accepted exactly when it has 32 bytes and its xor with HMAC(H(HMAC(salted, "Client Key")), AuthMessage) hashes to the stored key; the answer is the signature under "Server Key" |
| ScramLaws.FinalRefusedIff | apps/router/src/scram.ts:121-129 | a final message with another nonce, or with none or an empty proof, is refused, and for those reasons only then |
| ScramLaws.ClientProves | apps/router/src/scram.ts:168-197 | the client's answer and the signature it will expect, written out over the challenge's own text |
| ScramLaws.ChallengeRefusedIff | apps/router/src/scram.ts:168-180 | a challenge is refused exactly when its nonce does not extend the client's, or salt or rounds are missing |
| ScramLaws.VerifiedIff | apps/router/src/scram.ts:206-217 | the client is satisfied exactly by the signature it computed itself, and by nothing before it did |
| Bits.AndMask | apps/control-plane/src/auth/trusted-proxy.ts:121-123 | masking off the low s bits rounds down to a multiple of 2^s |
| BitLaws.SignedWord | apps/control-plane/src/auth/trusted-proxy.ts:126-138 | the signed and the unsigned word are the representatives modulo 2^32 in their ranges |
| BitLaws.OrIsBitwise | apps/control-plane/src/auth/trusted-proxy.ts:135 | each bit of the result is set exactly when a bit of either is |
| BitLaws.AndIsBitwise | apps/control-plane/src/auth/trusted-proxy.ts:68 | each bit of the result is set exactly when the bits of both are |
| TrustedProxy.Ipv4ToInt | apps/control-plane/src/auth/trusted-proxy.ts:126-138 | the signed shift-and-or loop spells the four octets as one unsigned number, or refuses |
| TrustedProxy.MaskIs | apps/control-plane/src/auth/trusted-proxy.ts:120-122 | the mask is 2^32 - 2^(32 - b) although the shift is signed, and 0 for b = 0 |
| TrustedProxy.CidrMatchesPrefix | apps/control-plane/src/auth/trusted-proxy.ts:60-68 | the signed 32-bit test holds exactly when the addresses agree on division by 2^(32 - b), for b in 0..32 |
| TrustedProxy.ParseTrustedProxies | apps/control-plane/src/auth/trusted-proxy.ts:36-59 | the loop collects ranges and literals in order and refuses the first entry that is neither |
| TrustedProxy.RangesMeanPrefixes | apps/control-plane/src/auth/trusted-proxy.ts:36-70 | an IPv4 address is trusted exactly when it is listed literally or shares a configured entry's leading bits |
| TrustedProxy.ResolveClientIp | apps/control-plane/src/auth/trusted-proxy.ts:83-111 | the right-to-left loop computes the specified answer, fallbacks included; what that is, `TrustedProxy.ResolvedIs` says |
| TrustedProxy.ResolvedIs | apps/control-plane/src/auth/trusted-proxy.ts:91-110 | with no list, no peer address or a peer that is not trusted, the socket address whatever the headers say; else the rightmost entry with only trusted ones to its right, the first if all are trusted, and with no entry the other header or the socket address |
| TrustedProxy.PrependingChangesNothing | apps/control-plane/src/auth/trusted-proxy.ts:76-106 | entries prepended to the header leave the answer alone when the chain holds an untrusted hop; otherwise the last untrusted of them is the answer, or the first of them if all are trusted |
| TrustedProxy.PrependingNeverMattersIff | apps/control-plane/src/auth/trusted-proxy.ts:76-106 | the answer is the same for every prepended text exactly when the chain holds an untrusted hop |
| TrustedProxyLaws.QuadReadsBack | apps/control-plane/src/auth/trusted-proxy.ts:126-138 | a printed dotted quad is read as the number its octets spell |
| TrustedProxyLaws.OnlyQuadsAreRead | apps/control-plane/src/auth/trusted-proxy.ts:126-138 | nothing but four parts of one to three digits up to 255 is an address |
| TrustedProxyLaws.ListAcceptedIff | apps/control-plane/src/auth/trusted-proxy.ts:36-59 | a list is refused exactly when an entry is neither a range nor has a colon, naming such an entry, and is empty exactly when it has no entry |
| TrustedProxyLaws.TrustedIff | apps/control-plane/src/auth/trusted-proxy.ts:36-70 | an address is trusted exactly when some entry covers its leading bits, or is no range and spells the same text |
| TrustedProxyLaws.UnlistedPeerIsItself | apps/control-plane/src/auth/trusted-proxy.ts:83-93 | for any configured list, a peer that no entry admits is taken at its socket address, whatever its headers say |
| TrustedProxyLaws.BracketsAreDropped | apps/control-plane/src/auth/trusted-proxy.ts:146-148 | brackets and capitals make no difference to an IPv6 address |
| TrustedProxyLaws.MappedIsTheSame | apps/control-plane/src/auth/trusted-proxy.ts:140-144 | an IPv4 address mapped into IPv6 is trusted exactly when the address itself is |

## Left out

- Sockets, TLS upgrade and `unshift`, timers as real time, SQLite, Docker, pgBackRest, HTTP routes, pages, logging: time is a parameter of each step, and the outside world is the choice of the next step.
- Backends: an abstract peer that speaks only when asked and answers a sync point (Query, Sync, FunctionCall) with its own ReadyForQuery; unsolicited notices and notifications are not modelled.
- Reset query: fixed empty, its default; a non-empty one (`apps/router/src/pool.ts:97-104`) puts its own reply on the wire.
- Chunks from a backend: each framed message is a step of its own, so turns that handle several messages are sequences of steps.
- Object references in the pool: connections, sessions and promises go by number, and a table maps numbers to objects.
- A ReadyForQuery with an empty payload: `readUInt8` throws in the source; the model keeps holding the connection.
- Pool counters `opened` and `closed`, `updateRoute`, and `PoolManager`: capacity freed by `discard` and `onClose` does not wake a waiter.
- PoolerClean.HandOverIsClean: assumes that nothing but COPY traffic is forwarded behind an unanswered sync point; `PoolerLimits.PipeliningLeaks` shows why. A Sync sent while a COPY is streaming, which Postgres ignores, is taken for a sync point.
- JobQueueModel.StaleOwnerIsFenced: says nothing of an instance that claims a job again after its own lease expired, because both executions use one owner id.
- Ties among candidates in `claim`: any candidate of highest priority and earliest due time may be taken; queue order among equals is the database's.
- Handler bodies other than project deletion, JSON columns and the job listing queries: a handler is whatever it reports.
- One moment of time for a whole tick, and `handleFailure` as two statements with other workers' steps possible between them.
- ProjectDelete.CanStillRetireIff: the project row is changed by nobody else during a teardown, other containers neither appear, vanish nor start and stop, and the job's five attempts are not counted.
- Docker: a volume is in use while any container mounts it and a network while a running container is attached; the copy-on-write store's subvolume and the Docker volume that points at it are one object.
- Characters: strings are sequences of Unicode scalar values, so offsets count an astral character once where JavaScript counts two code units, and lone surrogates do not occur.
- Agreement with the real Postgres lexer: E'' strings, `$` inside identifiers and very long tags differ; lexer properties are about the scanners' own contexts.
- `findDestructiveStatements` and `isReadOnly`: pattern matches over the blanked text.
- SQL text of generated statements: clauses are data; that identifiers are quoted safely is what `SqlText.PrintedIsInert` adds.
- A cast that fails, a statement timeout and table constraints on written values: casts are total and an update is not checked for a duplicate key.
- BrowseListing.PagingListsEverything: assumes a table that does not change, in keyset mode a unique key and non-null cells whose printed text casts back to an equal value, and, where OFFSET is used, one fixed order for rows that tie.
- Cursors: JSON and base64 stand for themselves; a cursor's own direction is never read, so it is carried and ignored.
- `insertRow`: only the parameter numbering of `updateRow` again.
- UTF-8 decoding: wire strings are byte strings, so replacement characters for invalid input do not arise; a mechanism name has one byte per character.
- Codecs.ParseUndoesEncode: also excludes the key `__proto__`, which a JavaScript object literal does not store.
- TLS, SSLRequest and GSSENCRequest rounds before the startup message, and the cancel-key registry.
- SessionRelay: the relay ends with its sockets; `teardown` and writes after it are not modelled.
- Cryptography: hash, MAC, key derivation and base64 are any functions with the lengths and inverse stated in `Scram.Lawful`; SASLprep is skipped as in the code; randomness is a parameter.
- TrustedProxy.RangesMeanPrefixes: the suffix is what `Number` makes of it, as a given function, so empty or malformed suffixes mean whatever that yields; lower-casing is ASCII.

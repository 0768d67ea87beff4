# Etronium scheduler: lifecycle, fail-over, log, autoscale planner

A Dafny model of the scheduler of Etronium and proofs about whole runs of it. The scheduler keeps
a table of processes, places each on a lord (a node agent), restarts it on another lord when its
lord disconnects, logs what it does to a line-based write-ahead log, and plans migrations from
sampled scores.

Layout, from the pure core outwards:

- `Process`, `Journal`, `Lifecycle`: a process record, the log events, replay, and one function per
  update the scheduler makes to table and log together.
- `Framing`: the bytes of the log file and the scanner that reads them, over an abstract codec.
- `Protocol`: the scheduler, its lords and the links as one transition system. Its steps are a
  tenant's spawn, a lord handling, refusing or losing a request, an OS process ending, delivery or
  loss of a message, connect, re-bind, disconnect, respawn, clean-up, ack timer, passing time and
  a scheduler restart. Requests may be lost or handled in any order; one agent's messages arrive
  in order but may be lost.
- `TableInvariants`, `LinkInvariants`, `Theorems`: the invariants every step keeps and what they
  say about every reachable state.
- `Lifetimes`, `AckWindow`, `Witnesses`: OS processes over scheduler restarts, how long a
  respawned process has to report, and runs that reach what the theorems only allow.
- `Budget`: a second, finer model of respawn, with overlapping respawns of one process and each
  step separate.
- `Recovery`, `Composition`: the recovery loop as functions, what it comes to entry by entry, and
  that it is a run of the transition system.
- `Coupling`: the methods of the scheduler's objects make steps of the transition system.
- `ProcessTables`, `Scheduler`, `Placement`, `RingBuffer`, `Autoscale`: the program's objects as
  classes updated in place, with its loops, each method proved equal to the functions above.
- `Clock`, `Sequences`: times, bytes and shared sequence notions. `RecordCodec`: a codec of log
  records that meets the laws below.

A codec is `Lawful` when an encoding decodes to its record, holds no line feed and no carriage
return, and no strict prefix of one (nor of the header line, nor that line) decodes; a concrete
codec satisfies these laws (`RecordCodec.LawsHaveAModel`).

Where the code and its comments or documentation differ, the model follows the code:

- The clean-up after the recovery loop runs after a successful pass too: a respawn the new lord has
  accepted, but not yet answered, ends STOPPED with exit code -5 (`Recovery.AcceptedRespawnIsGivenUp`).
- A retry after a pass without success, meant to find a better lord, changes nothing: a process
  whose request was not taken is already STOPPED with code -2 (`Recovery.OnlyFirstFoundCounts`).
- A reconnect is meant to move all processes of a lord's earlier sessions to the new one; the
  lookup may find the new session, or an earlier one that is not the latest, and move none of the
  others (`Scheduler.OnlyTheFoundLordMoves`, `Scheduler.ReconnectMayMoveNothing`).
- A request refused by a draining lord is meant to be respawned elsewhere or STOPPED; it ends
  EXITED and is never respawned (`Lifecycle.RefusalIsFinal`).
- A migration starts the process on the new lord and does not stop it on the old one
  (`Witnesses.TwoRunning`).
- A late Started message moves a finished process back to RUNNING while its `exited` channel stays
  closed (`Witnesses.LateStarted`; `Theorems.FinalLeftOnlyByStarted` says this is the only way out
  of a final state).
- The lord and the restart count a respawn sets, and re-binds, are not logged
  (`Theorems.RespawnIsNotReplayed`, `Theorems.RestartCountIsNotReplayed`,
  `Theorems.RebindIsNotReplayed`).
- An ack timer is never stopped, so that of one respawn can give up a later one
  (`AckWindow.AckWindowIsFull`, `Witnesses.WindowOfOneMillisecond`).
- A scheduler restart gives back the whole restart budget, and requests pending at it may still be
  handled (`Lifetimes.ExecutionsOverLifetimes`, `Witnesses.PendingRequestsExceedLimit`).
- A process that is RESTARTING when the scheduler restarts keeps that state with no timer and no
  recovery (`Theorems.RestartingSurvivesRestart`, `Witnesses.StuckAfterRestart`).
- The rate limit holds back only rebalances, and a rebalance ignores the blacklist
  (`Autoscale.OverloadIsRelieved`, `Autoscale.RebalanceTarget`, `Autoscale.RebalanceToBanned`).
- The planner's target is discarded when its decision is carried out (`Scheduler.Server.ApplyDecision`).
- A ring write that straddles the end of the array loses its tail
  (`RingBuffer.StraddlingWriteLosesTail`); writes are lossless exactly when each fits
  (`RingBuffer.KeptIsOutputIffFits`).
- The debounce of recoveries is ten seconds, its comment says five.

## Model

| member | source | states |
|---|---|---|
| Theorems.ReplayRefinesLive | internal/scheduler/process_table.go:81-259 | In every reachable state, over any number of scheduler restarts, replaying the log yields the same process ids, and for each the same program, state, local pid, exit code, exit signal and closed channel; the same lord id too unless the last lord change was a respawn or re-bind |
| Theorems.EveryRecordIsCounted | internal/scheduler/wal.go:121-189 | In every reachable state a replay counts each record of the log once, and as many creations as there are processes |
| Theorems.RespawnIsNotReplayed | internal/scheduler/recovery.go:206-238 | From any reachable state, a respawn that tries to send, accepted or refused, leaves the live entry on the new lord with one more restart, and the replayed one on the lord a replay found before, with no restart |
| Theorems.RestartCountIsNotReplayed | internal/scheduler/recovery.go:206-214 | In every reachable state the replayed restart count is the live one if and only if the live one is zero |
| Theorems.RebindIsNotReplayed | internal/scheduler/process_table.go:170-186 | A re-bind moves a process in memory and not in the log: unless its lord was already off the log, a replay finds it on the old lord |
| Witnesses.ReplayMissesRespawn | internal/scheduler/recovery.go:206-238 | A run reaches a state in which live and replayed table differ in lord and restart count |
| Witnesses.ReplayMissesRebind | internal/scheduler/process_table.go:170-186 | A run reaches a state in which they differ in the lord because of a re-bind |
| Theorems.CrashRecovery | internal/scheduler/wal.go:101-189 | The log file of any reachable state, with or without header and with undecodable lines in it, cut after any byte, replays to the table of a prefix of the logged events, namely those complete before the cut; uncut it replays to the live table up to restart counts and to lords changed off the log |
| Lifetimes.ExecutionBound | internal/scheduler/recovery.go:190-238 | Within a scheduler lifetime lords start at most as many OS processes for a process id as restarts are counted, so at most MaxRestarts when that is non-negative, and one more if it was created in this lifetime, else one for each of its requests pending when the lifetime began |
| Lifetimes.ExecutionsOverLifetimes | internal/scheduler/recovery.go:190-238 | Over n restarts of the scheduler, lords start at most 1 + (n + 1) MaxRestarts OS processes for a process id |
| Witnesses.AllLifetimesSpent | internal/scheduler/recovery.go:190-238 | For every positive limit and every n a run reaches that bound |
| Lifetimes.RunningBound | internal/scheduler/recovery.go:172-259 | The same bound holds for the OS processes of one process id that run at the same time |
| Witnesses.TwoRunning | internal/scheduler/recovery.go:172-259 | A run in which two of them run at once: a respawn stops nothing |
| Witnesses.PendingRequestsExceedLimit | internal/scheduler/recovery.go:190-238 | The pending requests do count: a run starts three OS processes in one scheduler lifetime for a process with a limit of one restart |
| Theorems.RespawnFidelity | internal/scheduler/recovery.go:221-229 | Any two requests ever sent for one process, by spawn, recovery or migration, are equal but for initial stdin, and equal to the one its record describes; `Theorems.RequestsCarryOriginal` says what is in them |
| Theorems.RequestsCarryOriginal | internal/scheduler/server.go:554-574 | Over any run, scheduler restarts included, every request ever queued for a process carries, field by field, what its Spawn call asked for: tenant, exec path, arguments, working directory, resources, dump path, restart limit (10 for none), and the environment but for ETRONIUM_STATE_DUMP, which is the dump path when there is one |
| Theorems.EveryProcessHasACall | internal/scheduler/server.go:168-193 | Every process in the table, so every request, comes from a Spawn call of the run |
| Theorems.ExitDelivered | internal/scheduler/connect.go:306-332 | In any reachable state an Exit that arrives is about a process in the table; that process is STOPPED if and only if the signal is not 0, and EXITED otherwise, with the code and signal of the message, all else about it kept; no other entry changes |
| Theorems.StartedDelivered | internal/scheduler/connect.go:262-268 | In any reachable state a Started that arrives is about a process in the table; that process is RUNNING on the lord of the session, with the pid of the message unless it is 0, all else about it kept; no other entry changes |
| Theorems.TimerDecides | internal/scheduler/recovery.go:240-256 | In any reachable state a timer that fires stops its process with code -3 if it is RESTARTING, and changes no entry otherwise |
| Theorems.StateClosure | internal/scheduler/process_table.go:200-246 | Only READY, RUNNING, RESTARTING, EXITED and STOPPED are ever reached |
| Theorems.FinalLeftOnlyByStarted | internal/scheduler/connect.go:262-288 | From any reachable state, the only step that leaves a final state is the delivery of a Started for that process, and it goes to RUNNING; respawns, clean-up, timers, re-binds and restarts keep a finished process's state |
| Witnesses.LateStarted | internal/scheduler/connect.go:262-288 | A run delivers a Started to a process that recovery had given up: it is RUNNING again with `exited` closed |
| Theorems.WaitChannel | internal/scheduler/process_table.go:200-246 | Over any run `exited` is closed at most once, and is closed if and only if the process is, or at some earlier point was, EXITED or STOPPED |
| Theorems.NoStuckRestart | internal/scheduler/recovery.go:240-256 | A RESTARTING process respawned in this scheduler lifetime has a timer due 30 s after its latest accepted request and that moment has not passed; it has any timer if and only if it was so respawned |
| AckWindow.AckWindowIsFull | internal/scheduler/recovery.go:240-256 | In every reachable state a RESTARTING process keeps its 30 s from its latest accepted request, whatever the timers do, if and only if no timer of an earlier respawn of it is still armed |
| Witnesses.WindowOfOneMillisecond | internal/scheduler/recovery.go:240-256 | A run in which a respawn is given up one millisecond after its request was accepted, by the timer of an earlier one |
| Theorems.RestartingSurvivesRestart | cmd/scheduler/main.go:77-97 | A process RESTARTING when the scheduler restarts is RESTARTING after it, with no timer armed and not taken up by any recovery |
| Witnesses.StuckAfterRestart | cmd/scheduler/main.go:77-97 | A run reaches such a process |
| Theorems.UnrespawnedLife | internal/lord/exec.go:31-212 | The history of a process that was never respawned is READY, then perhaps RUNNING, then perhaps one final state, and `exited` is closed if and only if the state is final |
| Theorems.UnrespawnedStaysFinal | internal/lord/agent.go:194-205 | No step changes the history of a finished process that was never respawned: the lord's message order rules out a Started after its Exit |
| Theorems.UnrespawnedFinalIsDead | internal/lord/exec.go:164-209 | When a process that was never respawned is EXITED or STOPPED, no OS process of it is running |
| TableInvariants.RunKeepsTableInv | internal/scheduler/process_table.go:81-259 | Every run keeps the four table invariants: replay agrees with memory, states and channel agree with the history, requests are faithful and covered by the budget, RESTARTING entries have their timer |
| LinkInvariants.RunKeepsLinkInv | internal/lord/exec.go:31-212 | Every run keeps the link invariants: a request is pending or handled once, its messages are at one agent and in order Started, Exit, and a running process has sent no Exit |
| Budget.InterleavedBudget | internal/scheduler/recovery.go:190-214 | With check and increment as separate steps and at most k overlapping respawns of one process, its restart count never exceeds MaxRestarts + k - 1, and a limit of zero is never exceeded |
| Budget.InterleavedExecutions | internal/scheduler/recovery.go:190-238 | With at most k overlapping respawns, lords are sent at most MaxRestarts + k requests for one process, the first included, and at most one when the limit is zero |
| Budget.AloneIsRespawn | internal/scheduler/recovery.go:172-259 | The separate steps of one respawn in a row have the effect of the undivided one on state, restart count and requests sent |
| Budget.InterleavedBudgetIsTight | internal/scheduler/recovery.go:190-214 | For every k and every positive limit some run reaches that bound, in restarts and in requests sent |
| Recovery.RecoveryOutcome | internal/scheduler/recovery.go:96-156 | A recovery without interleaved lord messages makes at most ten attempts; if none finds a lord nothing changes. Otherwise every process of the dead lord that is READY, RUNNING, PAUSED or MIGRATING ends STOPPED: with code -4 where it was when its restarts are spent; else on the new lord with one more restart, with code -5 and one request if that was taken, with code -2 and none if not. All others are as before, and each request has a timer from the time of the attempt that found the lord |
| Recovery.OnlyFirstFoundCounts | internal/scheduler/recovery.go:96-145 | Only the first attempt that finds a lord changes anything: all later passes, if any, meet only finished processes |
| Recovery.AcceptedRespawnIsGivenUp | internal/scheduler/recovery.go:148-156 | A candidate whose request the new lord accepted is STOPPED with code -5 by the clean-up, its restart spent |
| Composition.RecoveryIsRun | internal/scheduler/recovery.go:57-163 | From any reachable state a whole recovery leads, by steps of the transition system, to a reachable state with exactly the table, log, requests, timers and sessions its loops compute: lords connect and disconnect between attempts, timers of processes that are not RESTARTING fire, and its sends meet any oracle behind the sessions open at the attempt |
| Coupling.Spawn | internal/scheduler/server.go:143-218 | On a server coupled with a reachable state (same table, log, requests, timers and sessions), the call makes no step or the spawn step, and is coupled with the state after it |
| Coupling.HandleStarted | internal/scheduler/connect.go:262-288 | So coupled, handling the head message of an agent makes the delivery step |
| Coupling.HandleProcessExit | internal/scheduler/connect.go:306-332 | The same for an Exit |
| Coupling.AckTimeout | internal/scheduler/recovery.go:240-256 | The end of a timer makes the step of a fired timer |
| Coupling.Migrate | internal/scheduler/migrate.go:36-73 | A migration makes no step or a respawn step |
| Coupling.ApplyDecision | internal/scheduler/autoscale.go:502-521 | So does carrying out a decision of the planner |
| Coupling.ConnectLord | internal/scheduler/connect.go:83-126 | A lord's connection leads to a reachable state coupled with the server: a connect step and a re-bind step |
| Coupling.DisconnectLord | internal/scheduler/connect.go:148-154 | The end of a session makes the disconnect step |
| Coupling.Recover | internal/scheduler/recovery.go:57-163 | A recovery leads to a reachable state coupled with the server. It runs if and only if none of that lord was asked for in the last ten seconds. If it runs and some attempt finds a lord, every process whose lord it was and that is not EXITED, STOPPED or RESTARTING is now STOPPED, with one more restart exactly when its budget was not spent and one request exactly when that was taken too; every other process is the entry it was, without request; otherwise nothing changes |
| Lifecycle.RespawnTouchesOne | internal/scheduler/recovery.go:172-259 | A respawn changes one entry, keeps its id and program, spends a restart exactly when it tried to send, leaves a finished process alone, and sends the request the record describes |
| Lifecycle.RespawnTells | internal/scheduler/recovery.go:172-259 | What a respawn makes of its process, in states and codes: finished, nothing; restarts spent, which a negative limit never is, STOPPED with code -4; else on the new lord with one more restart, RESTARTING if the request was taken and STOPPED with code -2 if not |
| Lifecycle.RefusalIsFinal | internal/lord/exec.go:37-47 | A refused request leaves the process EXITED with code -1; no recovery takes it up and a respawn leaves it so |
| Process.FirstSpawnIsRespawn | internal/scheduler/server.go:554-574 | The request of the first spawn is the one a respawn of the recorded process sends, but for initial stdin; what both carry is in `Theorems.RequestsCarryOriginal` |
| Journal.StateNames | internal/scheduler/wal.go:220-242 | The logged name of a state is read back as that state, and a name is read as a state only if it is that state's logged name |
| Journal.UnusableIsSkipped | internal/scheduler/wal.go:162-187 | A record of an unknown kind, a creation without info, a record about an unknown process and one with an unknown state name change nothing on replay and are not counted; any other is counted once |
| Journal.UpdateStateAgrees | internal/scheduler/process_table.go:200-246 | A logged state change keeps replay and live table in agreement |
| Journal.UpdateResultAgrees | internal/scheduler/process_table.go:249-259 | So does a logged result |
| Journal.CreateAgrees | internal/scheduler/process_table.go:81-102 | So does a logged creation, also over an existing id |
| Framing.CrashConsistency | internal/scheduler/wal.go:101-189 | For any records, any undecodable lines among them, header or not, and any cut: the reader finds exactly the records complete before the cut |
| Framing.IntactFile | internal/scheduler/wal.go:129-189 | The uncut file reads back as every record, in order |
| Framing.FileSnoc | internal/scheduler/wal.go:101-118 | Appending an encoded record and a line feed to the file of some lines gives the file of those lines and the record |
| Framing.HeaderIsPassedOver | internal/scheduler/wal.go:205-216 | Skipping the header line loses no record: it would not decode anyway |
| Framing.TornTail | internal/scheduler/wal.go:101-189 | After a crash in the middle of an append the reader finds all records before it, and that one only if its line break alone is missing |
| RecordCodec.LawsHaveAModel | internal/scheduler/wal.go:101-118 | The assumptions about the codec are consistent: some codec of log records meets them |
| ProcessTables.Wal.Append | internal/scheduler/wal.go:101-118 | Appending writes one encoded line and logs one more record |
| ProcessTables.ProcessEntry.UpdateState | internal/scheduler/process_table.go:200-246 | The entry, updated in place, and the log become what the state-change function says; empty lord and zero pid leave the old ones, the first final state closes the channel |
| ProcessTables.ProcessEntry.UpdateResult | internal/scheduler/process_table.go:249-259 | Exit code and signal are stored and logged |
| ProcessTables.ProcessTable.Create | internal/scheduler/process_table.go:81-102 | A new entry enters the table and, with a log attached, the log |
| ProcessTables.ProcessTable.ListByLord | internal/scheduler/process_table.go:137-151 | The list holds each process of the lord that is READY, RUNNING, PAUSED or MIGRATING, once, and nothing else |
| ProcessTables.ProcessTable.UpdateLordForHostname | internal/scheduler/process_table.go:170-186 | Every entry of the old lord moves to the new one, no other changes, nothing is logged, and the number of moved ones is returned |
| ProcessTables.FindLineEnd | internal/scheduler/wal.go:129-189 | The next line feed from a position on, or the end of the file |
| ProcessTables.ScanFile | internal/scheduler/wal.go:129-189 | The loop over the file yields the lines the scanner function yields |
| ProcessTables.ReplayWal | internal/scheduler/wal.go:129-189 | Reading a file into an empty table gives the table and the counters of the replay of its records |
| ProcessTables.Start | cmd/scheduler/main.go:77-97 | After startup on any file, also one that ends in an unfinished line, and whether or not writing the header and opening the log succeed, the table is the replay of what a reader finds on disk; with no unfinished line table and log agree from the start |
| Scheduler.Server.Connect | internal/scheduler/connect.go:83-126 | A lord under a fresh id gets a session with an empty outbox and becomes usable, no other lord changes, and the table becomes the re-bind from the first lord of its host name that the lookup meets, which may be the new one; the number of processes moved is returned |
| Scheduler.OnlyTheFoundLordMoves | internal/scheduler/connect.go:115-125 | A process of an earlier lord moves to the new one if and only if the lookup found that earlier lord, and is else as it was; nothing but its lord changes |
| Scheduler.ReconnectMayMoveNothing | internal/scheduler/connect.go:112-125 | Whatever the registry holds, some order of the lookup finds the new lord itself, and then nothing moves |
| Scheduler.ReconnectMayMissOne | internal/scheduler/connect.go:112-125 | With two earlier lords of the name, some order finds the one and the processes of the other stay behind |
| Scheduler.Server.Disconnect | internal/scheduler/connect.go:148-154 | The session is gone and its lord unusable; the table is as it was |
| Scheduler.Server.TakeNext | internal/scheduler/connect.go:176-198 | The send loop takes the requests to a lord in the order they were sent: the oldest not yet taken, leaving the latest ones |
| Scheduler.Server.Spawn | internal/scheduler/server.go:143-218 | The outcome is exact: invalid if and only if tenant or exec path is empty or a resource is out of its range; no lord if and only if it is valid and no lord is usable; otherwise, for a lord that the placement may pick, not connected without a trace if it has no session; a process STOPPED with code -1 and no request if its outbox has no room in time; else a READY process on that lord and one request to it, which carries, field by field, the new id, the caller's program and the caller's stdin |
| Scheduler.Server.HandleStarted | internal/scheduler/connect.go:262-288 | Table and log make the Started step: a known process is RUNNING on that lord with the pid of the message unless it is 0, all else as before; for an unknown one nothing changes |
| Scheduler.Server.HandleProcessExit | internal/scheduler/connect.go:306-332 | Table and log make the Exit step: a known process is STOPPED if and only if the signal is not 0, and EXITED otherwise, with the code and signal of the message, all else as before; for an unknown one nothing changes |
| Scheduler.Server.SendSpawn | internal/scheduler/connect.go:341-383 | A lord without a session never takes a request; one with a session does if and only if its outbox has room in time, and the request then joins the end of that outbox alone; every outbox stays the latest part of what its lord was sent |
| Scheduler.Server.RespawnProcessOnLord | internal/scheduler/recovery.go:172-259 | Table, log, outbox and timers make the respawn step; success is reported for a finished process or an accepted request, and a timer is armed for the latter only |
| Scheduler.Server.AckTimeout | internal/scheduler/recovery.go:240-256 | A fired timer stops its process with code -3 if it is still RESTARTING, and changes no entry otherwise |
| Scheduler.Server.RecoverFromLordDisconnect | internal/scheduler/recovery.go:57-163 | Unless one of that lord was asked for less than ten seconds ago, it takes up, each once, the processes of the lord that are READY, RUNNING, PAUSED or MIGRATING, and table, log, requests and timers become what the recovery functions say, each attempt behind the sessions open at it: one timer per request sent, from the time of its attempt |
| Scheduler.Server.Sleep | internal/scheduler/recovery.go:96-99 | While a recovery sleeps sessions open with an empty outbox or close; those that stay keep their outboxes |
| Scheduler.Server.Retry | internal/scheduler/recovery.go:96-145 | The loop ends after at most ten attempts or the first one with a success, as the attempt functions say of a world whose sessions may change before each attempt but the first |
| Scheduler.Server.CleanUp | internal/scheduler/recovery.go:148-156 | Exactly the candidates still RESTARTING are given up |
| Scheduler.Server.Migrate | internal/scheduler/migrate.go:36-73 | An automatic migration, or one without target, goes to a best-scoring usable lord other than the current one, one with target to that; each error case is characterised; the entry changes only by the respawn step |
| Scheduler.Server.ApplyDecision | internal/scheduler/autoscale.go:502-521 | If some process is on the lord a move names and some other lord is usable, the youngest one is respawned on a best-scoring usable other lord, whatever lord the planner chose; otherwise, and for a blacklisting, nothing changes |
| Scheduler.Server.PickColdestProcessOnLord | internal/scheduler/autoscale.go:525-543 | The process on the lord that entered its state last, in whatever state |
| Placement.ScoreRange | internal/scheduler/placement.go:228-261 | For a non-negative process count below the 32-bit maximum a score lies in (0, 1] |
| Placement.ScoreAboveFloor | internal/scheduler/placement.go:187-261 | For any 32-bit count a score exceeds -1, the value the search for a best lord starts from, so no usable lord is overlooked |
| Placement.ScoreMonotone | internal/scheduler/placement.go:228-261 | More CPU, memory or process load never raises a score, whatever the figures |
| Placement.DominantScoresHigher | internal/scheduler/placement.go:228-261 | With figures in range, a lord that is no worse in CPU, share of memory and process count, and better in one, scores strictly higher |
| Placement.ScoreInFigures | internal/scheduler/placement.go:228-261 | With figures in range, the score is five tenths of the free CPU, four of the free memory, and one over one more than the process count, put without division |
| Placement.CpuAgainstMemory | internal/scheduler/placement.go:228-261 | Between lords with as many processes the order is that of five times the free CPU and four times the free memory |
| Placement.ProcessesCountLittle | internal/scheduler/placement.go:257-260 | A difference in process count never shifts a score by a tenth or more |
| Placement.ScoreIgnores | internal/scheduler/placement.go:232-256 | The physical memory size plays no part when the advertised one is positive, nor one that is not positive when it is not; CPU figures out of range count as the nearest in it |
| Placement.LordRegistry.PickDifferent | internal/scheduler/placement.go:187-210 | A healthy non-draining lord other than the excluded one that none such outscores, and so that none such is no worse than in CPU, memory and processes and better in one; none if and only if there is none |
| Placement.LordRegistry.Pick | internal/scheduler/placement.go:147-184 | The preferred lord if it is healthy, not draining, below 100 per cent CPU and below its advertised memory; else, weighted, a usable lord that no usable one outscores or is better than in all three figures; none if and only if no lord is usable |
| Placement.LordRegistry.SweepHeartbeats | internal/scheduler/placement.go:264-278 | Exactly the healthy lords silent beyond the limit are marked down and returned, each once |
| Placement.LordRegistry.Register | internal/scheduler/placement.go:45-56 | A registered lord is usable, heard just now; no lord is forgotten and no other changes |
| Placement.LordRegistry.FindByHostname | internal/scheduler/placement.go:110-122 | The first lord of that name in the order the iteration takes; none if and only if the name is empty or no lord has it |
| Placement.AnyMayBeFound | internal/scheduler/placement.go:110-122 | For every registry and every lord in it with a host name, some order of the iteration finds that lord by its name |
| Placement.LordRegistry.UpdateStats | internal/scheduler/placement.go:59-72 | A heartbeat refreshes its lord's figures and makes it healthy, keeps draining, and touches no other lord |
| Placement.LordRegistry.MarkUnhealthy | internal/scheduler/placement.go:86-95 | That lord becomes unusable, in both its health flags and nothing else; no other changes |
| Placement.LordRegistry.SetDrain | internal/scheduler/placement.go:98-104 | That lord becomes unusable, no other changes |
| RingBuffer.RingIsStreamTail | internal/scheduler/process_table.go:326-355 | After any writes the content is the last cap bytes of the kept stream |
| RingBuffer.KeptIsOutputIffFits | internal/scheduler/process_table.go:326-342 | The kept stream is the true output if and only if each write is cut nowhere |
| RingBuffer.UniformWritesAreExact | internal/scheduler/process_table.go:326-355 | Writes of one length dividing the capacity: the content is the tail of the true output |
| RingBuffer.StraddlingWriteLosesTail | internal/scheduler/process_table.go:336-342 | Two three-byte writes into four bytes lose output |
| RingBuffer.ContentIsRightIffSettled | internal/scheduler/process_table.go:326-355 | Whatever the bytes written, the content is the tail of the true output, if and only if the lengths of the writes leave no loss, or at least as many bytes as the capacity after the last one |
| RingBuffer.FollowerExactUntilFull | internal/scheduler/process_table.go:359-400 | Until the buffer first fills, whatever the interleaving of writes and polls, a follower that has just polled has received exactly the bytes written |
| RingBuffer.FollowerBounded | internal/scheduler/server.go:453-491 | Over any interleaving a follower receives at most 2 cap - 1 bytes and at most one non-empty chunk from a full buffer |
| RingBuffer.FollowerBoundIsTight | internal/scheduler/server.go:453-491 | For every capacity above one, some interleaving reaches that bound |
| RingBuffer.LateChunkIsRotated | internal/scheduler/process_table.go:372-400 | The one chunk from a full buffer starts at array position zero, not at the oldest byte, unless these coincide |
| RingBuffer.Buffer.Put | internal/scheduler/process_table.go:326-343 | The array updated in place becomes what the write function says |
| RingBuffer.Buffer.Contents | internal/scheduler/process_table.go:345-355 | The method reads the content the functions define |
| RingBuffer.Buffer.Since | internal/scheduler/process_table.go:372-400 | The method returns the chunk and offset the functions define |
| Autoscale.Cooldown | internal/scheduler/autoscale.go:204-321 | Over any run of samples and decisions with a non-decreasing clock, two moves decided from one lord are at least Cooldown apart |
| Autoscale.OneMovePerCooldown | internal/scheduler/autoscale.go:281-321 | A half-open window of length Cooldown holds at most one move from a lord |
| Autoscale.BanHolds | internal/scheduler/autoscale.go:204-301 | Over any run, once a lord is blacklisted no migration goes to it for the length of the ban, through all samples and decisions in between |
| Autoscale.RateLogIsExact | internal/scheduler/autoscale.go:245-257 | At any moment of any run a prune leaves exactly the times, in order, of the moves decided in the last minute |
| Autoscale.RebalanceLimit | internal/scheduler/autoscale.go:304-328 | Over any run every half-open minute holds at most max(0, MaxPerMin) rebalances |
| Autoscale.MigrateTarget | internal/scheduler/autoscale.go:259-301 | A migration goes from an overloaded lord whose last move is a cooldown old to another lord, of least score among the others whose bans are over after this Decide has made its own; with a positive ban length its reject rate is within the threshold or its ban ends exactly now |
| Autoscale.OverloadIsRelieved | internal/scheduler/autoscale.go:281-301 | A lord is relieved if and only if it is overloaded, its last move is a cooldown old and the ban of some other lord is over after this Decide has made its own, whatever the rate log |
| Autoscale.CooldownEnds | internal/scheduler/autoscale.go:281-301 | Over any run of samples and decisions: a Decide relieves a lord if and only if it is overloaded, every move from it decided so far is at least a cooldown old and the ban of some other lord is over after this Decide has made its own |
| Autoscale.RebalanceTarget | internal/scheduler/autoscale.go:304-321 | A rebalance is decided if and only if a highest- and a least-scoring lord are more than the threshold apart, the last move of the former is a cooldown old and it is not relieved in the same Decide (unless there is no cooldown), and the rate log is below the limit: bans play no part in its target |
| Autoscale.RebalanceWhenDue | internal/scheduler/autoscale.go:304-321 | Over any run: a Decide rebalances between the last and the first lord by score if and only if they are more than the threshold apart, every move from the last decided so far is at least a cooldown old, it is not relieved in the same Decide (unless there is no cooldown), and fewer moves than the limit were decided in the last 60 s |
| Autoscale.DecideEffects | internal/scheduler/autoscale.go:268-321 | What a Decide makes of one lord: banned, until now plus the ban length, if and only if its reject rate exceeds the threshold and its last ban ended before now; stamped with now if and only if something moves from it; all figures kept |
| Autoscale.SampleTells | internal/scheduler/autoscale.go:184-231 | A sampled score figure by figure: processes per share, per core or per one, at most 1; the new reject rate, or seven tenths of it and three of a positive old one; the weighted sum; ban and last move carried over |
| Autoscale.RebalanceToBanned | internal/scheduler/autoscale.go:268-321 | A run in which a rebalance goes to a lord banned in the very same Decide |
| Autoscale.ColdestIsLeast | internal/scheduler/autoscale.go:338-353 | The search finds a least-scoring eligible lord, and none if and only if none is eligible |
| Autoscale.LogIsLastDecisions | internal/scheduler/autoscale.go:329-332 | The decision log is the last 64 decisions of the run |
| Autoscale.AutoscaleState.Sample | internal/scheduler/autoscale.go:155-231 | The scores become, for every registered lord and no other, what a sample of its reading and its previous score measures, as `Autoscale.SampleTells` spells out |
| Autoscale.AutoscaleState.Decide | internal/scheduler/autoscale.go:237-335 | For some order of the lords by rising score, the planner's new state and its decisions are those of the decision step, which the rows above characterise over runs |
| Autoscale.AutoscaleState.Prune | internal/scheduler/autoscale.go:245-255 | The rate log overwritten in place keeps, in order, exactly what is after the cutoff |
| Autoscale.AutoscaleState.PickColdest | internal/scheduler/autoscale.go:338-353 | The loop finds the first eligible lord of the order |
| Autoscale.AutoscaleState.BlacklistPass | internal/scheduler/autoscale.go:268-279 | Exactly the lords above the reject threshold whose ban is over are banned anew, in order |
| Autoscale.AutoscaleState.OverloadPass | internal/scheduler/autoscale.go:281-302 | Exactly the lords to relieve are stamped with the current time and get a migration, in order |
| Autoscale.AutoscaleState.RebalancePass | internal/scheduler/autoscale.go:303-321 | The last lord of the order is stamped and a rebalance to the first decided exactly under the conditions of a rebalance |

## Left out

- Theorems.CrashRecovery: one cut followed by replay; appends after a torn line, which would join it, are not modelled.
- Theorems.NoStuckRestart: time passes only up to the next due timer, so a timer goroutine that runs late is not modelled.
- Lifetimes.ExecutionBound: respawns of one process do not overlap here; `Budget` has the overlapping case, for one lifetime.
- Lifetimes.ExecutionsOverLifetimes: respawns of one process do not overlap here either.
- Recovery.RecoveryOutcome: lord messages between the attempts are not modelled here; `Theorems` covers them, without the bound on attempts.
- Scheduler.Server.RecoverFromLordDisconnect: what each attempt's placement finds, the time it is made at, and the sessions open then, are inputs; re-binds and messages during the sleeps are not modelled here.
- Composition.RecoveryIsRun: ack timers of RESTARTING processes that are due before the attempt that finds a lord are not modelled here; they are steps of their own in `Protocol`.
- Coupling.Recover: no ack timer is due before the attempt that finds a lord.
- ProcessTables.Start: a log that ends in an unfinished line is read, but appends to it are not modelled.
- Scheduler.Server.Spawn: the log is attached, here and in all methods of the server; the table and entry methods also cover a scheduler that could not open its log.
- Scheduler.Server.SendSpawn: the outbox's capacity and the five-second wait for it are an input that says whether there is room in time; other events in the outbox are not modelled.
- Placement.LordRegistry.Pick: map iteration order is an arbitrary choice; without the weighted algorithm any usable lord may be returned.
- Autoscale.Cooldown: samples never drop a registered lord, because the registry never forgets one.
- Autoscale.AutoscaleState.Decide: an unstable sort over an unordered map is any order by rising score; scores are real numbers.
- Placement.ScoreRange: scores are real numbers; floating-point rounding is not modelled, and a number above every other stands for the infinity at a count of -1.
- JSON details and the 16 MB line limit: the codec laws above stand for them; no carriage return and no header prefix among the encodings is assumed too.
- Data races (a channel closed twice, unlocked reads of a record) and 32-bit wrap-around of restart counts.
- gRPC streams, outbox overflow on the lord, heartbeat sending and reconnect dialling: a session connects, re-binds or disconnects at any time.
- The per-tenant index, process listing, watch subscribers, stdin, kill, file transfer and token stubs: no logic that the properties above need.
- BPF maps, cgroup files and hardware detection: their readings are inputs of `Sample`; its warning about dead lords has no effect and is omitted.
- A lord's drain and its process exit: a draining lord refuses requests, which is one outcome of handling one.
- An entry object replaced by a second Create of the same id: process ids are fresh.
- Process ids and lord ids are non-empty, as generated; nil and empty environment maps are one.
- Log messages, error texts and timestamps that no decision reads.

# final-pm core, modelled in Dafny

This project models the sequential core of final-pm, a process manager for
Node.js applications. The model covers four components, each with immutable
records and pure functions:

- **The supervised process** (`lib/daemon/process.js`, module `Supervision`,
  properties in `SupervisionProofs`). A process is a record of flags, an
  optional generation and three timer fields. Every handler of the source is a
  step function that returns the next record and the list of effects the
  source performs, in order. Effects are generation callbacks, emitted
  events, timers armed or cancelled, work deferred with `setImmediate`, and
  commands to the OS child. Timers firing, the child reporting readiness and
  the child exiting are explicit inputs. Three slips of the source are kept
  as written:
  - the start-delay callback nulls `startTimeout` instead of
    `startDelayTimeout` (line 46);
  - `_clearTimeouts` cancels the start timer but nulls `stopTimeout`
    (lines 172-175);
  - the `message` readiness listener is never removed (lines 77-83), so
    every `ready` message runs `_onReady` again (see "## Findings").

  Each timer field is therefore modelled as two booleans: the field is set,
  and the timer can still fire. `KillDisarmsLifecycleTimers` shows that the
  second slip cannot show in a reachable state.
- **The log buffer** (`lib/daemon/logger.js`, module `LogBuffer`). A buffer
  holds an application's lines, their byte total and a write cursor. Eviction
  from the front makes room for a new line. Each dropped line that was never
  delivered is reported. The eviction is written twice:
  - a declarative function: the shortest prefix that makes room;
  - a method with the source's loop, proved equal to the function.
- **The logger** (`lib/daemon/logger.js`, modules `LogRouter` and
  `LogRouterProofs`). A logger owns the logging processes it spawned, the
  current one among them, and one buffer per application. The source's
  handlers become functions returning the next logger and the actions taken:
  - spawn requests;
  - deliveries of lines;
  - stop requests to logging processes;
  - announcements (`truncate`, `line`, `inactive`).
- **The command-line planners** (`lib/cli/scale.js` and `lib/cli/stop.js`,
  modules `ScalePlanner` and `StopPlanner`). Each is a pure function from the
  daemon's listing, after selection (module `DaemonInfo`), to a list of
  actions.

The modules `Common`, `Application` and `Decimal` hold:

- `Option`, `Max` and `Min`;
- the application descriptor and the generation descriptor;
- decimal rendering of integers, used for the exit text the logger writes.

Two behaviours of the code are kept as written although they look unintended:

- `_onExit` has no guard against running twice. A process stopped during its
  start delay and then killed synthesizes two exits
  (`StopThenKillSynthesizesTwoExits`).
- Termination clears only the start timer. The other timers are left as they
  are.

The sort in the scale planner is the stable sort `Array.prototype.sort` has
been required to be since ES2019, and `ScalePlanner.SortIsStable` proves the
model's sort stable.

The non-deterministic parts are parameters:

- the id counter and the clock (`Construct`);
- the OS pid of a spawned child;
- the daemon's answer to a spawn request (`spawned: Option<nat>`);
- the time stamp of a log line.

## Model

| member | source | states |
|---|---|---|
| Supervision.Construct | lib/daemon/process.js:7-58 | The id is the given id when it is non-zero, otherwise the global counter, which then advances. Number "id" means the id, a given number is kept, and an absent number means 0. The crash counter defaults to 0. The cwd is the given one unless it is absent or empty, else the application's; the arguments are the given ones, else the application's, else none. The logger key is built from that cwd and those arguments. All flags start clear, with no generation, no listener, pid -1 and no start or stop timer. A truthy start delay arms only the delay timer and shifts the start time by the delay. Otherwise one spawn is deferred. |
| Supervision.LoggerKey | lib/daemon/process.js:38-42 | A logger application's key is its name, then the given cwd, then every argument as its own element, in order. Any other application's key is its logger, the application's configured cwd, and the logger arguments nested as one element. Every key has at least two elements. |
| Supervision.CreateProcess | lib/daemon/process.js:60-99 | A process spawns at most once: with a child it is a no-op. Otherwise the child exists, the pid is recorded, the readiness listener is attached, and the start timer is armed exactly when a start timeout is configured. |
| Supervision.FireStartDelay | lib/daemon/process.js:44-48 | A delay timer that is not armed does nothing. When it fires, the step is `_createProcess` on the record whose start-timer field was nulled. The delay timer is then no longer armed, yet its field stays set. A process not yet spawned gets its child, the pid, the listener, and a start timer armed exactly when one is configured; the stop timer is untouched. |
| Supervision.FireStartTimeout | lib/daemon/process.js:101-110 | Only an armed start timer fires. It sets `timeout` and clears the start timer, and nothing else changes. |
| Supervision.FireStopTimeout | lib/daemon/process.js:120-129 | Only an armed stop timer fires, even when its field was nulled. It sets `timeout` and clears the stop timer, and nothing else changes. |
| Supervision.OnReady | lib/daemon/process.js:131-148 | Readiness while stopping, killing or timed out changes nothing and has no effect. Otherwise the process becomes ready, the start timer is cancelled and its field nulled, and every other field is kept. |
| Supervision.ChildReports | lib/daemon/process.js:74-86 | A report the listener does not wait for, or any report once the listener is gone, changes nothing. A `ready` message in message mode, or `listening` otherwise, runs `_onReady`. In message mode the listener stays attached, so the next `ready` message runs `_onReady` again. In listening mode it detaches when it fires. |
| Supervision.ChildReportsOnce | lib/daemon/process.js:74-86 | The intended listener, named in "## Findings": the first report it waits for detaches it, in either mode, and then runs `_onReady`. Other reports change nothing. |
| Supervision.OnExit | lib/daemon/process.js:150-164 | An exit always leaves the process terminated and without a generation. The start timer is cancelled if its field is set, and only the start-timer field changes among the timers. |
| Supervision.ClearTimeouts | lib/daemon/process.js:166-181 | The delay field ends null and its timer cancelled. A set start field is cancelled but stays set. The stop field always ends null, but its timer survives exactly when it was armed and either the start field was set or the stop field was already null. |
| Supervision.Move | lib/daemon/process.js:187-201 | Moving changes only the generation, to the new one. |
| Supervision.Stop | lib/daemon/process.js:203-211 | `stop` only clears the timed-out flag. |
| Supervision.Kill | lib/daemon/process.js:213-221 | `kill` only clears the timed-out flag. |
| Supervision.Send | lib/daemon/process.js:223-233 | A terminated process answers undefined. Without a child the answer is false. A message reaches the child exactly when the process is not terminated and has a child. |
| Supervision.SendStop | lib/daemon/process.js:235-276 | Sending a stop while terminated, stopping or killing is a no-op. Otherwise `stopping` is always set. An unready child gets nothing. A ready child first gets the stop delivery, then the stop timer is armed exactly when a stop timeout is configured. Without a child but with a pending delay, the delay field is nulled. With a child, only the stop timer may change, and a stop timer is armed only on the ready-child path. |
| Supervision.StopDelivery | lib/daemon/process.js:250-254 | The stop signal `disconnect` closes the child's channel. Every other signal is sent to the child's OS process. |
| Supervision.SendKill | lib/daemon/process.js:278-298 | Sending a kill while terminated, or while killing without force, is a no-op. Otherwise the process ends killing, with the timers as `_clearTimeouts` leaves them and the delay field null. |
| Supervision.Compare | lib/daemon/process.js:300-310 | The result is zero exactly when revision, start time and id are all equal. It is negative exactly when the triple is lexicographically smaller. |
| SupervisionProofs.OnReadyReports | lib/daemon/process.js:131-148 | A late readiness signal has no effect. Otherwise the generation, if any, hears `_ready` exactly once and `ready` is emitted. |
| SupervisionProofs.OnExitReports | lib/daemon/process.js:150-164 | The generation being left hears `_exit(code, signal)`, and `exit` with the same code and signal is emitted. |
| SupervisionProofs.MoveDetachesFirst | lib/daemon/process.js:187-201 | `_remove` on the old generation comes strictly before `_add` on the new one, and `move` is emitted with both generations. |
| SupervisionProofs.StopForwards | lib/daemon/process.js:203-211 | `stop` only forwards to the generation, if any, and emits `stop`. |
| SupervisionProofs.KillForwards | lib/daemon/process.js:213-221 | `kill` only forwards the signal and force to the generation, if any, and emits `kill`. |
| SupervisionProofs.StartTimeoutReports | lib/daemon/process.js:101-110 | The start timer firing tells the generation and emits `timeout` tagged start. |
| SupervisionProofs.StopTimeoutReports | lib/daemon/process.js:120-129 | The stop timer firing tells the generation and emits `timeout` tagged stop. |
| SupervisionProofs.CreateProcessSilent | lib/daemon/process.js:60-99 | A spawn makes no generation callback. A first spawn emits exactly `start`. |
| SupervisionProofs.ClearTimeoutsSilent | lib/daemon/process.js:166-181 | Clearing the timers calls nothing, emits nothing and defers nothing. |
| SupervisionProofs.SendStopReports | lib/daemon/process.js:235-276 | The stop `signal` event is emitted only on the ready-child path and the pending-delay path. A synthetic exit with code 0 and the stop signal is deferred only on the pending-delay path. |
| SupervisionProofs.SendKillReports | lib/daemon/process.js:278-298 | A kill that acts emits `signal` tagged kill, with the argument or else the application's kill signal. It defers a synthetic exit only when there is no child and the process was not already killing. |
| SupervisionProofs.RepeatedKillSchedulesNoSecondExit | lib/daemon/process.js:287-295 | Without a child, a forced second kill defers no second exit. |
| SupervisionProofs.ConstructEstablishesInv | lib/daemon/process.js:7-58 | A new process satisfies the state invariant. Timers are armed only when their fields are set and their preconditions hold, and readiness implies a child. An attached readiness listener implies a child, and an unready one unless the process waits for a `message`, whose listener outlives readiness. |
| SupervisionProofs.StepPreservesInv | lib/daemon/process.js:60-298 | Every handler as written, including a message listener that stays attached, keeps that invariant. |
| SupervisionProofs.ListenerStepPreservesInv | lib/daemon/process.js:60-298 | Every step keeps that invariant under either readiness listener, the source's or the intended one. |
| SupervisionProofs.StepKeepsApp | lib/daemon/process.js:60-298 | No step changes the application a process was created for. |
| SupervisionProofs.RunPreservesInv | lib/daemon/process.js:60-298 | Every admissible sequence of inputs keeps that invariant, under either readiness listener. |
| SupervisionProofs.AtMostOneLifecycleTimer | lib/daemon/process.js:256-260 | In every reachable state, the start timer and the stop timer are never armed together. |
| SupervisionProofs.KillDisarmsLifecycleTimers | lib/daemon/process.js:166-181 | In every reachable state, a kill that acts leaves no delay, start or stop timer armed. The nulled-but-armed stop timer the clearing code allows never arises. |
| SupervisionProofs.FlagsAreMonotone | lib/daemon/process.js:131-298 | Once set, the spawned, ready, stopping, killing and terminated flags stay set under every input. |
| SupervisionProofs.StageNeverDecreases | lib/daemon/process.js:131-298 | The lifecycle stage never decreases. The stages are: pending, spawned, ready, stopping or killing, terminated. |
| SupervisionProofs.ReadyNotifiedAtMostOnce | lib/daemon/process.js:74-86 | When the listener detaches after firing, over any admissible run the generation hears `_ready` at most once, and not at all once the listener has fired. That covers the intended listener in both modes and the source's in listening mode. |
| SupervisionProofs.RepeatedReadyMessageNotifiesTwice | lib/daemon/process.js:77-83 | As written, a message-mode process in a generation, not stopping, killing or timed out, whose child sends `ready` twice makes two `_ready` calls. |
| SupervisionProofs.MessageModeProcessReachesRepeatedReady | lib/daemon/process.js:7-99 | That state is reachable: a message-mode process without start delay, spawned and moved into a generation, satisfies the invariant and all the premises above. |
| SupervisionProofs.SynthesizedExitsBounded | lib/daemon/process.js:262-293 | Over any run, under either listener, at most two exits are synthesized: one by a stop during the start delay and one by the first kill without a child. |
| SupervisionProofs.StopThenKillSynthesizesTwoExits | lib/daemon/process.js:262-293 | That bound is reached: stopping during the start delay and then killing defers two exits. |
| SupervisionProofs.DelayedStopNeverSpawns | lib/daemon/process.js:44-48 | A process stopped during its start delay cancels the delay and defers an exit with code 0 and the stop signal. It is never spawned by a late delay firing, and the deferred exit terminates it. |
| SupervisionProofs.CompareReflexive | lib/daemon/process.js:300-310 | `compare(a, a)` is 0. |
| SupervisionProofs.CompareAntisymmetric | lib/daemon/process.js:300-310 | The sign of `compare(a, b)` is the negation of the sign of `compare(b, a)`. |
| SupervisionProofs.CompareTransitive | lib/daemon/process.js:300-310 | The order `compare` defines is transitive. |
| LogBuffer.EvictCountIsShortest | lib/daemon/logger.js:204-215 | The eviction count is the least number of oldest lines whose removal makes room. |
| LogBuffer.GuaranteeFreeSpace | lib/daemon/logger.js:194-222 | An amount above the limit is refused. Otherwise some prefix of `k` oldest lines is dropped and the survivors keep their order. The byte total stays the sum of the survivors and leaves room for the amount. The cursor becomes `max(0, w - k)`. Exactly the dropped lines at or after the cursor are reported, with writer and size. |
| LogBuffer.EvictionIsMinimal | lib/daemon/logger.js:204-215 | The dropped prefix is the shortest that makes room: no shorter prefix would do. There are exactly `max(0, k - w)` truncation reports. |
| LogBuffer.RoomyBufferKept | lib/daemon/logger.js:201-221 | A buffer that already has room is left exactly as it was, with no report. |
| LogBuffer.EvictionWalk | lib/daemon/logger.js:201-215 | The source's loop stops after exactly the shortest prefix that makes room. Under the byte-sum invariant it never indexes past the lines. It leaves the byte total, the clamped cursor and the reports as stated above. |
| LogBuffer.GuaranteeFreeSpaceInPlace | lib/daemon/logger.js:194-222 | Refusal, loop and splice together compute the declarative eviction exactly. |
| LogBuffer.Utf8Length | lib/daemon/logger.js:164 | A text's byte length lies between one and four bytes per character. The per-character widths follow section 3 of RFC 3629. |
| LogBuffer.OriginOf | lib/daemon/logger.js:179-184 | A line records the writer's pid, id and number. It records a generation name exactly when the writer has a generation. |
| LogBuffer.PushLogEvent | lib/daemon/logger.js:156-192 | A text larger than the limit leaves the buffer unchanged and reports that process and size as truncated. Otherwise the buffer stays valid and within the limit. The new line, carrying kind, text, size, time, application name, origin and extra fields, is last. The notices are the truncations eviction reported, in order, then the `line` announcement. |
| LogBuffer.PushKeepsOrderAndBounds | lib/daemon/logger.js:166-191 | After an accepted push that dropped `k` lines, the lines before the new one are the survivors, in order. The byte total is the sum of the lines and within the limit, and the cursor is clamped. The notices are one truncation for each dropped line at or after the cursor, with its writer and size, then the `line` announcement for the new line. |
| LogBuffer.NewLogs | lib/daemon/logger.js:235-240 | A new buffer holds the application, no lines, zero bytes and cursor 0. |
| LogBuffer.Refresh | lib/daemon/logger.js:227-233 | An existing buffer takes the new application only when its revision is strictly greater. Lines, bytes and cursor are never touched. |
| LogBuffer.DeliveredOwesNothing | lib/daemon/logger.js:83-87 | After delivery nothing is owed, and delivering again changes nothing. |
| LogBuffer.DeliverInPlace | lib/daemon/logger.js:83-87 | The source's loop sends exactly the lines from the cursor on, in order. It leaves the cursor at the end, and the lines stay buffered. |
| Decimal.NatTextRoundTrip | lib/daemon/logger.js:272 | Reading back the decimal digits of a number gives the number. |
| Decimal.IntTextInjective | lib/daemon/logger.js:272 | Distinct exit codes are rendered as distinct texts. |
| LogRouter.NewRouter | lib/daemon/logger.js:4-22 | A new logger reads its name, cwd and arguments from the key and gives back the same key. It owns no process, has no current process and holds no buffer. |
| LogRouter.ProcessKeysAreReadable | lib/daemon/logger.js:8-19 | Every key a process builds can be read by a logger. For an ordinary application, the logger's name is the configured logger, its cwd is the application's cwd, and its arguments are the nested logger arguments. |
| LogRouter.IndexOf | lib/daemon/logger.js:67-71 | The lookup finds the first buffer of that application name, and finds none exactly when no buffer has that name. |
| LogRouter.CheckInactive | lib/daemon/logger.js:124-137 | `inactive` is announced exactly when there is neither a buffer nor a process. A process is stopped exactly when there is no buffer and it is owned. Nothing else happens. |
| LogRouter.SpawnLoggingProcess | lib/daemon/logger.js:24-35 | A spawn is always requested first. A failure is reported exactly when the daemon spawns nothing, and then nothing changes. Otherwise the new process is owned. |
| LogRouter.OnLoggerExit | lib/daemon/logger.js:37-45 | An exited logging process is no longer owned, and every other process keeps its ownership. The current process is cleared only if it was the exited one. Buffers are untouched, and the inactivity check follows. |
| LogRouter.Flush | lib/daemon/logger.js:66-90 | An application without a buffer is not touched. Without a current process, no buffer changes, and a spawn is requested exactly when the buffer owes lines and no process is owned. With a current process, the owed lines are delivered in order and the cursor moves to the end. |
| LogRouter.FlushAll | lib/daemon/logger.js:92-100 | Without a current process nothing happens. All buffers stay valid. |
| LogRouter.FlushEach | lib/daemon/logger.js:97-99 | Flushing the named buffers in turn keeps every buffer valid. |
| LogRouter.FlushKeepsValid | lib/daemon/logger.js:66-90 | Flushing keeps every buffer valid, and keeps their number and names. |
| LogRouter.OnLoggerMove | lib/daemon/logger.js:47-59 | A move into `running` makes the process current and flushes every buffer. A move of the current process into `marked` or `old` clears it. A move into any generation other than `running` changes neither ownership nor buffers, and a move of a process that is not current changes nothing. |
| LogRouter.CreateLogsForApp | lib/daemon/logger.js:224-245 | An unknown application gets a new empty buffer, last. A known one gets its descriptor refreshed in place. Ownership is untouched. |
| LogRouter.AddProcess | lib/daemon/logger.js:102-108 | Adding a process is creating or refreshing its application's buffer and nothing else: ownership and the current process are kept, and the application then has a buffer. |
| LogRouter.RemoveProcess | lib/daemon/logger.js:110-122 | A process whose application has no buffer changes nothing. Otherwise the application is flushed. |
| LogRouter.Push | lib/daemon/logger.js:156-162 | A line of an application without a buffer is dropped silently. Otherwise it is pushed into that application's buffer and the push's notices are announced. Ownership and buffer names are kept. |
| LogRouter.Log | lib/daemon/logger.js:151-154 | A process of an application without a buffer logs nothing and changes nothing. Logging keeps every buffer valid and never adds, removes or reorders buffers. |
| LogRouter.PushLine | lib/daemon/logger.js:139-149 | A non-zero truncation count of an output chunk is always announced, even when the application has no buffer, in which case nothing else happens. Buffers stay valid and keep their names and order. |
| LogRouter.ExitText | lib/daemon/logger.js:271-274 | The exit line's text starts with `code=`. |
| LogRouter.EventLog | lib/daemon/logger.js:248-279 | `ready`, `stop`, `kill`, `output` and a move to no generation produce no described line. `exit` and `moved` lines come exactly from exits and from moves into a generation. |
| LogRouter.OnProcessEvent | lib/daemon/logger.js:248-279 | Every event keeps the buffers valid. An event the logger does not listen to changes nothing. |
| LogRouterProofs.FlushKeepsInv | lib/daemon/logger.js:66-90 | Flushing keeps the logger's invariant: processes owned once, current one owned, one buffer per application, every buffer valid. The current process is kept. |
| LogRouterProofs.PushKeepsInv | lib/daemon/logger.js:156-192 | Pushing keeps the invariant and the current process. |
| LogRouterProofs.LogKeepsInv | lib/daemon/logger.js:151-154 | Logging keeps the invariant and the current process. |
| LogRouterProofs.ProcessEventKeepsInv | lib/daemon/logger.js:248-279 | Every event of a logged process keeps the invariant and the current process. |
| LogRouterProofs.CreateLogsKeepsInv | lib/daemon/logger.js:224-245 | Creating or refreshing a buffer keeps one buffer per application. |
| LogRouterProofs.FlushEachKeepsOwners | lib/daemon/logger.js:92-100 | `flushAll` keeps ownership, the current process and the buffer names. |
| LogRouterProofs.MoveKeepsInv | lib/daemon/logger.js:47-59 | A move of an owned logging process keeps the invariant. |
| LogRouterProofs.ExitKeepsInv | lib/daemon/logger.js:37-45 | An exit of a logging process keeps the invariant. |
| LogRouterProofs.StepKeepsInv | lib/daemon/logger.js:35-58 | Every handler keeps the invariant, provided every move into `running` is made by a logging process that has not exited. Under that premise the current process is always null or an owned one. |
| LogRouterProofs.ExitedLoggerMovedIntoRunning | lib/daemon/logger.js:37-58 | The premise is needed: the exit handler stops owning a logging process but leaves its move listener attached, so an exited logging process moved into `running` becomes current without being owned, and the invariant fails. |
| LogRouterProofs.CurrentChangesOnlyByLoggerEvents | lib/daemon/logger.js:35-58 | A process becomes current only by moving into `running`. The current process is cleared only by its own exit, or by its move into `marked` or `old`. |
| LogRouterProofs.BuffersAreNeverDropped | lib/daemon/logger.js:224-245 | No handler removes or reorders a buffer. A new buffer only goes last. |
| LogRouterProofs.CreateLogsExtends | lib/daemon/logger.js:224-245 | Creating a buffer only appends. |
| LogRouterProofs.EventKeepsNames | lib/daemon/logger.js:248-279 | Events of logged processes never change the set or order of buffers. |
| LogRouterProofs.NeverInactiveOnceBuffered | lib/daemon/logger.js:124-137 | Once a buffer exists, the inactivity check after any handler does nothing. |
| LogRouterProofs.FlushOneDelivers | lib/daemon/logger.js:66-90 | Flushing an application by name with a current process delivers exactly that buffer's owed lines and marks that buffer delivered. |
| LogRouterProofs.FlushEachDelivers | lib/daemon/logger.js:92-100 | Flushing the buffers from position `j` on delivers their owed lines, buffer by buffer, and marks each delivered. |
| LogRouterProofs.FlushAllDelivers | lib/daemon/logger.js:92-100 | With a current process, `flushAll` delivers every owed line of every buffer exactly once, in creation order. Afterwards nothing is owed. |
| LogRouterProofs.RunningLoggerReceivesBacklog | lib/daemon/logger.js:47-52 | A logging process moving into `running` becomes current and receives the whole backlog. |
| ScalePlanner.OfApp | lib/cli/scale.js:7-11 | The filter keeps exactly the processes of that application. |
| ScalePlanner.Sort | lib/cli/scale.js:16 | The result is sorted by instance number and is a permutation of the input. |
| ScalePlanner.InsertKeepsSorted | lib/cli/scale.js:16 | Insertion keeps a list sorted by instance number. |
| ScalePlanner.InsertIsStable | lib/cli/scale.js:16 | Inserting into a sorted list puts the new process behind every process with its number. |
| ScalePlanner.SortIsStable | lib/cli/scale.js:16 | Processes sharing an instance number keep the order they were listed in. |
| ScalePlanner.Considered | lib/cli/scale.js:14-16 | The considered processes are the application's `running` and `new` processes together, sorted by number. |
| ScalePlanner.Stops | lib/cli/scale.js:19-29 | There are `max(0, count - instances)` stops; the `k`-th stops the process `k` places from the end of the sorted list. |
| ScalePlanner.Starts | lib/cli/scale.js:31-41 | There are at most `instances` starts. |
| ScalePlanner.PlanApp | lib/cli/scale.js:19-41 | One application's plan starts with exactly `max(0, count - instances)` stops and holds nothing but starts after them. Every start is of the application, below its instance count. |
| ScalePlanner.PlanApps | lib/cli/scale.js:13-42 | Every planned action is for one of the applications: a stop of one of its considered processes, or a start of one of its instance numbers. |
| ScalePlanner.Plan | lib/cli/scale.js:3-45 | The same holds for the whole selection. |
| ScalePlanner.ConsideredAreTheApplications | lib/cli/scale.js:7-15 | A process is considered exactly when it belongs to the application and is listed in `running` or `new`. |
| ScalePlanner.StartsAreTheFreeNumbers | lib/cli/scale.js:31-41 | A start with number `i` is planned exactly when `i < instances` and no considered process has number `i`. Starts are ascending, each number at most once. |
| ScalePlanner.PlanAppShape | lib/cli/scale.js:13-42 | For one application, all stops come first, `max(0, count - instances)` of them. They stop the tail of the sorted list, highest first, so no kept process has a higher number than a stopped one. The starts are the free numbers below `instances`. |
| ScalePlanner.StoppedNumbersAreNotRestarted | lib/cli/scale.js:31-33 | A number held by a process being stopped is not started again. |
| ScalePlanner.PlanAppsAppend | lib/cli/scale.js:13-42 | Applications are planned in selection order, each plan after the previous ones. |
| ScalePlanner.StopsInPlace | lib/cli/scale.js:19-29 | The source's count-down loop stops the processes at positions `count-1` down to `instances`. |
| ScalePlanner.StartsInPlace | lib/cli/scale.js:31-41 | The source's count-up loop produces exactly the planned starts. |
| ScalePlanner.PlanAppInPlace | lib/cli/scale.js:19-41 | The two loops together give one application's plan, stops first. |
| ScalePlanner.PlanInPlace | lib/cli/scale.js:3-45 | The loop over applications gives the whole plan. |
| StopPlanner.Plan | lib/cli/stop.js:3-18 | There is one action per selected process, in order. Each action has the requested name and the process's id as its only argument. An empty selection gives no action. |
| StopPlanner.PlanAddressesSelection | lib/cli/stop.js:8-14 | The plan addresses exactly the selected ids, in order, and every action has the requested name. |
| StopPlanner.PlanDistributes | lib/cli/stop.js:8-14 | Planning a concatenated selection plans each part in turn. |

## Left out

- Spawning the OS child (`createProcess`, `cluster.setupMaster`, `cluster.fork`) and the stdio and IPC wiring are not modelled. They are OS work, so the model has a `ForkChild` effect, a `child` flag and the pid as a parameter.
- Real timers, `setImmediate` and `Date.now()` are not modelled. They become effects, explicit inputs and integer parameters.
- The listener plumbing of `EventEmitter` is not modelled. This covers attaching and removing the listeners in `addProcess`, `removeProcess` and `processEvents`. Only the mapping from events to log lines is modelled.
- The `output` listener on logging processes is left out, because it only calls `daemon.log`.
- `_onError` is left out, because it emits the error object as the event name, so the logger's `error` listener never receives it. The `error` listener is left out too.
- `daemon.spawn`, `daemon.log` and `daemon.err` are foreign calls. Spawning is a parameter, the id of the new process or nothing. A failed spawn is the `SpawnFailed` action.
- The JSON text of the logger key is not modelled. The key is a list of parts, and the logger reads name, cwd and arguments from it.
- Removing a buffer is not modelled, because no code in the logger removes one.
- `filterInfo` is not part of this model. Its result is the planners' input.
- Numbers are unbounded integers. Instance counts are natural numbers. A negative count would make the source read `running[-1]`. Non-integer counts are not modelled.
- The exit code is an integer, so a `null` exit code is not modelled.
- A move to no generation logs nothing in the model. The source would throw on `gen.name`.
- Texts are sequences of Unicode scalar values, so lone UTF-16 surrogates are not modelled.
- When an exit is logged, the model gives the same spawn answer to both flushes that follow it.
- `toString` and the repository's mocha test files are not modelled.
- LogRouter.Log: the contract does not restate what is pushed and flushed when the buffer exists. `Push` and `Flush` state that.
- LogRouter.PushLine: the contract does not restate the pushed line and the flush when the buffer exists. `Push` and `Flush` state those.
- LogRouter.OnProcessEvent: the contract does not state which line each described event logs. That mapping is stated by `EventLog`.
- LogRouterProofs.StepKeepsInv: assumes that an exited logging process is never moved into `running` again. The generations that issue moves are not part of this model, and `LogRouterProofs.ExitedLoggerMovedIntoRunning` shows that without the assumption the current process can be one the logger no longer owns.
- LogRouter.FlushEach: the contract states only that buffers stay valid. What each turn delivers is stated by `LogRouterProofs.FlushEachDelivers`, and what it keeps by `LogRouterProofs.FlushEachKeepsOwners`.
- ScalePlanner.Starts: the contract states only the count. Which numbers are started is stated by `ScalePlanner.StartsAreTheFreeNumbers`.
- LogRouter.FlushAll: the contract states only the case without a current process and validity. Delivery is stated by `LogRouterProofs.FlushAllDelivers`.
- LogRouter.ExitText: only the `code=` prefix is stated. That the code reads back is stated by `Decimal.NatTextRoundTrip` and `Decimal.IntTextInjective`.

## Findings

| source | as written | input that shows it | evidently intended | confidence | as-written member | corrected member |
|---|---|---|---|---|---|---|
| lib/daemon/process.js:77-83 | The message listener registered is `onMessage` bound to the process, while `removeListener` is handed the unbound `onMessage`, so nothing is removed and every later `ready` message runs `_onReady` again | `ready-on: message`, no start delay; the child is spawned, the process moves into a generation, and the child sends `ready` twice: the generation hears `_ready` twice and `ready` is emitted twice | the listener detaches after the first `ready` message, as the `once` listener of listening mode does, so the generation hears `_ready` at most once | high; not executed | SupervisionProofs.RepeatedReadyMessageNotifiesTwice | Supervision.ChildReportsOnce |

The whole-run lemmas take the listener as a parameter. `RunPreservesInv`
and `SynthesizedExitsBounded` hold for both. `ReadyNotifiedAtMostOnce`
proves the at-most-once property for `ChildReportsOnce`, and for the
source's listener only in listening mode.

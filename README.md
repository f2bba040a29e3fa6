# fitkit-build-server, modelled in Dafny

A model of the job bookkeeping and project staging of the FITkit build
server, with proofs of its properties. The server receives FITkit projects
(FPGA VHDL sources and MCU C sources) from clients, stages them into
temporary directories, generates the build files, and runs builds and
simulations inside a bounded number of slots. The project covers two
generations of the server:

- **Current tree** (`src/job`, `src/platforms/fitkit2`):
  - `queue.ts` is the admission queue, with a global cap, per-pool caps,
    position broadcasts and a cached statistics snapshot (module
    `JobQueue`).
  - `job.ts` is the job life cycle: validation, `begin`, `terminate` and
    the three flags (module `Jobs`).
  - `display.ts` is the VNC display session (module `VncDisplay`).
  - `projectFiles.ts` and `project-config.ts` are project staging (modules
    `LocalNames`, `Staging` and `ProjectDirs`).
  - The build-file generators (modules `BuildFiles`, `Makefiles`,
    `PrjFiles` and `XstFiles`).
- **Legacy tree** (`src/build`, `src/simulation`, `src/connection`,
  `src/project`):
  - The build and simulation registries, with their static `Queue` and
    `Active` lists (modules `Builds`, `Simulations` and `Admissions`).
  - The legacy display, which has the same logic as the current one and
    shares `VncDisplay`.
  - The connection state machine (module `Connections`).
  - The legacy `Project` and the legacy build files.

Shared support modules:

- `Wrappers`: `Option` and `Result`.
- `Lists`: `filter(x => x !== y)` and distinctness.
- `JsText`: JavaScript `split`, `trim` and `parseInt`, and number
  rendering.
- `ProjectModel`: project data and the file-system log.

How the model is built:

- **Classes for mutated state.** Each class whose fields the source
  updates in place is a Dafny `class`:
  - `JobQueue.Queue`, `Jobs.Job` and `VncDisplay.Display`;
  - `Builds.BuildRegistry` and `Simulations.SimulationRegistry`;
  - `Connections.Connection` and `Connections.ActiveConnections`;
  - `ProjectDirs.ProjectFiles`, `ProjectDirs.ProjectConfig` and
    `ProjectDirs.LegacyProject`.

  Their methods are proved against step functions on a value of the whole
  state. The lemmas about those functions carry the properties.
- **Static arrays.** The static `Queue`/`Active` arrays of a registry
  become fields of one registry object.
- **Per-object fields.** The fields of each build or simulation object
  become sets and maps keyed by the object's id.
- **Object identity.** JavaScript identity (`!==`) becomes a unique id.
- **Logs of what happens.**
  - Everything a component emits or does to a process is appended to an
    event log.
  - Everything written to the file system is appended to the `FsOp` log
    of a `Disk`.
  - Everything a connection sends is appended to its `outbox`.
- **Path joining.** `path.join` is `/`-concatenation of the non-empty
  parts, with `.` for two empty parts. It does not normalise.
- **Line ends.** `os.EOL` is `"\n"`.
- **Numbers.** A JavaScript number is a `JsNumber`: an integer, or `NaN`.

## Model

| member | source | states |
|---|---|---|
| JobQueue.Queue.constructor | src/job/queue.ts:10-12 | Both lists start empty, there is no snapshot, the snapshot time is the time of loading, and the queue invariant holds. |
| JobQueue.Queue.QueueJob | src/job/queue.ts:18-23 | The job is appended to the pending list and subscribed to its own end, then exactly one admission pass runs. The new lists and the signals are those of that pass, and the lists stay free of repeats. |
| JobQueue.Queue.RemoveJob | src/job/queue.ts:31-35 | Every occurrence of the job leaves both lists, then one pass runs. The job is in neither list afterwards. |
| JobQueue.Queue.UpdateQueue | src/job/queue.ts:41-68 | The lists become those of one admission pass. The signals are the `ready()` calls, then the positions if anything was admitted. |
| JobQueue.Queue.GetStats | src/job/queue.ts:76-120 | Within the 30 s window a stored snapshot is returned and nothing changes. Otherwise a fresh count is returned and stored with time `now`. |
| JobQueue.RunPass | src/job/queue.ts:42-67 | The loop body of `updateQueue` computes exactly `Pass`. It then sends the ready signals, and the positions only when some job was admitted. |
| JobQueue.AdmissionPass | src/job/queue.ts:44-61 | The index loop with `splice` and `i--` leaves the pending and active lists of `Pass`. It calls `ready()` once per admitted job, in admission order. |
| JobQueue.Pass | src/job/queue.ts:44-61 | A pass splits the pending jobs into those left pending and those admitted. The active list grows by exactly the admitted ones. With the global cap already reached, nothing moves. |
| JobQueue.AnnouncePositions | src/job/queue.ts:65-67 | Pending job k hears position k + 1 and the pending count, in order. |
| JobQueue.PassMovesJobs | src/job/queue.ts:56-59 | Admitted jobs are appended to the active list. The pending and admitted jobs are an order-preserving split of the old pending list, so the pass is a permutation of the jobs. |
| JobQueue.PassAppendsAdmitted | src/job/queue.ts:57 | The active list after a pass is the old one followed by the admitted jobs. |
| JobQueue.PassInterleaves | src/job/queue.ts:58-59 | Splicing out admitted jobs keeps both the remaining and the admitted jobs in their original relative order. |
| JobQueue.PassKeepsJobsUnique | src/job/queue.ts:56-59 | If no job is repeated across the two lists before a pass, none is after it. |
| JobQueue.RemovalKeepsUnique | src/job/queue.ts:31-34 | Removal keeps the lists free of repeats, and the pass that follows never brings the removed job back. |
| JobQueue.PassRespectsGlobalCap | src/job/queue.ts:45 | With `maxJobs > 0` and the active count at most `maxJobs`, the active count stays at most `maxJobs`. |
| JobQueue.PassRespectsPoolCap | src/job/queue.ts:48-54 | A capped pool's active count never ends above the larger of its cap and its count before the pass. |
| JobQueue.PassLeavesOnlyBlockedJobs | src/job/queue.ts:44-54 | After a pass, every job left pending is blocked: by the global cap or by its own full pool. A full pool never blocks the jobs behind it. |
| JobQueue.PoolFullNotAdmitted | src/job/queue.ts:48-53 | A job whose pool is full at the start of a pass is not admitted by it. |
| JobQueue.PassIsFifoWithinPool | src/job/queue.ts:44-60 | Within one pool, a later job is admitted only if every earlier job of that pool is. |
| JobQueue.Without | src/job/queue.ts:32-33 | `filter(j => j !== job)` removes every occurrence of the job and keeps the count of every other job. |
| JobQueue.WithoutIdempotent | src/job/queue.ts:32-33 | Removing a job twice is the same as removing it once. |
| JobQueue.FirstOf | src/job/queue.ts:90-96 | The first job of (platform, name) exists exactly when one is counted, and it has that platform and name. |
| JobQueue.TallyJobs | src/job/queue.ts:86-99 | The counting loop equals the fold of `Bump` over the jobs. |
| JobQueue.BumpEntry | src/job/queue.ts:87-98 | The loop body creates missing platform and job entries, with the job's display name and zero counters, then increments one counter. |
| JobQueue.BumpEntryOf | src/job/queue.ts:87-98 | Counting one job changes only the entry of its own (platform, name), by one. |
| JobQueue.TallyEntry | src/job/queue.ts:86-115 | Counting a list adds exactly the number of matching jobs to an entry. A new entry takes the display name of the first matching job. |
| JobQueue.ComputeStats | src/job/queue.ts:82-115 | The snapshot has an entry for a (platform, name) pair exactly when some active or pending job has that pair. |
| JobQueue.StatsCountJobs | src/job/queue.ts:82-115 | The snapshot has an entry exactly for the (platform, name) pairs present. `running` counts active jobs and `queue` counts pending ones. The display name comes from the first job seen, with active jobs first. |
| Jobs.Validate | src/job/job.ts:49-62 | Validation succeeds exactly when the platform, the job and the container are known and the argument count matches, and then gives the job's configuration. Otherwise it reports the first failing check. The platform error comes exactly when the platform is unknown. The job error comes exactly when the platform is known and the job is not. The container error comes exactly when the job is known and its container is not. The count error, with differing expected and given counts, comes only after the container check passed. |
| Jobs.DockerArgs | src/job/job.ts:88-107 | The arguments are `run -v <path>:/project`, then the X11 mount (X11 only), then `containerArgs`, `sharedArgs` and `containerPostArgs`. User arguments come last, and only for X11 jobs. |
| Jobs.ErrorMessage | src/job/job.ts:49-62 | Every message ends with `)`. Only the wrong-count message starts with `W`. The ninth character tells the platform (`p`), job (`j`) and container (`c`) errors apart. The platform message carries the platform name inside the parentheses. |
| Jobs.Job.ActiveMeansBegunNotEnded | src/job/job.ts:35-37 | `active` (`started && !terminated`) holds exactly when a `begin` has been emitted and no `end` yet. |
| Jobs.Job.constructor | src/job/job.ts:39-63 | For an accepted configuration, the job starts with all flags false, no process and no events. |
| Jobs.Job.Ready | src/job/job.ts:68-70 | Emits `ready` and changes no flag. |
| Jobs.Job.Begin | src/job/job.ts:87-121 | An X11 job without a display number emits the failure and then runs `terminate`. If already terminated, nothing more happens. A live process is only killed. Otherwise the job ends terminated, with its display terminated and `end(exitCode)` last. It neither starts nor spawns. Any other job sets `started`, emits `begin(token)` and spawns docker with `DockerArgs`, in that order. |
| Jobs.Job.Terminate | src/job/job.ts:126-137 | Once terminated it does nothing. While a started process has not exited it only kills that process. Otherwise it sets `terminated`, the current display takes its terminate step with its effects logged, and `end(exitCode)` is emitted last with the code unchanged. Events are only appended. |
| Jobs.Job.MissDisplay | src/job/job.ts:94-97 | Emits the failure, then runs `terminate`. If already terminated, nothing more happens. A live process is only killed. Otherwise the job ends terminated, with its display terminated and `end(exitCode)` last. |
| Jobs.Job.StartProcess | src/job/job.ts:104-108 | Sets `started`, emits `begin(token)`, then spawns docker with the given arguments. The job has one more process. |
| Jobs.Job.Finish | src/job/job.ts:134-136 | Sets `terminated`. The current display takes its terminate step with its effects logged. Then `end(exitCode)` is emitted. |
| Jobs.Job.TerminateDisplay | src/job/job.ts:135 | The current display takes its own terminate step, and its effects are logged. |
| Jobs.Job.SourceFilesReady | src/job/job.ts:75-82 | As written: a non-X11 job spawns at once. A display is created for every job, and its `ready` begins the job. |
| Jobs.Job.SourceFilesReadyCorrected | src/job/job.ts:75-82 | As intended: a non-X11 job spawns once and gets no display. An X11 job gets a display and does not spawn yet. |
| Jobs.Job.OnDisplayData | src/job/display.ts:86-96 | Data from display k moves that display by its fd-3 step. No job flag changes. |
| Jobs.Job.OnDisplayHelperDone | src/job/job.ts:80 | The display announces `ready(number)` and its listener begins the job. A non-X11 job, or the current display's job, starts and spawns. |
| Jobs.Job.OnDisplayClose | src/job/job.ts:81 | A display's `close` terminates the job. A live process is only killed. Otherwise the job ends up terminated. |
| Jobs.Job.OnProcessExit | src/job/job.ts:110-114 | The exit sets `exited` and `exitCode`, and the job ends terminated. A job not already terminated emits `end(code)`, and `end` has been emitted exactly once. |
| Jobs.Job.OnProcessLine | src/job/job.ts:116-120 | A process line is re-emitted as `stdout` or `stderr`, and nothing else changes. |
| Jobs.NonX11JobBeginsTwice | src/job/job.ts:75-81 | As written, a non-X11 job whose display then becomes ready spawns docker twice. |
| Jobs.NonX11JobBeginsOnce | src/job/job.ts:75-81 | With the corrected `sourceFilesReady`, the same job spawns once and has no display. |
| VncDisplay.Initial | src/job/display.ts:44-57 | A new display has its token, no number, no token file, no kill and no helper run. |
| VncDisplay.OnData | src/job/display.ts:86-96 | Rejected data changes nothing. An accepted number is stored, and one token-helper run starts with the token and the token folder. The token, the token file, the kill and the exit are untouched, and consistency is kept. |
| VncDisplay.OnHelperDone | src/job/display.ts:98-102 | The trimmed helper output becomes the token file and one helper run ends. `ready(number)` is the only effect. |
| VncDisplay.OnClose | src/job/display.ts:68-80 | The process has exited, and `close(code)` is always the last effect. A recorded non-empty token file is unlinked first. There is one more effect, the logged failure, exactly when the unlink fails. No SIGTERM and no `ready` are produced. |
| VncDisplay.OnTerminate | src/job/display.ts:108-111 | SIGTERM is sent exactly when the process is neither killed nor exited. Afterwards the process counts as killed unless it had already exited. The number, the token file and the exit are untouched. |
| VncDisplay.AcceptNumber | src/job/display.ts:87-88 | The trimmed text is accepted exactly when it is the rendering of its own `parseInt`: canonical decimal, or `NaN`. The value renders back to that text. The legacy twin is src/simulation/Display.ts:89-90. |
| VncDisplay.PortOf | src/job/display.ts:37-41 | The port is undefined exactly when the number is, and is 5900 + number otherwise. `NaN` stays `NaN`. |
| VncDisplay.HelperGetsPort | src/job/display.ts:89-96 | An accepted number is stored, and the token helper runs with (token folder, token, port as decimal text). |
| VncDisplay.RejectedDataIgnored | src/job/display.ts:87-88 | Rejected data changes nothing and does nothing. |
| VncDisplay.TerminateIdempotent | src/job/display.ts:108-111 | A second terminate does nothing. |
| VncDisplay.CloseAlwaysReported | src/job/display.ts:68-80 | Closing always ends with `close(code)`, even when unlinking fails. The token file is unlinked exactly when one is recorded. |
| VncDisplay.SigtermAtMostOnce | src/job/display.ts:108-111 | Over any sequence of inputs SIGTERM is sent at most once, and never after the process was already killed. |
| VncDisplay.ReadyOnlyAfterHelper | src/job/display.ts:91-102 | Over any sequence of inputs, the `ready` announcements never outnumber the helper runs started plus those already running. |
| VncDisplay.Display.constructor | src/job/display.ts:44-62 | The object starts in the state `Initial(token)` with no effects. |
| VncDisplay.Display.Port | src/job/display.ts:37-41 | The `port` getter is `PortOf` of the current number. |
| VncDisplay.Display.ReceiveDisplayNumber | src/job/display.ts:86-96 | The fd-3 handler takes the `OnData` step, up to the helper call. |
| VncDisplay.Display.TokenHelperDone | src/job/display.ts:98-102 | When the helper returns, the trimmed token file is recorded, then `ready(number)` is emitted. |
| VncDisplay.Display.CloseEvent | src/job/display.ts:68-80 | The process `close` handler takes the `OnClose` step. The code may be undefined. |
| VncDisplay.Display.Terminate | src/job/display.ts:108-111 | `terminate` takes the `OnTerminate` step. SIGTERM reaches the server only while it is neither killed nor exited. |
| Admissions.AdmitFillsToLimit | src/simulation/Simulation.ts:57-65 | The `<` loop admits from the head, in order, each once. It never pushes the active count past the limit, and stops short of the limit only when the queue is empty. |
| Admissions.AdmitDone | src/simulation/Simulation.ts:59-61 | The loop ends at the limit or at an empty queue, and changes nothing there. |
| Admissions.AdmitTurn | src/simulation/Simulation.ts:60-64 | One turn shifts the head onto the active list and keeps what is left to admit. |
| Builds.StartEvents | src/build/Build.ts:66-68 | Each started build emits `ready` and then has its `make` spawned. That is two events per build, in admission order, and nothing else. |
| Builds.Positions | src/build/Build.ts:55-57 | Queued build i hears `queue(i + 1)`. |
| Builds.PassEvents | src/build/Build.ts:45-58 | A queue pass emits no `close` and kills nothing. |
| Builds.ExitResult | src/build/Build.ts:85-104 | `ExitStatus` is the exit code, or undefined when the process gave none. Binaries are present only for code 0, each exactly when its read succeeded. |
| Builds.CheckQueueStep | src/build/Build.ts:45-58 | A pass changes only the two lists, the started builds and the log. The log only grows, and never by a `close` or a kill. |
| Builds.TerminateStep | src/build/Build.ts:112-123 | The build ends terminated, and a spawned build ends killed. The log only grows. Listeners still attached hear `close(-1)`. |
| Builds.Closing | src/build/Build.ts:119-122 | Emits `close(-1)` first if listeners are attached, and no `close` otherwise. It kills unless already killed, so there are at most two new events. Nothing changes but the log and this build's kill. |
| Builds.CloseEventStep | src/build/Build.ts:84-110 | The build ends exited, terminated and without `close` listeners. Listeners that were attached hear the exit result first. The log only grows. |
| Builds.CheckQueueQuiet | src/build/Build.ts:45-58 | A queue pass changes no close count and no kill count. |
| Builds.Doubled | src/build/Build.ts:51-63 | The double push (`CheckQueue`, then `Start`) makes the pushed list twice as long, with exactly the same builds in it. |
| Builds.AdmitAsWritten | src/build/Build.ts:47-53 | As written, a pass takes a prefix of the queue and puts each taken build twice into `Active`. With limit L and nothing running, that is L / 2 + 1 builds. |
| Builds.LimitThreeRunsTwo | src/build/Build.ts:47-63 | With limit 3 and three builds queued, only two run (each listed twice) and the third waits. |
| Builds.EmptyValid | src/build/Build.ts:23-24 | The empty registry satisfies the registry invariant. |
| Builds.CreateKeepsValid | src/build/Build.ts:35-43 | The constructor appends the build to the queue and keeps the invariant. |
| Builds.CheckQueueKeepsValid | src/build/Build.ts:45-58 | A queue pass keeps the invariant. |
| Builds.CheckQueueLeaves | src/build/Build.ts:45-58 | A pass never brings back a build that left both lists. It changes no flag of that build except through admission, and only appends events. |
| Builds.TerminateStops | src/build/Build.ts:112-123 | After `Terminate` the build is neither running nor queued. Its listeners heard one more `close` unless they were removed, and its process was killed once if it was ever spawned. |
| Builds.ClosingCounts | src/build/Build.ts:119-122 | `close(-1)` is heard unless the listeners are gone, and the kill happens at most once. |
| Builds.NaturalExitHeardOnce | src/build/Build.ts:84-110 | When an unterminated build exits by itself, its listeners hear exactly one `close`, carrying the exit result. |
| Builds.TerminatedThenExitHeardTwice | src/build/Build.ts:107-123 | When a terminated build's process then exits, the listeners hear a second `close`. |
| Builds.TerminatedThenExitHeardOnceCorrected | src/build/Build.ts:107-123 | Corrected, `Terminate` also detaches the `close` listeners, so terminate-then-exit is heard once. |
| Builds.BuildRegistry.constructor | src/build/Build.ts:23-24 | The registry starts with empty `Queue` and `Active`. |
| Builds.BuildRegistry.Create | src/build/Build.ts:35-43 | `new Build(path)` appends to `Queue`. |
| Builds.BuildRegistry.Start | src/build/Build.ts:60-82 | `Start` filters the build out of `Queue` and pushes it onto `Active`. It emits `ready` and spawns `make`. |
| Builds.BuildRegistry.CheckQueue | src/build/Build.ts:45-58 | `CheckQueue` is exactly `CheckQueueStep`: the `<=` admission loop, then the positions. |
| Builds.BuildRegistry.AdmitQueued | src/build/Build.ts:47-53 | The `while` loop (shift, push, `Start`) leaves the result of `Admit`. |
| Builds.BuildRegistry.AnnouncePositions | src/build/Build.ts:55-57 | The `for` loop sends `queue(i + 1)` to each queued build. |
| Builds.BuildRegistry.Terminate | src/build/Build.ts:112-123 | `Terminate` is exactly `TerminateStep`. |
| Builds.BuildRegistry.Close | src/build/Build.ts:119-122 | The last two statements of `Terminate`: emit `close(-1)`, then kill unless already killed. |
| Builds.BuildRegistry.CloseEvent | src/build/Build.ts:84-110 | The exit handler emits the result, removes the `close` listeners, and terminates unless already terminated. |
| Simulations.StartEvents | src/simulation/Simulation.ts:63-64 | Each admitted simulation gets its display created, in admission order. |
| Simulations.Positions | src/simulation/Simulation.ts:67-69 | Queued simulation i hears `queue(i + 1)`. |
| Simulations.CheckQueueStep | src/simulation/Simulation.ts:57-70 | A pass changes only the two lists, the displays and the log. The log only grows. |
| Simulations.DisplayReadyStep | src/simulation/Simulation.ts:94-108 | The lists and the flags stay. The window manager and isim are live, and `ready` is the last of two new events. |
| Simulations.StopChildrenStep | src/simulation/Simulation.ts:116-118 | The children the simulation spawned end killed, and so does its display. Both lists and the other simulations' kills stay. At most two events are added. |
| Simulations.StopDisplayStep | src/simulation/Simulation.ts:118 | The display created by `Start` ends killed. One kill event is logged exactly when it existed and was not yet killed. |
| Simulations.TerminateStep | src/simulation/Simulation.ts:113-126 | The simulation ends terminated, with its children and its display killed. `close` is the last new event. |
| Simulations.ProcessClosedStep | src/simulation/Simulation.ts:86-88 | A terminated simulation ignores a child's close. Otherwise the simulation ends terminated with `close` last. |
| Simulations.EmptyValid | src/simulation/Simulation.ts:21-22 | Empty lists satisfy the invariant. |
| Simulations.CreateKeepsValid | src/simulation/Simulation.ts:43-50 | The constructor appends to `Queue` and keeps the invariant. |
| Simulations.CheckQueueLists | src/simulation/Simulation.ts:57-65 | A pass moves a prefix of the queue onto `Active`, once each, up to the limit. |
| Simulations.CheckQueueEvents | src/simulation/Simulation.ts:57-70 | A pass emits no `close`, and records the display creation of each admitted simulation. |
| Simulations.CheckQueueFills | src/simulation/Simulation.ts:57-70 | A pass admits from the head, in order, until the limit is reached or no simulation is left waiting. It creates each admitted display, emits no `close`, and keeps the invariant. |
| Simulations.StopChildrenCounts | src/simulation/Simulation.ts:116-118 | Terminating the children kills the display once if it exists, and touches neither list. |
| Simulations.StopSpawnedQuiet | src/simulation/Simulation.ts:116-117 | Killing isim and the window manager changes nothing that the other properties count. |
| Simulations.TerminateStops | src/simulation/Simulation.ts:113-126 | After `Terminate` the simulation is neither running nor queued. It emits exactly one more `close` whether or not it was already terminated, and its display was killed once if it had one. |
| Simulations.PrepareTerminate | src/simulation/Simulation.ts:114-122 | Everything before the re-check takes the simulation off both lists and sets `Terminated`, with no `close` yet. |
| Simulations.EmitClose | src/simulation/Simulation.ts:125 | The final `close` is one more and changes nothing else. |
| Simulations.LeaveLists | src/simulation/Simulation.ts:121-122 | Filtering removes the simulation from both lists and keeps them valid. |
| Simulations.CheckQueueKeepsOut | src/simulation/Simulation.ts:121-123 | The re-check never readmits a simulation that is on neither list. |
| Simulations.TerminateTwiceClosesTwice | src/simulation/Simulation.ts:113-126 | `Terminate` has no guard, so two calls emit two `close` events. |
| Simulations.ChildClosesHeardOnce | src/simulation/Simulation.ts:86-88 | The first child close terminates the simulation with one `close`, and every later child close does nothing. |
| Simulations.DisplayReadyKeepsValid | src/simulation/Simulation.ts:94-108 | `DisplayReady` spawns the window manager and isim and then emits `ready`, keeping the invariant. |
| Simulations.ReadyAfterTerminate | src/simulation/Simulation.ts:94-126 | A display becoming ready after `Terminate` still spawns the children and emits `ready` after `close`, and later child closes do not kill them. |
| Simulations.SimulationRegistry.constructor | src/simulation/Simulation.ts:21-22 | The registry starts with empty lists. |
| Simulations.SimulationRegistry.Create | src/simulation/Simulation.ts:43-50 | `new Simulation(path)` appends to `Queue`. |
| Simulations.SimulationRegistry.Start | src/simulation/Simulation.ts:75-81 | `Start` only creates the display. |
| Simulations.SimulationRegistry.CheckQueue | src/simulation/Simulation.ts:57-70 | `CheckQueue` is exactly `CheckQueueStep`. |
| Simulations.SimulationRegistry.AdmitQueued | src/simulation/Simulation.ts:59-65 | The `while` loop leaves the result of the shared `<` admission. |
| Simulations.SimulationRegistry.AnnouncePositions | src/simulation/Simulation.ts:67-69 | The `for` loop sends `queue(i + 1)` to each queued simulation. |
| Simulations.SimulationRegistry.DisplayReady | src/simulation/Simulation.ts:94-108 | The display's `ready` handler is exactly `DisplayReadyStep`. |
| Simulations.SimulationRegistry.ProcessClosed | src/simulation/Simulation.ts:86-88 | A child close terminates only when the simulation is not yet terminated. |
| Simulations.SimulationRegistry.Terminate | src/simulation/Simulation.ts:113-126 | `Terminate` is exactly `TerminateStep`. |
| Simulations.SimulationRegistry.StopChildren | src/simulation/Simulation.ts:116-118 | The three optional-chained `Terminate` calls on the children. |
| Connections.SendStep | src/connection/Connection.ts:45-49 | A connected socket's outbox grows by the message. A closed socket changes nothing. |
| Connections.ErrorText | src/connection/Connection.ts:66 | `e.toString()` is `Error: ` followed by the message. |
| Connections.MessageStep | src/connection/Connection.ts:55-91 | The outbox and the effects only grow. An unparsable message changes nothing. `build-end` leaves no build and `isim-end` leaves no simulation, and neither touches the other job. |
| Connections.BeginStep | src/connection/Connection.ts:61-78 | The socket state stays, and the outbox and the effects only grow. An idle connection ends holding the new project. A busy one keeps its project and its jobs. |
| Connections.SetupStep | src/connection/Connection.ts:97-108 | A held project refuses with the busy error and changes nothing. Otherwise the new project is held before staging. On success its path is recorded and the mapping is sent to a connected socket. On failure nothing is sent and the staging error is returned. |
| Connections.StartBuildStep | src/connection/Connection.ts:113-140 | Succeeds exactly with a project path and no build, and a failure changes nothing. Success holds the build and records its creation and one queue check. |
| Connections.StartSimulationStep | src/connection/Connection.ts:145-177 | As written, succeeds exactly with a project path and no build, and a failure changes nothing. Success holds the simulation and sends nothing yet. |
| Connections.EndBuildStep | src/connection/Connection.ts:79-82 | The build is forgotten. Without a build nothing changes. With one, terminating it is the first new effect, and its `close` handler releases the project. |
| Connections.EndSimulationStep | src/connection/Connection.ts:83-86 | The simulation is forgotten. Without one nothing changes. With one, terminating it is the first new effect, and its `close` handler releases the project. |
| Connections.BuildClosedStep | src/connection/Connection.ts:131-137 | Sends `build-end` with the result to a connected socket, deletes a held project, and clears `Project` and `Build`. The simulation stays. |
| Connections.SimulationClosedStep | src/connection/Connection.ts:168-174 | Sends `isim-end` to a connected socket, deletes a held project, and clears `Project` and `Simulation`. The build stays. |
| Connections.ClosedStep | src/connection/Connection.ts:179-202 | The socket is closed and nothing more is sent. The project, the build and the simulation are all released. The effects only grow. |
| Connections.UnparsableIgnored | src/connection/Connection.ts:88-90 | A malformed message changes nothing and gets no reply. |
| Connections.BusyRefused | src/connection/Connection.ts:97-98 | A begin request while a project is held is refused with one `error`, and nothing else changes. |
| Connections.BuildBeginStarts | src/connection/Connection.ts:61-69 | On an idle connection, a successful `build-begin` holds the project, sends the mapping, creates the build and runs the queue. |
| Connections.BeginReportsOnce | src/connection/Connection.ts:61-78 | Every begin on a connected socket sends one `error` exactly when it fails. Only the mapping can come before that error. |
| Connections.EndTerminatesHeldJob | src/connection/Connection.ts:79-86 | `build-end`/`isim-end` terminate and forget the held job. Its `close` handler reports the end and deletes the project. Without a job nothing happens. |
| Connections.ClosedReleasesAll | src/connection/Connection.ts:179-202 | On socket close nothing more is sent. The project and both jobs are released, each held job is terminated, and the project files are deleted. |
| Connections.LateBuildCloseDropsCurrent | src/connection/Connection.ts:131-137 | A build's `close` listener does not check which build closed, so a late `close` deletes the current project and forgets the current build without terminating it. |
| Connections.FailedSetupBlocksConnection | src/connection/Connection.ts:97-103 | As written, a failed staging leaves the project held, so every later begin is refused as busy. |
| Connections.FailedSetupRecoversCorrected | src/connection/Connection.ts:97-103 | Corrected, a failed staging is reported once, its files are deleted, and the next successful begin starts a build. |
| Connections.SimulationCheckReadsBuild | src/connection/Connection.ts:145-150 | As written, `StartSimulation` checks `Build`, so a connection that still holds a simulation starts a second one over it. |
| Connections.StartSimulationKeepsHeldCorrected | src/connection/Connection.ts:145-150 | Corrected, a held simulation is never replaced. Starting succeeds exactly with a project path and no simulation held. |
| Connections.ActiveConnections.constructor | src/connection/Connection.ts:17 | `Connection.Active` starts empty. |
| Connections.Connection.constructor | src/connection/Connection.ts:29-39 | A new connection is open, holds nothing, and is appended to `Connection.Active`. |
| Connections.Connection.Send | src/connection/Connection.ts:45-49 | `Send` is exactly `SendStep`. |
| Connections.Connection.Message | src/connection/Connection.ts:55-91 | The message handler dispatches on the message type, as `MessageStep` does. |
| Connections.Connection.Begin | src/connection/Connection.ts:61-78 | The `try`/`catch` around setup and start is `BeginStep`. |
| Connections.Connection.SetupProject | src/connection/Connection.ts:97-108 | Refuses while a project is held. Otherwise it holds the new project before staging, and sends the mapping once staging succeeds. |
| Connections.Connection.StartBuild | src/connection/Connection.ts:113-140 | Needs a project path and no build. It creates the build and runs `Build.CheckQueue`. |
| Connections.Connection.StartSimulation | src/connection/Connection.ts:145-177 | Needs a project path and no build, as written. It creates the simulation and runs `Simulation.CheckQueue`. |
| Connections.Connection.OnBuildReady | src/connection/Connection.ts:120 | A build's `ready` sends `build-begin`. |
| Connections.Connection.OnBuildOutput | src/connection/Connection.ts:121-122 | A build's output lines are forwarded as `build-stdout`/`build-stderr`. |
| Connections.Connection.OnBuildQueue | src/connection/Connection.ts:123-129 | A build's position is sent with the global `Build.Queue` length. |
| Connections.Connection.OnBuildClose | src/connection/Connection.ts:131-137 | A build's `close` sends `build-end`, deletes the project, and clears `Project` and `Build`. |
| Connections.Connection.OnSimulationReady | src/connection/Connection.ts:155-158 | A simulation's `ready` sends `isim-begin` with `<VncClientUrl>?token=<token>`. |
| Connections.Connection.OnSimulationOutput | src/connection/Connection.ts:152-153 | Isim output lines are forwarded as `isim-stdout`/`isim-stderr`. |
| Connections.Connection.OnSimulationQueue | src/connection/Connection.ts:160-166 | A simulation's position is sent with the global `Simulation.Queue` length. |
| Connections.Connection.OnSimulationClose | src/connection/Connection.ts:168-174 | A simulation's `close` sends `isim-end`, deletes the project, and clears `Project` and `Simulation`. |
| Connections.Connection.EndBuild | src/connection/Connection.ts:79-82 | `build-end` is exactly `EndBuildStep`. |
| Connections.Connection.EndSimulation | src/connection/Connection.ts:83-86 | `isim-end` is exactly `EndSimulationStep`. |
| Connections.Connection.Closed | src/connection/Connection.ts:179-202 | The socket's `close` handler is `ClosedStep`, and exactly this connection leaves `Connection.Active`. |
| JsText.Split | src/job/projectFiles.ts:27 | `split` on a separator class always gives at least one piece. |
| JsText.SplitLimit | src/job/projectFiles.ts:58 | `split(".", 2)` gives the first two pieces of the full split, or fewer when there are fewer. |
| JsText.SplitCount | src/platforms/fitkit2/build-files/xst.ts:10-12 | The split has one piece more than the string has separators. |
| JsText.SplitSeveralIffSep | src/job/projectFiles.ts:27-28 | There is more than one piece exactly when a separator occurs. |
| JsText.SplitPiecesHaveNoSep | src/job/projectFiles.ts:27-29 | No piece contains a separator. |
| JsText.SplitLastIsSuffix | src/job/projectFiles.ts:29 | The popped last piece is the text after the last separator, and is shorter than the path when one occurs. |
| JsText.JoinSplit | src/platforms/fitkit2/build-files/xst.ts:10 | Joining the pieces of a one-character split with that character gives back the string. |
| JsText.Lines | src/platforms/fitkit2/build-files/prj.ts:21 | Text made of newline-terminated lines is at least as long as the number of lines. |
| JsText.SplitLines | src/platforms/fitkit2/build-files/prj.ts:21 | Text built from newline-free lines splits back into those lines. |
| JsText.JoinThenNewline | src/platforms/fitkit2/build-files/prj.ts:21 | `join(EOL) + EOL` of a non-empty list is the list as newline-terminated lines. |
| JsText.TrimSurrounded | src/job/display.ts:87 | `trim` removes exactly the surrounding white space of a trimmed core. |
| JsText.NatToDecimalIsCanonical | src/job/display.ts:88 | Rendering a number gives canonical digits, with no leading zero unless the number is 0, whose value is the number. |
| JsText.NatToDecimalInjective | src/job/display.ts:88 | Different numbers render differently. |
| JsText.CanonicalRoundTrip | src/job/display.ts:87-88 | Canonical digits are the rendering of their own value. |
| JsText.DigitPrefix | src/job/display.ts:87 | `parseInt` reads the longest run of leading decimal digits. |
| JsText.ParseIntOfIntToString | src/job/display.ts:87-88 | Parsing a rendered integer gives it back, and the rendering is canonical. |
| JsText.ParseRenderRoundTrip | src/job/display.ts:87-88 | A text survives `parseInt` then `toString` exactly when it is canonical decimal or `NaN`. |
| LocalNames.CrossPlatformBasename | src/job/projectFiles.ts:26-30 | Succeeds exactly when the path has a `/` or `\`, giving the separator-free suffix after the last one. Otherwise it fails with "Unable to create file, invalid path". Twins: project-config.ts:12-16 and Project.ts:27-31. |
| LocalNames.CandidateInjective | src/job/projectFiles.ts:60 | Different suffix numbers give different candidate names. |
| LocalNames.TakenCandidatesBound | src/job/projectFiles.ts:59-61 | If candidates 1..n are all taken, there are at least n keys, so the renaming loop ends. |
| LocalNames.FirstFreeFrom | src/job/projectFiles.ts:59-61 | The loop stops at a candidate that is not taken, and every candidate before it is taken. |
| LocalNames.FreeName | src/job/projectFiles.ts:56-63 | The local name is never a key. It is the basename if that is free, else `stem_i[.ext]` with the smallest free i >= 1. |
| LocalNames.PickLocalName | src/job/projectFiles.ts:56-62 | The `for` loop with its counter computes `FreeName`. |
| LocalNames.FirstFreeIsFirst | src/job/projectFiles.ts:59-61 | The chosen number is the first free one. |
| Staging.StageFiles | src/job/projectFiles.ts:51-67 | One write per staged file. The loop stops only on the invalid-path error, and otherwise stages every file. |
| Staging.Step | src/job/projectFiles.ts:52-66 | After an error nothing changes. Otherwise the pass fails exactly for a path without a separator, and then changes nothing. On success one file and one write are appended. The file keeps its content, and its new path is a key mapped to the original path. With renaming, that key is new. |
| Staging.StepEffect | src/job/projectFiles.ts:52-66 | One pass throws exactly for a path without a separator, and then changes nothing. Otherwise it rewrites the path, adds one entry and one write, and the local name is fresh (renaming) or the basename. |
| Staging.ErrorSticks | src/job/projectFiles.ts:53 | After the loop has thrown, later files change nothing. |
| Staging.StageFilesError | src/job/projectFiles.ts:51-53 | The loop fails exactly at the first path without a separator. All earlier files are staged and none later. Write failures are not modelled. |
| Staging.StageFilesRewrite | src/job/projectFiles.ts:53-66 | Each staged file is its input with the path replaced, and is written under the directory with its own content. A plain local name is the basename. |
| Staging.StageFilesLastWins | src/job/projectFiles.ts:87-101 | Each local name is a key. It maps to its file's original path unless a later file took the same name. |
| Staging.StageFilesKeys | src/job/projectFiles.ts:64 | The keys after the loop are the old keys plus the local names. An untouched entry keeps its value. |
| Staging.FreshLocalNames | src/job/projectFiles.ts:56-64 | With renaming, no local name was a key before, and all local names differ. |
| Staging.FreshNamesGrow | src/job/projectFiles.ts:59-64 | With renaming, the dictionary grows by exactly one entry per staged file. |
| Staging.FreshNamesNeverOverwrite | src/job/projectFiles.ts:59-64 | With renaming, every earlier entry survives, and each local name maps to its own file's original path. |
| Staging.StageLoop | src/job/projectFiles.ts:51-67 | The `for` loop leaves the dictionary, the rewritten files, the error and the writes of `StageFiles`. |
| Staging.StageOne | src/job/projectFiles.ts:52-66 | One loop body takes exactly one `Step`. |
| Staging.StageUcf | src/job/projectFiles.ts:69-73 | The UCF step stages one file on success. |
| ProjectDirs.DeleteOps | src/job/projectFiles.ts:107-111 | `delete` removes the directory exactly when `path` is truthy, and does nothing otherwise. |
| ProjectDirs.TreeStaging | src/platforms/fitkit2/project-config.ts:48-99 | Each part is present afterwards exactly when it was before. With neither part nothing is written. The only error is the invalid-path message. |
| ProjectDirs.LegacyStaging | src/project/Project.ts:42-87 | The isim file is kept, and the only error is the invalid-path message. |
| ProjectDirs.JobCreate | src/job/projectFiles.ts:35-45 | Starts with the delete of a previous directory and the `mkdir`. An empty new path stages nothing. The only error is the invalid-path message. |
| ProjectDirs.ConfigCreate | src/platforms/fitkit2/project-config.ts:42-104 | Starts with the delete and the `mkdir`. A staging error rejects with the invalid-path message. Otherwise the error is exactly that of the build files. |
| ProjectDirs.StagedWrites | src/job/projectFiles.ts:66 | The loop writes each staged file under its local name, in order. |
| ProjectDirs.UcfIsimOrder | src/job/projectFiles.ts:69-80 | The UCF is written under its basename, then the isim file. The FPGA files are untouched. |
| ProjectDirs.FpgaStagingOrder | src/platforms/fitkit2/project-config.ts:49-80 | FPGA files, then the UCF, then isim, with one file per input file. |
| ProjectDirs.McuStagingOrder | src/platforms/fitkit2/project-config.ts:83-99 | MCU files, then headers. |
| ProjectDirs.TreeStagingOrder | src/platforms/fitkit2/project-config.ts:48-99 | The whole write order: FPGA files, UCF, isim, MCU files, headers. |
| ProjectDirs.LegacyStagingOrder | src/project/Project.ts:42-87 | The legacy write order: FPGA files, MCU files, headers, then UCF and isim. |
| ProjectDirs.LegacyRestOrder | src/project/Project.ts:60-87 | After the FPGA files: MCU files, headers, UCF, isim. |
| ProjectDirs.FpgaNamesFresh | src/project/Project.ts:42-58 | The FPGA files get distinct new keys, each mapped to its own original path, and old entries survive. |
| ProjectDirs.PlainNameHasNoSeparator | src/job/projectFiles.ts:87-101 | A plain local name is a basename and has no separator. |
| ProjectDirs.IsimKeyHasSeparator | src/job/projectFiles.ts:75-79 | The isim key `<dir>/isim.tcl` has a separator, so no basename equals it. |
| ProjectDirs.McuKeeps | src/platforms/fitkit2/project-config.ts:83-99 | The MCU part keeps every entry that none of its local names took. |
| ProjectDirs.UcfIsimEntries | src/job/projectFiles.ts:69-80 | The UCF entry maps its basename to the original path. The isim entry is keyed by the full joined path. |
| ProjectDirs.ConfigUcfIsimEntries | src/platforms/fitkit2/project-config.ts:68-99 | The isim entry always survives the MCU part. The UCF entry survives unless an MCU file or header has the same basename. |
| ProjectDirs.McuNeverTakesIsimKey | src/platforms/fitkit2/project-config.ts:76-98 | No MCU local name equals the isim key. |
| ProjectDirs.ConfigHeaderOverwritesUcf | src/platforms/fitkit2/project-config.ts:68-98 | The last header's entry maps to its own original path, overwriting a UCF of the same basename. |
| ProjectDirs.LegacyUcfIsimEntries | src/project/Project.ts:76-87 | In the legacy order the UCF and isim come last, so their entries always stand. |
| ProjectDirs.WriteFpgaFiles | src/platforms/fitkit2/project-config.ts:50-66 | The FPGA loop leaves the outcome of `StageFpgaFiles` and logs its writes. |
| ProjectDirs.WriteUcfIsim | src/platforms/fitkit2/project-config.ts:68-79 | The UCF and isim statements leave the outcome of `StageUcfIsim`. |
| ProjectDirs.WriteMcu | src/platforms/fitkit2/project-config.ts:83-99 | The MCU loops leave the outcome of `StageMcu`. |
| ProjectDirs.WriteFpga | src/platforms/fitkit2/project-config.ts:49-80 | The FPGA block leaves the outcome of `StageFpga`. |
| ProjectDirs.WriteFpgaPart | src/platforms/fitkit2/project-config.ts:49-80 | The `if(fpga)` block, skipped without FPGA data. |
| ProjectDirs.WriteMcuPart | src/platforms/fitkit2/project-config.ts:83-99 | The `if(mcu)` block after the FPGA part. |
| ProjectDirs.WriteTree | src/platforms/fitkit2/project-config.ts:48-99 | The staging of `createDirectory` leaves the outcome of `TreeStaging`. |
| ProjectDirs.WriteLegacyMcuPart | src/project/Project.ts:60-74 | The legacy MCU loops. |
| ProjectDirs.WriteLegacyUcfPart | src/project/Project.ts:76-87 | The legacy UCF and isim statements. |
| ProjectDirs.WriteLegacyRest | src/project/Project.ts:60-87 | The legacy steps after the FPGA files. |
| ProjectDirs.WriteLegacy | src/project/Project.ts:42-87 | The legacy staging leaves the outcome of `LegacyStaging`. |
| ProjectDirs.StageAndBuild | src/platforms/fitkit2/project-config.ts:48-101 | Staging, then the build files, which run only when staging did not throw. |
| ProjectDirs.LegacyStageAndBuild | src/project/Project.ts:39-89 | Staging, then the build files. A build-file error does not reach the caller. |
| ProjectDirs.ProjectFiles.constructor | src/job/projectFiles.ts:18-20 | A new object has an empty dictionary and no path. |
| ProjectDirs.ProjectFiles.CreateDirectory | src/job/projectFiles.ts:35-45 | Deletes a previous directory first, makes the new one, then stages the FPGA part and the MCU part (base64 writes, no build files). It resolves to the new path or rejects with the staging error. |
| ProjectDirs.ProjectFiles.Delete | src/job/projectFiles.ts:107-111 | Logs exactly `DeleteOps(path)`. |
| ProjectDirs.ProjectConfig.constructor | src/platforms/fitkit2/project-config.ts:35-37 | A new object has an empty dictionary and no path. |
| ProjectDirs.ProjectConfig.CreateDirectory | src/platforms/fitkit2/project-config.ts:42-104 | Deletes a previous directory, makes the new one, stages with the `binary` flag honoured, then generates the build files. The first error thrown reaches the caller. |
| ProjectDirs.ProjectConfig.Delete | src/platforms/fitkit2/project-config.ts:109-113 | Logs exactly `DeleteOps(path)`. |
| ProjectDirs.LegacyProject.constructor | src/project/Project.ts:19-21 | A new object has an empty dictionary and no path. |
| ProjectDirs.LegacyProject.CreateDirectory | src/project/Project.ts:36-92 | A staging error rejects. Otherwise the build files are generated, their error is dropped, and the new path is returned. |
| ProjectDirs.LegacyProject.Delete | src/project/Project.ts:97-101 | Logs exactly `DeleteOps(path)`. |
| BuildFiles.CreateBuildFiles | src/platforms/fitkit2/build-files.ts:16-43 | `createBuildFiles` leaves the writes, the updated project and the error of `BuildFilesOutcome`. |
| BuildFiles.BuildFilesOutcome | src/platforms/fitkit2/build-files.ts:16-43 | The directory writes come first. It fails exactly on a Makefile (chip) error or an xst (optimisation) error. A Makefile error keeps only the directory writes, and otherwise the Makefile is the third write. The MCU part never changes. On success the FPGA part gains the configuration entry. |
| BuildFiles.Generate | src/platforms/fitkit2/build-files.ts:17-43 | The same, for any result of the Makefile step. |
| BuildFiles.GenerateFiles | src/platforms/fitkit2/build-files.ts:17-43 | The two directories first, then the rest. |
| BuildFiles.WriteAfterDirs | src/platforms/fitkit2/build-files.ts:22-43 | The Makefile, then the FPGA files if there is an FPGA part. |
| BuildFiles.CreateFpgaFiles | src/platforms/fitkit2/build-files.ts:26-42 | Writes lso, xst, sim-tcl, the optional configuration and both prj files. It stops at the xst error. |
| BuildFiles.WriteAfterXst | src/platforms/fitkit2/build-files.ts:28-42 | After the xst write: sim-tcl, the optional configuration with the `unshift`, then the prj files. |
| BuildFiles.WritePrjFiles | src/platforms/fitkit2/build-files.ts:41-42 | `project.prj` (no prefix, synthesis), then `project_isim.prj` (prefix `../..`, simulation). |
| BuildFiles.CreateLegacyBuildFiles | src/project/BuildFiles.ts:16-39 | The legacy `CreateBuildFiles` leaves `LegacyBuildFilesOutcome`. |
| BuildFiles.LegacyBuildFilesOutcome | src/project/BuildFiles.ts:16-39 | The directory writes come first. It fails exactly on a Makefile (chip) error or an xst error, and the chip is always checked. A Makefile error keeps only the directory writes, and otherwise the Makefile is the third write. The MCU part never changes. On success the FPGA part gains the configuration entry. |
| BuildFiles.LegacyGenerate | src/project/BuildFiles.ts:17-39 | The same, for any result of the legacy Makefile step. |
| BuildFiles.LegacyGenerateFiles | src/project/BuildFiles.ts:17-39 | The legacy directories, then the rest. |
| BuildFiles.WriteLegacyAfterDirs | src/project/BuildFiles.ts:22-39 | The legacy Makefile, then the FPGA files, which always exist. |
| BuildFiles.BuildFilesOrder | src/platforms/fitkit2/build-files.ts:17-42 | The order is directories, Makefile, then (with FPGA data) lso, xst, sim-tcl, the optional configuration and the prj files. It fails exactly on a chip or optimisation error, keeping only the writes before it. The project changes only by the prepended entry. |
| BuildFiles.AfterDirsOrder | src/platforms/fitkit2/build-files.ts:22-42 | The same order after the directories, for whatever the Makefile step gave. |
| BuildFiles.LegacyBuildFilesOrder | src/project/BuildFiles.ts:19-38 | The legacy order is the same with the FPGA part always present. |
| BuildFiles.FpgaOrder | src/platforms/fitkit2/build-files.ts:26-42 | The FPGA writes, and the xst error after the lso write. |
| BuildFiles.ConfigEntryOnlyInPrj | src/platforms/fitkit2/build-files.ts:22-42 | With `usesArchitecture` the configuration entry comes first in both prj lists. The Makefile, written before the `unshift`, lists it only if the project itself has that path. |
| BuildFiles.PrependLines | src/platforms/fitkit2/build-files.ts:33-41 | A prepended file that takes part gives the first prj line. |
| PrjFiles.Included | src/platforms/fitkit2/build-files/prj.ts:16-19 | The included files are a selection of the FPGA files. |
| PrjFiles.PrjLine | src/platforms/fitkit2/build-files/prj.ts:18 | A line is as long as the library plus the joined path plus 8 characters, and it ends with `"`. |
| PrjFiles.PrjLineFields | src/platforms/fitkit2/build-files/prj.ts:18 | A line reads `vhdl `, then the file's own library or else the default one, then ` "`, then the joined path, then the closing quote. |
| PrjFiles.PrjContent | src/platforms/fitkit2/build-files/prj.ts:13-22 | The text ends with a newline. With no included file it is a single newline. |
| PrjFiles.CreatePrjFile | src/platforms/fitkit2/build-files/prj.ts:13-22 | The `forEach` and the join produce `PrjContent`: one `vhdl <lib> "<prefix/path>"` line per included file. |
| PrjFiles.IncludedMembers | src/platforms/fitkit2/build-files/prj.ts:17 | A file is listed exactly when it is an FPGA file that takes part. |
| PrjFiles.SimIncludesAll | src/platforms/fitkit2/build-files/prj.ts:17 | With `sim`, every file is listed, in order. |
| PrjFiles.SynthesisExcludesSimOnly | src/platforms/fitkit2/build-files/prj.ts:17 | Without `sim`, exactly the non-`simOnly` files are listed. |
| PrjFiles.PrjReadsBack | src/platforms/fitkit2/build-files/prj.ts:21 | The text reads back as its lines plus an empty piece. An empty list gives a single newline. |
| PrjFiles.IncludedCons | src/platforms/fitkit2/build-files/prj.ts:16-19 | A file put in front that takes part becomes the first included file. |
| XstFiles.OptimizationParts | src/platforms/fitkit2/build-files/xst.ts:10-13 | Succeeds exactly with one `:`, giving the mode and level that rebuild the value. Otherwise it gives the format error. |
| XstFiles.XstContent | src/platforms/fitkit2/build-files/xst.ts:10-17 | The script fails exactly when `optimization` does not have one `:`. |
| XstFiles.OptimizationRoundTrip | src/platforms/fitkit2/build-files/xst.ts:10-16 | `mode:level` splits back into mode and level. |
| XstFiles.XstReadsBack | src/platforms/fitkit2/build-files/xst.ts:15-17 | The script is two newline-terminated lines: the fixed first line, and the run line with the mode, level, chip and top entity. Twin: src/project/buildfiles/Xst.ts:15-17. |
| Makefiles.ChipParts | src/platforms/fitkit2/build-files/makefile.ts:15-18 | The chip is accepted exactly with at least two `-`, giving its split. Otherwise it gives the chip error. |
| Makefiles.ChipFields | src/platforms/fitkit2/build-files/makefile.ts:15-18 | `part-speed-package[-extra]` gives those three fields, and the extra text is ignored. |
| Makefiles.NonSimPaths | src/platforms/fitkit2/build-files/makefile.ts:20-23 | HDLFILES paths are a selection of the FPGA files. |
| Makefiles.NonSimPathsMembers | src/platforms/fitkit2/build-files/makefile.ts:20-23 | A path is listed exactly when a non-`simOnly` file has it. |
| Makefiles.HdlFilesText | src/platforms/fitkit2/build-files/makefile.ts:20-23 | The `forEach` writes `HDLFILES = p` first and `HDLFILES += p` after, one line per listed path. |
| Makefiles.McuRules | src/platforms/fitkit2/build-files/makefile.ts:29-35 | Six rule lines per MCU file. |
| Makefiles.NodeBasename | src/platforms/fitkit2/build-files/makefile.ts:30-31 | A path equal to a non-empty extension gives the empty name. The result has no `/`. Otherwise it is the last `/`-piece, either whole or with the extension removed. |
| Makefiles.ObjectListReadsBack | src/platforms/fitkit2/build-files/makefile.ts:32-33 | The object list splits at spaces into an empty piece and then the objects in order. |
| Makefiles.RuleTextIsLines | src/platforms/fitkit2/build-files/makefile.ts:34 | The rule text of one file is its six newline-terminated lines. |
| Makefiles.McuTexts | src/platforms/fitkit2/build-files/makefile.ts:26-35 | The MCU `forEach` builds the rule text and both space-prefixed object lists, in file order. |
| Makefiles.TemplateIsLines | src/platforms/fitkit2/build-files/makefile.ts:38-62 | The template filled with the accumulated texts is the Makefile's line list. |
| Makefiles.MakefileLines | src/platforms/fitkit2/build-files/makefile.ts:38-62 | The Makefile has 24 fixed lines, plus one per MCU rule line and one per HDLFILES line. |
| Makefiles.Makefile | src/platforms/fitkit2/build-files/makefile.ts:10-62 | Fails exactly when FPGA data is present with fewer than three chip fields. |
| Makefiles.LegacyMakefile | src/project/buildfiles/Makefile.ts:13-60 | Fails exactly when the chip has fewer than three fields; the chip is always checked. |
| Makefiles.CreateMakefile | src/platforms/fitkit2/build-files/makefile.ts:10-64 | The body of `createMakefile` computes `Makefile`. |
| Makefiles.CreateLegacyMakefile | src/project/buildfiles/Makefile.ts:13-62 | The body of the legacy `CreateMakefile` computes `LegacyMakefile`. |
| Makefiles.MakefileReadsBack | src/platforms/fitkit2/build-files/makefile.ts:38-62 | Read back line by line, the Makefile gives, in order: the fixed head, the MCU rules, the object lists and UCF, the HDLFILES lines and the fixed tail. |
| Makefiles.MakefileFields | src/platforms/fitkit2/build-files/makefile.ts:38-58 | `BASE` is given. `LIBRARIES = -lm` appears exactly with the math library. The three chip fields, both object lists, the UCF path and the HDLFILES lines are each at their place. |
| Lists.Without | src/build/Build.ts:116-117 | `filter(val => val !== x)` keeps exactly the other elements, and changes nothing when x is absent. |
| Lists.WithoutDistinct | src/build/Build.ts:116-117 | Filtering keeps a list distinct. |

## Left out

- **Processes and their output.** Spawning and killing processes
  (`docker`, `make`, `Xtigervnc`, isim, the window manager) and `readline`
  line splitting are left out. A process exit, an output line, fd-3 data
  and a helper's completion are method calls with the value as a
  parameter.
- **Random token and token helper.** `randomBytes(48)` becomes a token
  parameter, required to be hex text. The `create-display-token.sh`
  helper becomes its `stdout` parameter.
- **File system.** `fs` writes, `mkdir`, `rmdir`, `unlink` and `mkdtemp`
  are entries in a log of file-system operations. The directory that
  `mkdtemp` creates is a parameter.
- **Buffer decoding.** The base64 and utf8 decoding of uploaded content is
  only recorded as the write's encoding.
- **Reading the binaries.** The three binary reads of `Build.CloseEvent`
  are `Option` parameters.
- **Clock.** `Date.now()` becomes the `now` parameter. `getStats` reads
  the clock twice, and the model uses one value for both readings.
- **Concurrency.** The server runs on one event loop, and every callback
  is one atomic step. Events interleaving between the awaits of a single
  `createDirectory`, `closeEvent` or `getDisplayNumber` are not modelled.
- **Unawaited legacy calls.** The legacy `Project` calls `CreateBuildFiles`
  without `await`. The model runs it to completion right after staging
  and drops its error, which the source leaves as an unhandled rejection.
- **Numbers.** JavaScript numbers are integers or `NaN`. Fractions,
  exponent notation, `Infinity` and the rounding of large values in
  `parseInt`/`toString` are not modelled.
- **Event routing.** Which listener the source attaches is modelled by the
  method that stands for the event. `Jobs.Job` keeps every display it
  created and routes display events by index.
- **Files outside the core.** `Server.ts`, `Main.ts`, `Logger.ts`,
  `Isim.ts`, `WindowManager.ts` and the configuration modules are not part
  of this model. Configuration values are parameters (`QueueConfig`,
  `JobsConfig`, limits, the base folder and the VNC client URL).
- **Fixed templates.** The lso, sim-tcl and VHDL configuration templates
  are written as fixed texts. Only their place in the write order is
  proved about them.
- **Logging.** Logging is left out.
- **Path normalisation.** Node's `path.join` also drops repeated `/`,
  resolves `.` and `..` segments and removes a trailing `/`. `PathJoin`
  does none of this. A client path with such segments gives a different
  write target, prj line or isim key than the source would.
- Staging.StageFiles: writes never fail. A local name `""`, `"."` or
  `".."` (a client path ending in a separator, or in `/.` or `/..`) is
  staged as a file, where the source's `writeFile` fails with `EISDIR`
  and the loop rejects.
- ProjectDirs.ProjectFiles.CreateDirectory: does not reject on a failed
  write (see `Staging.StageFiles`), nor on a failed `mkdir` or delete.
- ProjectDirs.ProjectConfig.CreateDirectory: does not reject on a failed
  write, `mkdir` or delete. Only the invalid-path error and the build-file
  errors are modelled.
- ProjectDirs.LegacyProject.CreateDirectory: does not reject on a failed
  write, `mkdir` or delete. Only the invalid-path error is modelled.
- Jobs.Job.OnDisplayClose: states the effect on the job's flags and its
  last event only, not the display's own effects, which
  `VncDisplay.CloseAlwaysReported` states.
- VncDisplay.AcceptNumber: uses unbounded integers. The model accepts
  canonical digit strings above 2^53, and the source does not: for
  those, `parseInt` rounds, and from 21 digits on `toString` switches to
  exponent notation.

## Findings

| source | as written | input that shows it | evidently intended | confidence | as-written member | corrected member |
|---|---|---|---|---|---|---|
| src/build/Build.ts:47-63 | `CheckQueue` loops while `Active.length <= limit`. Both `CheckQueue` and `Start` push the build onto `Active`. | Limit 3 with builds 1, 2, 3 queued: `Active` becomes [1, 1, 2, 2] and build 3 waits. With limit L, L / 2 + 1 builds run (one build for L = 0). | At most `limit` builds run, each listed once in `Active`. | not executed | Builds.AdmitAsWritten | Admissions.AdmitFillsToLimit |
| src/build/Build.ts:107-123 | `Terminate` emits `close(-1)` but leaves the `close` listeners attached. The process it kills then exits and `CloseEvent` emits `close` again. | `Terminate` on a running build, then its `make` exits: listeners hear two `close` events. | Every build is heard closing once. | not executed | Builds.TerminatedThenExitHeardTwice | Builds.TerminatedThenExitHeardOnceCorrected |
| src/job/job.ts:75-82 | `sourceFilesReady` begins a non-X11 job and, with no early return, also creates a display whose `ready` begins it again. | A non-X11 job whose display reports number 1 and whose helper finishes: docker is spawned twice. | A non-X11 job begins once, without a display. | not executed | Jobs.NonX11JobBeginsTwice | Jobs.NonX11JobBeginsOnce |
| src/connection/Connection.ts:97-103 | `SetupProject` sets `Project` before `CreateDirectory`. A staging failure leaves it set. | A `build-begin` whose file path has no separator, then any `build-begin`: the second is refused with "Another action is already running". | A failed setup releases the project, so the next request can start. | not executed | Connections.FailedSetupBlocksConnection | Connections.FailedSetupRecoversCorrected |
| src/connection/Connection.ts:145-150 | `StartSimulation` checks `this.Build`, not `this.Simulation`. | A connection holding a simulation but no project or build gets an `isim-begin`: a second simulation replaces the first, which is never terminated. | Refuse while a simulation is held. | not executed | Connections.SimulationCheckReadsBuild | Connections.StartSimulationKeepsHeldCorrected |

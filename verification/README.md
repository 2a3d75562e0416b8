# Supavisor: a model of the supervisor core, and what is proved of it

Supavisor runs a set of programs: it starts them once what they depend on is up, restarts them when they
fail, stops them in order, and captures their output. This project models its core and proves what it
promises over every run.

| file | component |
|---|---|
| `Common.dfy` | duplicate-free sequences, the order of names |
| `Graph.dfy` | chains and cycles of `depends_on`; the dependency graph, its topological sort and its tiers |
| `Config.dfy` | the configuration, the cycle search and the rest of the validation |
| `Blocking.dfy` | when a program may start, and the walk that finds it never will |
| `Lifecycle.dfy`, `Process.dfy` | one managed program: the state machine on values, and the `Process` object proved to follow it |
| `Objects.dfy` | a process object with the calls of Start and Stop under way on it; when it can never have a child again |
| `Supervisor.dfy` | reconciler, operator, reloads, monitors, timers and probes as interleaved steps; what every orderly step keeps |
| `Children.dfy` | a stop is final; one child per object, and per program, dropped objects included |
| `Runs.dfy` | runs put together step by step |
| `Breaches.dfy` | what follows when a condition of these theorems is broken: two children |
| `Stranding.dfy` | when a stop leaves a program in STOPPING for good |
| `Chronicle.dfy` | what the history of a run says: completion latch, restart bound, order of first starts |
| `Miscounts.dfy` | and what becomes of latch, restart bound and the rule that only STOPPED programs are started |
| `Policy.dfy` | when a program is restarted, how often, and after what delay |
| `Progress.dfy` | what the daemon gets done: unwanted programs settle, wanted ones come up |
| `Doomed.dfy` | programs the blocked walk gives up on are never started |
| `Reload.dfy` | what a reload finds changed and what it does to the maps of the server |
| `Shutdown.dfy` | the order of a shutdown, and what is left of each program |
| `Server.dfy` | the `Server` object: start-up, reconcile pass, what happens to its processes, operator commands, reload, shutdown |
| `Reaper.dfy` | the child reaper over a process table with exits, orphans and reused PIDs |
| `Backups.dfy`, `LogRotation.dfy` | the chain of numbered log files, the rotating writer, the line-wise drain that feeds it |
| `Command.dfy` | the command splitter |
| `Health.dfy` | the health probe loop |

**How it is built.** Code that changes state is a class whose methods are proved against a function of the old
state; the properties of whole runs are proved about those functions. `Lifecycle` holds the functions for one
process, `Objects` adds the goroutines inside its Start and Stop, and `Supervisor.Apply` combines all objects ever
made, current or dropped by a reload, into one step system. `Server.Now()` is the world a server object stands for:
for every kind of step there is a method of `Server` that performs it (`Reconcile`, `Act`, `SetDesired`,
`ApplyPrograms`), and `Server.Valid()` contains the invariant of the step system, but for the objects in `lost`, on
which an act has slipped in. A run is a finite sequence of enabled steps, reloads among them, so everything said of
`After(…, steps)` holds in every interleaving. Forks, exits, timers, clocks, probe results, rename failures and short
writes are parameters or steps.

**Orderly runs, clean reloads.** `Stop` marks the stop under the lock and moves the state afterwards, and the two
halves are separate steps; so are queueing an action, running it, and a waiting stop returning, and the cancel check
after a backoff and the restart. Safety then needs three conditions on a run, which is called orderly, and a fourth one
counts dropped objects:

- on an object in use, no start forks between the halves of a stop that read a stopped state;
- on an object in use, no stop reads a stopped state between a cancel check and the restart;
- no program is added back while an action on a dropped object of its name is in flight;
- a reload drops only objects with neither a child nor anything that leads to one, which holds when they are STOPPED
  without a queued start.

The code enforces none of them. `Breaches` proves the converse from every world an orderly run can reach: a step that
breaks the third or the fourth has a continuation with two children of one program, and so has one that breaks the
first or the second if the dependencies of its program are satisfied at that moment; without that, the program is
STOPPED over a live child, or gets one after its stop is over. `Miscounts` proves that under the same condition each
breach of the first three also leads to a latch that is not the last run's, to more restarts than max_restarts if the
program may be restarted at all, and to a start of a FATAL program, or of an EXITED one if its policy is never. Both
have such runs from the first state of a configuration. On dropped objects, and for a stop between a cancel check and
the restart that reads STOPPING, the first two ask nothing.

What does not depend on any of this is proved of all runs: the order of starts, that a stop is final, and exactly when
an object has two children, namely when a start forks while it has a child or a restart past its cancel check.

That the daemon also gets something done is proved as reachability: `Progress` gives runs, from every world an orderly
run can reach, that settle an unwanted program and bring up a wanted one, and one from the first state that brings up
everything.

A stop of a running program needs no condition to be safe, but it strands the program in STOPPING exactly when the
verdict on its run falls between the halves.

**Step size.** One step each: a `Start`, the verdict of a monitor with its restart policy, reading a program's state and
queueing the action in `reconcile`, and the swap of a reload, which the code does under its lock.

**Where the code differs from what its comments or messages say.** The configuration check reports a circular
dependency also when a program that does not exist is named twice, because an absent name keeps its mark on the
stack; `FindCycle` and `Validate` say exactly when. Both graph sorts report a cycle when a dependency is listed
twice, because listings are counted but dependents are kept once; the sorts succeed exactly on acyclic graphs
where no present name is listed twice. A second start of a program is said to be kept away by its mark; an action on
a dropped object clears the mark of whatever object has its name by then.

## Model

| member | source | states |
|---|---|---|
| DependencyGraph.Graph.AddNode | internal/dependency/graph.go:29-82 | Redefinitions and self-loops included, Dependents stays the duplicate-free exact inverse of Dependencies among present nodes, and only the list of the named node changes |
| DependencyGraph.Graph.Build | internal/server/reload.go:182-188 | Any sequence of additions leaves the graph that is determined by the last list given for each name |
| DependencyGraph.DependentsDetermined | internal/dependency/graph.go:29-82 | Two graphs holding the same lists have the same dependents, however they were built |
| DependencyGraph.LastListWins | internal/dependency/graph.go:29-42 | The list kept for a name is the last one given |
| DependencyGraph.NeverAdded | internal/dependency/graph.go:29-42 | A name never added is not in the graph |
| DependencyGraph.LeftOver | internal/dependency/graph.go:126-132 | What Kahn's algorithm cannot place contains a cycle, or some program lists a present name twice |
| DependencyGraph.Graph.Release | internal/dependency/graph.go:116-123 | Taking a node out of the way lowers the in-degree of exactly its dependents, once each, and frees exactly those that reach zero |
| DependencyGraph.Graph.TopologicalSort | internal/dependency/graph.go:86-132 | Succeeds if and only if the relation is acyclic and no present name is listed twice; then every node occurs once, after all it depends on |
| DependencyGraph.Graph.Tiers | internal/dependency/graph.go:138-181 | Succeeds under the same condition; then every node is in the tier numbered by its longest dependency chain, and each tier is sorted and not empty |
| DependencyGraph.TierUnique | internal/dependency/graph.go:138-181 | No node is in two tiers |
| DependencyGraph.TierOfDependency | internal/dependency/graph.go:134-137 | A dependency is in an earlier tier than its dependent |
| DependencyGraph.FewestTiers | internal/dependency/graph.go:134-181 | No grouping that keeps dependencies before dependents uses fewer groups |
| Configuration.CycleSearch.Check | internal/config/config.go:589-610 | The recursive search with its shared maps: a report means a real cycle or an absent name met twice; otherwise everything reachable was finished, dependencies first |
| Configuration.FindCycle | internal/config/config.go:501-512 | Over all programs, in any order, a cycle is reported if and only if there is one or two entries name the same missing program |
| Configuration.MissingTwiceIsNoCycle | internal/config/config.go:593-596 | Two programs waiting for the same missing one make an acyclic configuration that is reported as circular |
| Configuration.CheckConditions | internal/config/config.go:514-533 | Passes if and only if every dependency exists and can reach the condition it is waited on for; a refusal names an entry that deserves it |
| Configuration.ValidateLogPaths | internal/config/config.go:547-566 | Passes if and only if no two programs share a log file; a refusal names two that do |
| Configuration.Validate | internal/config/config.go:501-540 | Accepts if and only if depends_on is acyclic, all dependencies exist with reachable conditions, logs are disjoint and the socket path is short enough; nobody is left waiting for health without a check, or for the completion of a program that is always restarted; the exact condition for a circularity report |
| SupervisorServer.OrderChecks | internal/config/config.go:589-610 | The cycle search and the two sorts agree on every configuration whose dependencies exist and are listed once; each one's exact condition otherwise |
| SupervisorServer.ListedTwiceIsRefused | internal/dependency/graph.go:90-97 | The once-each condition is needed: an acyclic configuration that lists a dependency twice fails the condition of the sorts |
| Blocking.BlockedByDependency | internal/server/reconcile.go:304-346 | The walk with its shared seen set terminates on every snapshot, cyclic or not; a reason is true of the program it names and comes with a path to it of dependencies that are down, and without one everything it looked at is clear |
| Blocking.BlockedIndefinitely | internal/server/reconcile.go:294-346 | Answers yes if and only if, in terms of states, wishes, latches and policies alone, dependencies that are not up lead from the program to a dead end: one that is not configured, FATAL, unwanted and STOPPED or EXITED, or EXITED for good though waited on to complete |
| Blocking.DownIsPath | internal/server/reconcile.go:304-346 | Every such chain of states contains a path the walk gives up on |
| Blocking.BlockedIsUnsatisfied | internal/server/reconcile.go:152-184 | A program the walk gives up on is one the reconciler would not start |
| Lifecycle.BackoffIsCapped | internal/process/process.go:651-660 | The delay before attempt n is the smaller of 2^(n-1) and 30 seconds for every n, although the exponent is capped first |
| Policy.BackoffsGrow | internal/process/process.go:609-660 | In every run whatsoever, the n-th failure in a row of an object, a long run beginning a new row, is followed by that delay for n, and n is at most max_restarts |
| Lifecycle.StartSound | internal/process/process.go:186-257 | A start of a program with nothing pending, successful or not, keeps the process invariant: only the newest run may be active or waking |
| Lifecycle.JudgeSound | internal/process/process.go:554-590 | The verdict on a reaped run, restart policy included, keeps the process invariant |
| Lifecycle.WakeSound | internal/process/process.go:624-640 | The cancel check after a backoff, passed or not, keeps the process invariant |
| Lifecycle.RestartSound | internal/process/process.go:642-647 | The restart after it, successful or not, keeps the process invariant, although it looks at nothing again |
| Lifecycle.StoppedHasNoChild | internal/process/state.go:26-30 | A state that counts as stopped has no child and no verdict outstanding, and only EXITED may have a restart pending |
| Lifecycle.OneChild | internal/process/process.go:186-257 | Two unreaped children of one process are the same run |
| ManagedProcess.Process.Start | internal/process/process.go:186-257 | Refuses exactly RUNNING and STARTING; every accepted start, failed ones included, clears the completion latch and cancels the previous run's context, and a failure ends in FATAL |
| ManagedProcess.Process.Judge | internal/process/process.go:554-590 | The new state by stop mark and current state; EXITED is never visible before a clean unrequested exit is latched |
| ManagedProcess.Process.MaybeRestart | internal/process/process.go:593-622 | With policy always, or unexpected and a code other than 0, one more restart is counted and waited for until max_restarts is used up, then FATAL; otherwise nothing happens; nothing but FATAL is published |
| Policy.RestartsFollowFailures | internal/process/process.go:554-622 | In every run whatsoever, every automatic restart comes after an exit of that object that nobody asked for, with policy always, or unexpected and a code other than 0 |
| Policy.RestartsAreOfTheLastRun | internal/process/process.go:554-622 | In every orderly run that exit is the one of the run started last |
| Policy.BackoffLeadsToRestart | internal/process/process.go:618-646 | From the backoff such a verdict leaves, the object can go on to a restart and a new child, unless a stop has closed the channel or the context of that run |
| Policy.FailuresAreMadeGood | internal/process/process.go:554-622 | Conversely, in every run whatsoever, the verdict on such an exit goes into a backoff as long as there were at most max_restarts in a row, and ends in FATAL beyond; any other exit is final, in STOPPED if a stop was asked for |
| Policy.KilledIsNoSuccess | internal/process/reaper.go:216-221 | A child that was killed is judged with a negative code and latches no completion, one that exits with its own code; its health is forgotten at once |
| ManagedProcess.Process.Restart | internal/process/process.go:642-647 | The restart starts from BACKOFF and ends in FATAL when it fails |
| Lifecycle.StopMarkSound | internal/process/process.go:368-389 | The first half of a stop keeps the process invariant; where it read a stopped state nothing at all is pending, and outside the gap between a cancel check and the restart no backoff can wake; not so for a stopped state in that gap |
| Lifecycle.StopLandSound | internal/process/process.go:391-407 | The second half, with whatever the first half read, keeps the invariant unless it calls a process STOPPED that has something pending |
| Lifecycle.StopReturnSound | internal/process/process.go:405-452 | A stop that returns from waiting, even after giving up on SIGKILL and whatever happened meanwhile, keeps the process invariant |
| Policy.MarkedLaunchesNothing | internal/process/process.go:368-389 | Whatever state an object is in, once a stop is marked and no restart is past its cancel check, nothing but a queued start launches a run, in any sequence of what may happen to it |
| Policy.StopCancelsRestart | internal/process/process.go:635-640 | A backoff that ends in STOPPING, or after a stop was marked, ends in nothing |
| Policy.ProbingEnds | internal/process/health.go:127-140 | Once a stop is marked or a child has exited, no probe has its say until the next run is started, in any sequence of what may happen |
| Policy.MarkCaptures | internal/process/process.go:368-380 | A stop goes on with the state, the context and the newest run it found when it began, whatever becomes of them |
| Policy.StopLandsAs | internal/process/process.go:394-407 | A stop that found STOPPED, EXITED, FATAL or BACKOFF is over with STOPPED at once; any other sets STOPPING and waits |
| Policy.ContextEnds | internal/process/process.go:391-452 | A stop that is over has cancelled the context it found when it began |
| Policy.ClosedOnce | internal/process/process.go:378-389 | In every run whatsoever, no stop closes a channel that has been closed before |
| Objects.ActKeeps | internal/process/process.go:186-647 | Every start, half of a stop, exit, verdict, timer and probe keeps the object invariant, unless it is a start that forks between the halves of a stop that read a stopped state, or a stop that reads a stopped state between a cancel check and the restart |
| Objects.SpareKeeps | internal/process/process.go:186-647 | Even these keep that at most one run of the object, the newest, has a child or can lead to one, and that a queued start finds nothing of the kind, as long as no further start is queued |
| Objects.NeverAgainIff | internal/process/process.go:186-647 | Left to itself an object never has a child again, in any sequence of what may happen to it, if and only if it has no child, no queued start, no restart under way, no backoff that will wake and no verdict to come that will restart it |
| Objects.StoppedIsSpent | internal/process/process.go:554-647 | A STOPPED object without a queued start has none of these |
| Supervisor.InvButStep | internal/server/reconcile.go:63-147 | Every step of reconciler, operator, reload, goroutines, monitors, timers and probes keeps the objects in use sound, but for the one on which an act slips in; a configured program is marked busy exactly while one action on an object of its name is in flight |
| Supervisor.InvStep | internal/server/reconcile.go:63-147 | In an orderly run, where no act slips in on an object in use, none is lost |
| Supervisor.AtMostOneChild | internal/process/process.go:186-257 | In every state of every orderly run, reloads included, every object, in use or dropped, has at most one unreaped child |
| Children.OneChildUnlessOverlap | internal/process/process.go:186-257 | In every run whatsoever every object has at most one unreaped child, as long as no queued start forks while the object has a child or a restart past its cancel check |
| Breaches.OverlapMakesTwo | internal/process/process.go:186-257 | Conversely, in every world whatsoever such a start makes two children, at once or with the restart |
| Children.OrderlyIsApart | internal/server/reconcile.go:128-147 | In the worlds an orderly run reaches no start does that |
| Progress.LookShows | internal/server/reconcile.go:304-346 | What the reconciler and the walk see of a program is the state, the latch, the health and the last exit code of the object it uses |
| Progress.VisitStops | internal/server/reconcile.go:92-102 | A visit to an idle program nobody wants queues a stop in every state but STOPPED and STOPPING |
| Progress.VisitStarts | internal/server/reconcile.go:77-90 | A visit to an idle, wanted, STOPPED program whose dependencies have completed, run, or run and are healthy, as asked for, queues a start |
| Progress.VisitIdles | internal/server/reconcile.go:63-123 | A visit that leaves an idle program alone found it STOPPED or STOPPING if unwanted, and otherwise not STOPPED or with a dependency that has not reached what it waits for |
| Progress.UnwantedSettles | internal/server/reconcile.go:63-147 | From every world an orderly run can reach, an idle program nobody wants that is not STOPPING can be settled by the reconciler, be it up, waiting for a restart, past the cancel check, EXITED or FATAL: it ends STOPPED with no child and nothing that leads to one, and nothing else has changed |
| Progress.WantedGetsUp | internal/process/process.go:186-365 | From every such world an idle, wanted, STOPPED program with no call under way and its dependencies reached can be brought to RUNNING with a child, and to health if that is checked, and nothing else has changed |
| Progress.OneOffCompletes | internal/process/process.go:554-590 | And on to completion, EXITED without a child, unless it is always restarted |
| Progress.StopsOnDemand | internal/server/server.go:281-293 | The operator's stop can settle every idle program that is not STOPPING |
| Progress.StartsOnDemand | internal/server/server.go:247-279 | The operator's start can bring up every idle program that is STOPPED, EXITED or FATAL, if its dependencies are reached, no call is under way on it and no restart is past its cancel check |
| Progress.EverythingComesUp | internal/server/reconcile.go:63-147 | From the first state of every configuration whose programs all autostart and wait only for others to be up or healthy, if they can be ordered dependencies first, all of them can be brought to RUNNING, and to health where it is checked, without an operator |
| Progress.UnaskedStaysDown | internal/server/server.go:117-127 | A program without autostart never has a child, in every run whatsoever, until somebody asks for it or a reload replaces it |
| Progress.TimerPromotes | internal/process/process.go:346-365 | The startsecs timer of a live newest run makes RUNNING of STARTING, and nothing of any other state |
| Progress.HealthNeedsCheck | internal/config/config.go:521-523 | In every run whatsoever, what waits for the health of a program without a health check waits for ever |
| Children.StopIsFinal | internal/server/reconcile.go:63-102 | Once nobody wants a program and its object has nothing that leads to a child, no sequence of steps gives it one, in orderly runs or others, until an operator asks for it or a reload replaces it |
| Children.StoppedIsSettled | internal/server/reconcile.go:63-102 | That is so once the program is STOPPED, wanted stopped and without an action in flight |
| Children.OneChildPerProgram | internal/server/reload.go:82-132 | In every state of every orderly run whose reloads drop only objects with neither a child nor anything that leads to one, all objects of a program, dropped ones included, have at most one unreaped child together |
| Children.StoppedDropsAreClean | internal/server/reload.go:82-103 | Reloads that drop only STOPPED objects without a queued start are such reloads |
| Breaches.UncleanMakesTwo | internal/server/reload.go:106-132 | Conversely, from every world an orderly run can reach, every reload that replaces or removes an object with a child or something that leads to one has a continuation with two children of that program |
| Breaches.DropMakesTwo | internal/server/reload.go:106-132 | Without a further reload, if it is replaced and its new dependencies are satisfied |
| Breaches.SlipHidesChild | internal/process/process.go:368-407 | From every world an orderly run can reach, a start that forks between the halves of a stop that read a stopped state, on an object in use, leads to a program that is STOPPED and idle over a live child |
| Breaches.SlipMakesTwo | internal/process/process.go:368-407 | It then leads to two children of that object, if the dependencies of the program are satisfied |
| Breaches.EarlyReturnMakesTwo | internal/server/reconcile.go:128-147 | From every world an orderly run can reach, adding a program back while an action on a dropped object of its name is in flight has a continuation with two children of one object of it: the old action clears a mark that is not its own |
| Breaches.ReloadOvertakesStart | internal/server/reload.go:82-123 | From the first state of any configuration with an autostart program without dependencies, a reload that sees it STOPPED while its start is queued leads to two children of it |
| Breaches.GapUndoesStop | internal/process/process.go:635-647 | From every world an orderly run can reach, a stop that reads a stopped state between the cancel check and the restart, on an object in use, can be over, with every other action of the program, and the program STOPPED and idle, and the next step gives it a child |
| Breaches.GapMakesTwo | internal/process/process.go:635-647 | It then leads to two children of that object, if the dependencies of the program are satisfied |
| Breaches.DisorderMakesTwo | internal/process/process.go:368-407 | Together: from every world an orderly run can reach, every step that is not orderly leads to two children of one object, if it is no act or the dependencies of its program are satisfied |
| Breaches.RestartOvertakesStop | internal/process/process.go:635-647 | From the first state of any configuration with an autostart program without dependencies that is always restarted, there is a run through that gap to two children of one object |
| Breaches.ReleaseOvertakesStart | internal/server/server.go:258-264 | From the same state, an operator's start that has read STOPPED while the reconciler starts the program leads to two children of one object |
| Stranding.StrandsIffJudged | internal/process/process.go:406-452 | A stop of a program that was up, landing after whatever else happened to the object, leaves STOPPING with nothing pending if and only if the verdict on that run fell between its halves |
| Stranding.StopStrands | internal/process/process.go:406-452 | In every world an orderly run can reach, a stop about to begin on a program that is up has a continuation in which the child exits in between and the program is stranded in STOPPING |
| Stranding.StrandedForever | internal/server/reconcile.go:77-102 | A stranded program stays in STOPPING whatever operator, reconciler, further stops, timers and probes do, unless a reload replaces it |
| Chronicle.LatchMeansLastRunFinished | internal/process/process.go:172-206 | In every orderly run, reloads included, the latch of an object is set exactly when its most recent start launched a run whose exit was judged unrequested with code 0, whatever stops and probes came in between |
| Miscounts.DisorderBreaksLatch | internal/process/process.go:554-590 | Conversely, from every world an orderly run can reach, every step that is not orderly, under the condition of `DisorderMakesTwo`, leads to a latch that is set although the last started run has not finished |
| Miscounts.LatchFailsFromStart | internal/process/process.go:554-590 | From the first state of any configuration with an autostart program without dependencies there is such a run |
| Chronicle.RestartsAreBounded | internal/process/process.go:554-622 | In every orderly run, reloads included, automatic restarts of an object since its last long run never exceed max_restarts, manual stops and starts included |
| Miscounts.UnrestartedIsBounded | internal/process/process.go:593-622 | For programs with policy never or max_restarts 0 in every run whatsoever |
| Miscounts.DisorderBreaksBound | internal/process/process.go:546-622 | For all others conversely: from every world an orderly run can reach, every step that is not orderly, under the condition of `DisorderMakesTwo`, leads to more restarts than max_restarts since the last long run |
| Miscounts.BoundFailsFromStart | internal/process/process.go:546-622 | From the first state of any configuration with such an autostart program without dependencies there is such a run |
| Chronicle.ReconcilerStartsOnlyStopped | internal/server/reconcile.go:77-90 | In every orderly run the reconciler starts only STOPPED programs, never a FATAL one, and automatic restarts come only from EXITED; either may find STOPPING instead, set by a stop that landed late, and a restart of a dropped object STOPPED |
| Miscounts.DisorderStartsFailed | internal/server/reconcile.go:77-90 | Conversely, from every world an orderly run can reach, every step that is not orderly, under the condition of `DisorderMakesTwo`, leads to a start of a FATAL program by the reconciler, or of an EXITED one if its policy is never |
| Miscounts.FatalStartedFromStart | internal/server/reconcile.go:77-90 | From the first state of any configuration with an autostart program without dependencies and another policy than never there is a run with a start of a FATAL program |
| Chronicle.StartsFollowDependencies | internal/server/reconcile.go:63-184 | In every run whatsoever, every start, automatic ones and those of dropped objects too, comes after a start of each dependency, and after a clean exit of each one waited on to complete |
| Chronicle.FirstStartsAreOrdered | internal/server/reconcile.go:63-184 | In every run whatsoever, first start attempts form a linear extension of depends_on |
| Doomed.StuckForever | internal/server/reconcile.go:63-184 | A set of STOPPED programs each held back by a member or by a dependency gone for good stays so, and none is started, in every run without operator commands and reloads |
| Doomed.BlockedForever | internal/server/reconcile.go:300-363 | If the walk finds a path of idle STOPPED programs to a hopeless one with nothing pending, no later run without operator commands and reloads starts the program |
| Reloading.BuildDependencyGraph | internal/server/reload.go:182-188 | The graph mirrors exactly the depends_on lists of the configuration, in whatever order they are added |
| Reloading.DiffPrograms | internal/server/reload.go:136-158 | Exactly the added, the removed and the redefined programs, each sorted |
| Reloading.ChangesCover | internal/server/reload.go:106-130 | Dropping the removed, replacing the changed and adding the added programs gives exactly the new set, and every other program is there already with the same definition |
| Reloading.ReloadKeeps | internal/server/reload.go:106-132 | No object is touched; an unchanged program keeps object and wish, a changed one gets an object no program had before and the wish from before the reload, an added one such an object and its first wish |
| SupervisorServer.NewServer | internal/server/server.go:74-127 | Starts exactly on the valid configurations without repeated listings whose log directories can be made, every program with a new STOPPED process, wanted if and only if autostart says so, in an initial state of the step system |
| SupervisorServer.Server.SetDesired | internal/server/reconcile.go:232-247 | Refuses exactly unknown names; a wish to stop also forgets the reported reason |
| SupervisorServer.Server.IsSatisfied | internal/server/reconcile.go:162-181 | One dependency is satisfied when it exists and has completed, runs, or runs and is healthy, as its condition demands |
| SupervisorServer.Server.DependenciesSatisfied | internal/server/reconcile.go:152-184 | No reason if and only if every dependency is satisfied; a reason names one that is not, with its condition |
| SupervisorServer.Server.Decide | internal/server/reconcile.go:63-111 | The switch of a visit: a stop exactly for an idle unwanted program in STARTING, RUNNING, BACKOFF, EXITED or FATAL, a start exactly for an idle wanted STOPPED one whose dependencies are satisfied; the reason of a blocked one names a dependency that is not |
| SupervisorServer.Server.Reconcile | internal/server/reconcile.go:63-147 | A visit is that step of the system, with the object and the mark the action was decided for, and keeps its invariant unless it queues a start on a lost object |
| SupervisorServer.Server.Act | internal/server/reconcile.go:128-147 | Whatever happens to a process object, in use or dropped (a queued start runs on the object it was queued for, a stop gets on, a child exits, a monitor, a timer or a probe has its say), is that step of the system, history and marks included; the invariant survives, but for the object of an act that slips in |
| SupervisorServer.Server.StartProcess | internal/server/server.go:247-264 | Refuses unknown and running programs without effect; otherwise calls Stop exactly if the second look at the state, whatever happened since the first, finds a program that stopped by itself |
| SupervisorServer.Server.BeginReload | internal/server/reload.go:23-76 | Refuses exactly what New would refuse or what would change a daemon setting; does nothing exactly when the programs are the same; otherwise remembers the wishes, wants every removed and changed program stopped and forgets their reported reasons |
| SupervisorServer.Server.StopForReload | internal/server/reload.go:82-103 | Exactly the named programs are wanted stopped afterwards, and nothing else has changed |
| SupervisorServer.Server.ApplyPrograms | internal/server/reload.go:106-132 | The three loops over the server's maps make one reload step of the system, actions in flight and their objects kept, and its invariant holds again unless a program is added back too early |
| SupervisorServer.Server.StopTier | internal/server/server.go:226-243 | In every order of calls, halves and returns, with exits, verdicts, timers, restarts and probes in between, each program of the tier is stopped exactly once and all have returned; a returned one is at rest for good unless its Stop gave up or began between a cancel check and the restart |
| SupervisorServer.Server.ShutdownPlan | internal/server/server.go:218-224 | The tiers when they exist, otherwise every program in one group |
| SupervisorServer.Server.StopAllProcesses | internal/server/server.go:218-244 | Stop is called exactly once on every program and returns; when the graph can be sorted, a dependent's Stop has returned before its dependency's is called; at the end every program has at most one child, and none, nor anything that leads to one, unless its Stop gave up or began between a cancel check and the restart |
| Reaper.InvStep | internal/process/reaper.go:80-183 | Forking excludes reaping until the PID is registered, so every step keeps each registered child either waited for under its own PID or its own status on the way |
| Reaper.StatusesReachTheirOwner | internal/process/reaper.go:109-183 | In every interleaving, with orphans and reused PIDs, a status on a channel is that of the very process its call forked, sent at most once and closed at most once |
| Reaper.SendNeverBlocks | internal/process/reaper.go:165-183 | Whenever the reaper is about to send there is room in the channel, and whenever it is about to close the channel is open |
| Reaper.NothingIsLost | internal/process/reaper.go:151-183 | Between reaps, a registered child that has been collected has had its status sent and its channel closed |
| Reaper.BarrierIsNeeded | internal/process/reaper.go:80-108 | Without the lock there is a run in which an orphan's status is delivered to a caller of spawn |
| Reaper.ChildReaper.Spawn | internal/process/reaper.go:109-127 | A successful start registers its PID under a new channel before it returns; a failed one registers nothing; both are runs of the step system |
| Reaper.ChildReaper.CollectOne | internal/process/reaper.go:151-183 | One pass collects one zombie and delivers to its waiter if it has one, by steps of the step system |
| Reaper.ChildReaper.ReapAll | internal/process/reaper.go:151-183 | With exits and orphans arriving meanwhile, it returns with no zombie left and every exit of a registered child delivered and closed |
| Backups.DecimalReads | internal/logrotate/writer.go:201-222 | The number in a backup's name is read back as the number it was written with |
| Backups.NumberInIff | internal/logrotate/writer.go:206-222 | A suffix counts as backup n exactly when it is n in decimal, perhaps behind zeros |
| Backups.NewestBackup | internal/logrotate/writer.go:194-204 | The newest backup has .1 behind the path of the log |
| Backups.BackupNumber | internal/logrotate/writer.go:206-222 | The loop finds the value of a digit string and refuses the empty string, other characters and zero |
| Backups.ShiftConserves | internal/logrotate/writer.go:140-153 | Wherever a rename fails and whatever gaps there are, the chain read oldest first loses what the topmost move landed on and nothing else |
| LogRotation.RotationConserves | internal/logrotate/writer.go:132-154 | The same for every number of backups: without backups the current log is what is lost |
| LogRotation.Writer.constructor | internal/logrotate/writer.go:32-61 | Whatever count of backups came before, the chain after opening is still a suffix of everything ever written |
| LogRotation.Writer.Prune | internal/logrotate/writer.go:158-191 | Removes exactly the files whose suffix is a number above the configured count |
| LogRotation.Writer.ShiftBackups | internal/logrotate/writer.go:132-154 | Fails exactly when some existing file that is to move cannot; every file above the highest such one has moved up by one and no other name has changed |
| LogRotation.Writer.Rotate | internal/logrotate/writer.go:107-129 | The log is open afterwards unless it cannot be reopened, whatever the shift did; the chain loses exactly what the shift destroyed |
| LogRotation.Writer.Append | internal/logrotate/writer.go:87-89 | What was taken of a write is at the young end of the chain, and a write into an empty file or one that fits keeps the size bound |
| LogRotation.Writer.Write | internal/logrotate/writer.go:69-90 | A write that fits below maxbytes, or finds the log empty, or an unlimited log, changes nothing but the log, which gains what was taken; absent failures any other starts a new log and makes the old one backup 1. What the backups and the log hold is always a suffix of everything written; old contents plus the bytes taken equal what the rotation destroyed plus new contents; absent rotation failures a file made since opening holds at most maxbytes or a single write; names outside the chain are left alone |
| LogRotation.SliceLength | internal/process/process.go:764-785 | A slice of the pipe ends at its first newline, at a full buffer or at the end of the pipe, and holds no earlier newline |
| LogRotation.SlicesJoin | internal/process/process.go:764-785 | The pieces concatenate to the pipe's bytes; each is one line, or a full buffer of a longer one, except that the last may end with the pipe |
| LogRotation.DrainStream | internal/process/process.go:764-785 | Unless a write fails it writes exactly those pieces, one call each, and the log receives every byte; if one fails, a prefix; absent failures the log and its backups are the newest of the files the pieces are packed into |
| LogRotation.PackedIsTight | internal/logrotate/writer.go:76-84 | These files lose and reorder nothing, and each was closed only because the line at the head of the next would have taken it past maxbytes |
| Command.ParseCommand | internal/process/process.go:839-871 | The loop over the scanner returns the arguments of the recursive reading of the command |
| Command.CommandScanner.Step | internal/process/process.go:874-894 | One character moves the scanner as the recursive reading does and hands out an argument exactly when a blank outside quotes ends one |
| Command.CommandScanner.Finish | internal/process/process.go:896-905 | Hands out the argument in progress exactly when it has characters or was quoted |
| Command.ParseUndoesWriting | internal/process/process.go:839-905 | However each argument is cut into segments, each written bare, escaped, double-quoted or single-quoted as its characters allow, and whatever blanks separate them, the arguments come back |
| Command.UnclosedQuoteCounts | internal/process/process.go:874-905 | A quote that is never closed runs to the end of the command and makes an argument even of nothing |
| Command.LastBackslashStands | internal/process/process.go:845-850 | A backslash with nothing behind it stands for itself |
| Command.EveryListCanBeWritten | internal/process/process.go:839-905 | Every list of arguments, empty ones included, is the meaning of some command |
| HealthChecks.Checker.ProbeLoop | internal/process/health.go:148-189 | For every sequence of results with non-decreasing times, ended anywhere, the two counters give the verdict on the whole history of judged attempts, and the callback hears of each change of that verdict once |
| HealthChecks.VerdictSteps | internal/process/health.go:165-180 | The verdict on a history extended by an attempt follows from that on the history by the rule of the loop |
| HealthChecks.TrailingFailuresFollowTheLastPass | internal/process/health.go:165-180 | The failures counted are those after the last pass, all of them |
| HealthChecks.GraceFailuresCount | internal/process/health.go:174-180 | Failures inside the grace period count: the first failure judged at its end makes the program unhealthy if retries are used up, and none does before |
| HealthChecks.Checker.SetHealth | internal/process/health.go:71-89 | The callback hears exactly of changes, a health never set reading as none |
| HealthChecks.Checker.StartHealthChecks | internal/process/health.go:93-123 | A usable check starts at STARTING before the call returns; without one nothing changes |
| HealthChecks.Checker.StopHealthChecks | internal/process/health.go:127-140 | Ends probing and clears the health; a second call changes nothing |

## Left out

- Interleavings inside `Start`, inside the verdict of a monitor, and between reading the state and queueing the action in `reconcile`: one step each.
- DependencyGraph.Graph.AddNode: nodes are values in the map instead of shared pointers, so aliasing of nodes is not captured; the order of Dependents is not either.
- SupervisorServer.Server.DependenciesSatisfied: looks at all dependencies at one moment, where the code reads them one after the other.
- SupervisorServer.Server.Reconcile: one program at a time; the order of a pass by priority and name is not modelled, and the properties hold for every order.
- SupervisorServer.Server.StartProcess: up to the call of Stop, which goes on by its own steps; recording the wish is `SetDesired`; `awaitState`, its timeouts and its error texts are not modelled, nor is `RestartProcess`.
- SupervisorServer.Server.StopForReload: records the wishes and omits the wait for STOPPED with its timeout.
- SupervisorServer.Server.BeginReload: a reload is its part before the wait and `ApplyPrograms` after it, with any steps in between; the wait itself and its timeout are not modelled, and no theorem relies on it.
- SupervisorServer.Server.ApplyPrograms: whether a reload keeps the invariant is decided by the actions in flight at the swap, which the code does not look at; `Breaches` says what follows otherwise.
- SupervisorServer.Server.StopTier: the reconciler and its actions have settled, as `Server.Stop` waits for; calls of Stop by operators during the shutdown are not among what may happen meanwhile. Programs that give up are a parameter.
- Reaper.ChildReaper.ReapAll: `signalGroupIfUnreaped`, the SIGCHLD loop and failures of wait4 other than having nothing to collect.
- Backups.NumberInIff: numbers are unbounded, where the code accumulates an int.
- LogRotation.Writer.constructor: log files that cannot be opened at the start, directories among the backups and file ages are not modelled.
- LogRotation.Writer.Rotate: failures to close, stat errors other than absence, and failed removals of surplus backups.
- Command.ParseCommand: characters stand for the bytes of the command; all the characters it treats specially are single bytes.
- HealthChecks.Checker.StartHealthChecks: how a probe runs, its timeout and its output; an attempt is its result and the time it was judged.
- Sending signals, process groups, `killLingeringGroup`, stopwaitsecs and the SIGKILL timeout: a Stop may return at any time, also with the child unreaped.
- YAML decoding, defaults, sizes and durations, log directories, the socket protocol, the command line client, the PID file, the state file and orphan identification: input and output, or thin filters.
- Log messages and the wording of reasons.

# A verified model of the DEmOS scheduler

DEmOS runs processes of a time-triggered, partitioned system. A major frame cycles through windows;
a window runs the safety-critical (SC) partitions of all its slices and then, once every one of them
is through, the best-effort (BE) partitions; a slice runs one process at a time under a timer; a
partition is a cyclic queue with a cursor which a BE partition keeps from window to window, together
with the unused rest of a budget. This project models that scheduler, the protocols around it and
the CPU lists its configuration is written in, and proves what they are built to guarantee.

`dafny verify dfyconfig.toml` checks the whole project.

## How it is organised

| files | subject |
|---|---|
| `Model`, `Scheduler`, `MajorFrame` | the scheduler: the effect of every call on plain values, and the objects whose methods are proved to have exactly these effects, re-entrant callbacks included |
| `EventLoop`, `Assembly` | the objects driven by everything which arrives, and put together from their processes |
| `Phases` | what holds after any sequence of timeouts, signals and exits |
| `Effects`, `Departures` | what every event, the start and the end of a window do, field by field, without the functions which compute it; a process which ended is never started again |
| `TimeTable`, `ClosedForm`, `Frame` | the event-driven scheduler refines a recursive time table, in one window and over all of them; the table in closed form |
| `Conservation`, `ScheduleBooks` | conservation of BE budgets in a window and over a whole schedule |
| `Fairness`, `ScheduleFairness`, `Progress` | no starvation in a partition and in a whole schedule while nobody signals, bounded runs |
| `BestEffort`, `SignalledFairness` | a slice seen by its BE partition, whatever happens in the window; no starvation when processes signal |
| `Jitter`, `Disturbance` | random budgets: when the assertion about remainders never fails, while nobody signals and in windows in which anything happens |
| `Handshake` | the two-eventfd protocol between client library and scheduler |
| `Lifecycle`, `Barrier` | exit detection, global completion and the initialization barrier |
| `PowerPolicy`, `PolicySchedule` | the per-process frequency locks, and the calls which the scheduler makes to them |
| `CpuList`, `RangeLoop`, `CpuListParser`, `CpuListMeaning` | printer and parser of CPU lists, when the parser ends, which texts it accepts and what a list denotes |
| `Assignment`, `Normalization`, `NormalForm` | validation, restriction to the allowed CPUs, and normalization of the configuration |
| `Written` | which configurations are accepted and what each key of them becomes, read off the written tree alone |
| `Options`, `Arithmetic` | helpers |

In `Scheduler`, `MajorFrame` and `Lifecycle` the ghost function `Snap` gives the value of an object.
Parameters called `i` or `stop` which are ghost, and ghost fields such as `log`, `signals`,
`launches`, `barrier` and `changes`, are history or naming only; no decision depends on them.

## What the scheduler relies on

The code takes these for granted, and so do the theorems which say so in their preconditions:

- **Distinct partitions.** A partition has at most one role in a window (`Frame.WinCfgOk`). Validation
  does not check it: `Assignment.SharedPartitionIsAccepted` exhibits a configuration.
- **Shape.** Windows have positive lengths and partitions at least one process.
- **Timely dispatch** (`TimeTable.TimelyRun`). A timer's callback comes before any event with a later
  deadline, and the window's timer goes first when deadlines tie. Simultaneous slice timeouts may
  come in any order. Only the time-table and progress results need it, and the exact turn in
  `Fairness` and `ScheduleFairness` through them; conservation and `SignalledFairness` need no more
  than that events of a window come before its end (`Conservation.StepInTime`).
- **Nobody signals or ends**, in the runs to which the time table applies. A process which signals
  early lets everything behind it in its slice start earlier, and best effort everywhere once it was
  the last safety-critical one. So the time table, its closed form, the exact turn of a process and
  `Jitter` are about undisturbed windows. The invariants of `Phases`, conservation, the bound of
  `SignalledFairness.StartsDespiteSignals` (in which no process of the partition may end) and
  `Disturbance` hold whatever signals and ends.
- **Signals find a running process.** A signal which a connected partition passes on is taken for
  that of the running process of the slice, whichever process sent it; the comment at
  src/slice.cpp:33-40 admits as much, and so do the runs of `Phases` (`Complete`). The code asserts
  that the slice runs something then, and that is all that is required here. A signal from a
  disconnected partition is only noted (`Note`). Which partitions are connected is part of the state
  of a slice (`linked`), and `Phases.Connected` says which they are in every state.
- **Jitter.** The random part of a budget is an arbitrary stream per process within the bounds which
  validation enforces. The time table in closed form, fairness and conservation are for jitter 0;
  `Conservation.JitterBreaksRemainder` shows that `set_remaining_budget` can otherwise fail, and
  `Disturbance.NeverFailsIff` says for which partitions it never does. More partitions are safe as
  long as nobody signals (`Jitter.UndisturbedIff`): `Disturbance.EarlySignalBreaks` has one which
  fails only after an early signal. An early end of the SC partitions lengthens the time for best
  effort, which the condition of `Disturbance` allows for and that of `Jitter` does not.

Where code and comments differ the code is followed. Results which contradict an expectation: the
barrier can open early (`Barrier.CountedTwice`), malformed CPU lists are accepted
(`CpuListMeaning.AcceptedWellFormedIff` says which), a well-formed list may never be read to its end
(`CpuListMeaning.EndlessLists`; `CpuListParser.ReturnsIff` and `ReturnsIffChecked` say exactly
when), and then a configuration may never be normalized (`NormalForm.EndlessConfig`;
`Normalization.NormalizeReturnsIff` says exactly when), a range which wraps around and ends sets other
CPUs as well (`RangeLoop.VisitsMembersIff`, `CpuListMeaning.WrappingList`), `as_list` truncates
(`CpuList.AsListTruncates`), the empty set is printed as a text which is refused
(`CpuListMeaning.EmptyIsRefused`), disjoint slices may end up on one CPU
(`Assignment.CollisionAfterValidation`, `CollisionExample`), a failed `demos_init` is not repeated, and
the client then signals through descriptors which were never set, unless the malformed parameters
started with two numbers (`Handshake.SignalsAstrayIff`, `TwoNumbersSuffice`), and a normalized
configuration is refused when given in place (`NormalForm.IdempotentIff`).

## Model

| member | source | states |
|---|---|---|
| TimeTable.RunFollowsTable | src/slice.cpp:80-199 | every timely event-driven run of a window, in whatever order simultaneous timeouts come, leaves each partition exactly as its row of the recursive table: SC from the window's start, BE from the latest end of an SC partition if that is before the window's end |
| Frame.ScheduleFollowsTable | src/majorframe.cpp:29-61 | over any number of windows, histories, cursors and remaining budgets of all partitions are what the recursive table computes from the configuration alone |
| Frame.ServedWindowFollowsTable | src/window.cpp:22-51 | the same for one window, stated on the states which the window object goes through |
| ClosedForm.ServedClosedForm | src/slice.cpp:80-192 | rows of the table without jitter: starts at prefix sums of budgets in cyclic order up to the window's end; where the cursor stays; which remainder is kept and whose budget is whole again |
| ClosedForm.ServedUntilClosedForm | src/slice.cpp:64-110 | an SC partition is through after the sum of its budgets |
| ClosedForm.LoneProcess | test/0300-schedule.bats:116-137 | a single BE process is started in each window with what it has left, and with its whole budget once that fitted |
| TimeTable.BeStartIsMax | src/window.cpp:53-76 | best effort starts at the maximum over all slices of the ends of their SC partitions |
| Frame.WindowAtIsMod | src/majorframe.cpp:20-25 | after `k` changes the current window is `k` modulo the number of windows |
| Frame.Periodic | src/majorframe.cpp:40-61 | window starts repeat, shifted by exactly the length of the frame: no drift |
| ScheduleBooks.ScheduleKeepsBooks | src/slice.cpp:164-191 | over a whole schedule, whatever timeouts, signals and exits it sees: if the accounts of all partitions balance at the beginning they balance at every change of window, and the assertions about remainders hold at the end of each |
| ScheduleBooks.ScheduleConserves | src/slice.cpp:164-191 | hence in every state of every window the fragments of the running process since its last completion, in whichever windows, add up to its budget, exactly on a millisecond grid |
| ScheduleBooks.TraceIsRun | src/process.cpp:170-177 | without jitter no trace of timeouts ends in a failed assertion: each is a run as in `ScheduleFollowsTable`, with nothing assumed about remainders |
| Frame.FixedBudgetsFit | src/process.cpp:170-177 | the step of these in one window: without jitter and with the accounts in order at its start, its timely runs end well and leave the accounts in order |
| ScheduleBooks.FreshIsClosed | src/process.cpp:25-58 | the accounts of partitions which have not run yet balance |
| Phases.PhaseSeparation | src/window.cpp:22-76 | in every reachable state: while a BE process runs in any slice no SC process of any slice is pending, each slice has reported exactly once, and BE was launched exactly once |
| Phases.ExclusiveExecution | src/slice.cpp:80-122 | in every reachable state a process is thawed iff it is the running process of its slice, and a timer is armed iff a process runs |
| Phases.RunKeepsInv | src/slice.cpp:195-199 | the invariant behind both holds from `start` on, for every sequence of timeouts, completions and exits and every jitter |
| Phases.Connected | src/slice.cpp:124-158 | in every reachable state: signals are passed on from the SC partitions of all slices, from the BE partitions iff best effort was launched, and from nobody once the window was stopped |
| Effects.RunningEnds | src/slice.cpp:55-122 | when a timeout is served or a signal passed on, in either role: the process which ran is completed and frozen and the log says so; then the first other process in cyclic order which is pending and draws a non-zero budget runs, with its timer set for that budget; without one an SC slice reports, and the last report launches BE at that moment |
| Effects.SignalIsNoted | src/process.cpp:201-208 | after a signal of a process it is marked as signalled, unless it is the one which was just started |
| Effects.ExitEffect | src/process.cpp:185-189 | after the end of a process exactly that one is not spawned any more, and nothing else has changed |
| Effects.EventEffect | src/slice.cpp:55-122 | for every event of every run: the whole state after it, on the fields of the state before |
| Effects.StartNextFirst | src/slice.cpp:80-110 | for any draws, exits and role: the search for the next process passes over those which draw nothing, starts the first which is up in cyclic order, or leaves the cursor behind the last pending one |
| Effects.StartOpens | src/window.cpp:22-35 | the start of a window: every slice starts its SC partition at the first process which is up, or reports; if all have reported BE is launched at once, from the saved cursors |
| Effects.StopEffect | src/slice.cpp:153-192 | the end of a window: who runs is frozen, in BE with the whole milliseconds it has left kept for the next window; with less than one left it is completed, and the cursor goes on to the next pending process |
| Departures.NoStartAfterExit | src/process.cpp:140-189 | in the window in which a process ends it is not started after its end |
| Departures.NoStartAfterDeparture | src/process.cpp:140-189 | nor in any later window of a whole schedule with any timeouts, signals and ends |
| Departures.NeverReturns | src/process.cpp:140-189 | and a process which is not spawned at a change of window, in whichever window it ended, is never started from there on |
| Phases.StartSafe | src/window.cpp:22-35 | `start` establishes the invariant although a report may launch BE from inside its own loop |
| Phases.StopSafe | src/window.cpp:37-51 | after `stop` every process is frozen, every timer disarmed, no BE was launched by it, and `has_sc_finished` holds iff every slice has reported |
| Phases.ScEndSafe | src/window.cpp:53-76 | a report keeps the count exact; the last one launches BE on all slices, at a moment when none runs |
| Phases.SeekPartSpec | src/partition.cpp:86-104 | the search stops at the first pending process in cyclic order; without any the cursor moves by exactly one |
| Phases.DrawnBudget | src/process.cpp:128-138 | a drawn budget is between 0 and the budget plus half the jitter, and exact without jitter |
| Phases.StartNextSafe | src/slice.cpp:80-110 | starting the next process, skipping empty budgets, ends with exactly one thawed spawned process, or with nothing pending |
| Phases.StopSliceSafe | src/slice.cpp:153-192 | stopping a slice freezes all its processes, and reports only if its SC partition got through by it |
| SignalledFairness.StartsDespiteSignals | src/slice.cpp:144-199 | over a whole schedule with any timeouts and signals: a BE process is started at the latest in the first window which launches its partition after as many launches as there were milliseconds ahead of it, if no process of the partition ends |
| SignalledFairness.PlayComes | src/slice.cpp:144-191 | the step of this: a window which launches the partition starts the process, or brings it closer by at least a millisecond, wherever the window cuts off what ran last; one which does not changes nothing but flags |
| BestEffort.ApplySide | src/window.cpp:53-76 | whatever an event is: for the BE partition of each slice it sets a flag, launches it (at most once in a window), ends its running process, or does nothing |
| ScheduleFairness.ProcessGetsTurn | src/slice.cpp:144-191 | over a whole schedule in which nobody signals: a BE process is started in exactly the first window in which the time served to its partition exceeds the budgets ahead of it, at the very moment that time is used up, and in none before |
| ScheduleFairness.StartsWithinWait | src/slice.cpp:144-191 | hence, if every window leaves it some time, at the latest in the window numbered by the milliseconds ahead of it |
| Fairness.NoStarvation | src/partition.cpp:86-104 | the same for one partition and any sequence of undisturbed servings |
| Fairness.StartsWithin | src/slice.cpp:144-191 | hence within as many serving windows as there are milliseconds ahead of it |
| Fairness.ServingProgress | src/slice.cpp:168-191 | each undisturbed serving either starts the process or shrinks its wait by exactly the time served, also when a process ends together with the window |
| Conservation.BudgetConservation | src/slice.cpp:164-191 | in one window whose accounts are in order: the fragments a BE process runs between two completions add up to its budget on a millisecond grid, and otherwise lack less than a millisecond per interruption |
| Conservation.RunKeepsBooks | src/slice.cpp:80-110 | the books behind this stay in order through every run of a window |
| Conservation.StopBooks | src/slice.cpp:153-192 | and through stopping it, which meets the assertions on the remainder |
| Disturbance.NeverFailsIff | src/process.cpp:128-177 | a BE partition never fails the assertion, in any window which launches it by a given time, for every draw and every order of timeouts, signals and ends, iff for each process with a random part its latest possible start plus the most its budget can be stretched lies before the end of the window |
| Disturbance.EarlySignalBreaks | src/process.cpp:170-177 | a partition which never fails while nobody signals, and does after an early signal |
| Jitter.UndisturbedIff | src/process.cpp:128-177 | serving a BE partition while nobody signals or ends never fails the assertion, for every draw of every process, iff for each process with a random part its latest possible start plus the most its budget can be stretched lies before the end, or its earliest possible start does not |
| Jitter.LoneUndisturbedIff | src/process.cpp:128-177 | for one process with its whole budget: iff the time served exceeds half the jitter, rounded up |
| Jitter.ServingFitsIff | src/slice.cpp:164-187 | with given draws: iff the process which is cut off has less than its budget left |
| Jitter.StopFitsIff | src/slice.cpp:153-187 | and stopping an undisturbed window meets the assertion for a slice iff serving its BE partition from the launch on does |
| Conservation.JitterBreaksRemainder | src/process.cpp:170-177 | a BE process whose budget jitter stretched fails the assertion when it is cut off early |
| Progress.RunsEnd | src/slice.cpp:56-62 | a window serves at most as many slice timeouts as it has processes, and until it is over some timeout is due |
| Model.StartNextUnfolds | src/slice.cpp:80-110 | finding the next process with a budget in one go equals doing it one process at a time |
| Scheduler.Process.Resume | src/process.cpp:116-126 | releases the client iff it had signalled, and thaws the process |
| Scheduler.Process.GetActualBudget | src/process.cpp:128-138 | the drawn budget, never negative |
| Scheduler.Process.SetRemainingBudget | src/process.cpp:170-177 | stores a remainder for the next window |
| Scheduler.Partition.Reset | src/partition.cpp:56-73 | clears the completed flags, connects the slice, and moves the cursor for SC only |
| Scheduler.Partition.SeekPendingProcess | src/partition.cpp:93-104 | returns the process which the search over values finds, or none |
| Scheduler.Slice.LoadNextProcess | src/slice.cpp:64-77 | the effect on the whole window, including BE launched by the report it may make |
| Scheduler.Slice.StartNextProcess | src/slice.cpp:80-110 | terminates, never replaces a running process, and has the effect of its value function on the whole window |
| Scheduler.Slice.StopCurrentProcess | src/slice.cpp:112-122 | freezes the running process, stops the timer and marks completion as asked |
| Scheduler.Slice.StartPartition | src/slice.cpp:124-132 | resets, connects and starts a partition, reporting to the window if nothing is left to start |
| Scheduler.Slice.StartSc | src/slice.cpp:134-142 | without an SC partition the report is immediate |
| Scheduler.Slice.StartBe | src/slice.cpp:144-151 | changes nothing but its own slice, and continues from the saved cursor |
| Scheduler.Slice.Stop | src/slice.cpp:153-192 | disconnects, stops, keeps the remainder of a BE process, or completes it and looks for the next one |
| Scheduler.Slice.ScheduleNext | src/slice.cpp:195-199 | the effect of a timeout on the whole window |
| Scheduler.Slice.CompletedCb | src/process.cpp:201-208 | the effect of a signal of any process on the whole window: noted, and passed on to `schedule_next` iff its partition is connected; what this does to the fields is `Effects.RunningEnds` |
| Scheduler.Window.AddSlice | src/window.cpp:11-15 | an idle window stays idle and valid with one more slice |
| Scheduler.Window.SliceScEndCb | src/window.cpp:53-76 | counts the report and launches BE on every slice iff it was the last one and the window is not stopping |
| Scheduler.Window.Start | src/window.cpp:22-35 | the effect of the loop with its re-entrant reports, and the invariant |
| Scheduler.Window.Stop | src/window.cpp:37-51 | the effect of the loop while no report launches anything |
| Scheduler.Window.Dispatch | src/slice.cpp:55-57 | an event handled by the objects is a step of the runs which the theorems are about, `Effects.EventEffect` and `ExitEffect` among them |
| MajorFrame.MajorFrame.MoveToNextWindow | src/majorframe.cpp:20-25 | goes round |
| MajorFrame.MajorFrame.Start | src/majorframe.cpp:29-45 | starts the window wired to the shared partitions, with the timer at its planned end; everything else stays at rest |
| MajorFrame.MajorFrame.TimeoutCb | src/majorframe.cpp:53-61 | stops the window at its planned end, warns iff a slice had not reported, and starts the next one there: the schedule does not drift, partitions are handed over unchanged |
| MajorFrame.MajorFrame.Stop | src/majorframe.cpp:47-51 | afterwards nothing runs in any window; without effect if nothing did |
| MajorFrame.MajorFrame.Serve | src/majorframe.cpp:29-61 | the objects driven from the beginning over any number of windows, without jitter: no assertion fails, and the partitions at every change of window are those of a run as in `ScheduleFollowsTable`, which the table determines |
| MajorFrame.MajorFrame.ServeWindow | src/slice.cpp:55-62 | serving the earliest timer of a slice until the window's own is next terminates, and is a timely run |
| MajorFrame.MajorFrame.Dispatch | src/slice.cpp:55-57 | an event changes the current window only |
| MajorFrame.MajorFrame.DispatchElsewhere | src/process.cpp:185-208 | a signal or an end in a partition which the current window does not use, and which is disconnected then, changes one flag of it, and not the window |
| EventLoop.Play | src/majorframe.cpp:29-61 | the objects driven from the beginning over any number of windows by timers and by any signals and ends, without jitter: no assertion about a remainder fails, and they go through a run as in `ScheduleKeepsBooks`, with balanced accounts at every change of window, in which everything that arrives is handled at its time |
| EventLoop.PlayWindow | src/slice.cpp:55-62 | in one window: before each arrival the timers which expire earlier, and in the end those before the window's own; terminates, and is a run of events in time; every arrival has its place there, in order, and all other events are timers |
| EventLoop.Handle | src/process.cpp:201-208 | what arrives becomes the step of a run: passed on while its partition is connected, else noted; in a partition which the window does not use it changes one flag |
| Assembly.TwoWindows | src/config.cpp:436-475 | two windows which share a BE partition, built from processes, are a frame at rest |
| Assembly.ServeShared | src/majorframe.cpp:29-61 | and serving it follows the time table, for all budgets and lengths and any number of windows |
| Handshake.TokenConservation | lib/demos-sch.c:55-86 | in every interleaving a waiting client has exactly one wake-up in flight (unread signal, noted signal or token), any other client none, and every signal is matched by one release |
| Handshake.NeverStuck | src/process.cpp:116-126 | for every waiting client, noting the signal and one release are enough to let it go on |
| Handshake.ReleaseLasts | src/process.cpp:116-126 | once noted, the next release gives the client its token, which it keeps through freezes until it takes it |
| Handshake.BlocksUntilReleased | lib/demos-sch.c:73-82 | a client comes back only after its own signal was noted and it was then released |
| Handshake.InitializationFirst | lib/demos-sch.c:88-111 | a process with an initialization is about to signal only if it has told that this is complete since it last called `demos_init`, in every interleaving |
| Handshake.SignalsAstrayIff | lib/demos-sch.c:27-86 | for every sequence of calls: some call signals, or blocks, through a descriptor which was never set iff the parameters are missing or begin with fewer than two numbers, and `demos_completed` is called after the first call, which reports the failure |
| Handshake.TwoNumbersSuffice | lib/demos-sch.c:41-45 | with malformed parameters which begin with two numbers `demos_init` fails, and later calls of `demos_completed` signal all the same, through descriptors which are set |
| Handshake.SignalsIff | lib/demos-sch.c:27-111 | for every sequence of calls: which of them signal; a repeated `demos_init` silences a client with an initialization until it tells again that this is complete |
| Handshake.OutcomeIs | lib/demos-sch.c:27-111 | for every environment and sequence of calls, what each call comes to: which error it returns, success without effect, or a signal |
| Handshake.Statics.DemosInit | lib/demos-sch.c:27-53 | the effect on the static variables for every environment, with the descriptors which a malformed text sets before it fails |
| Handshake.Statics.DemosCompleted | lib/demos-sch.c:55-71 | when a call goes on to signal |
| Handshake.Statics.DemosInitializationCompleted | lib/demos-sch.c:88-111 | when a call ends the initialization and goes on to signal |
| Barrier.EndHandledOnce | src/process.cpp:185-254 | in every order of deaths, reports and notifications an end is handled at most once and never while the cgroup is populated; a partition is empty iff none of its processes is spawned; completion is reported once, with the last end |
| Barrier.EndIsHandled | src/process.cpp:216-254 | and it is handled by the report, or by the first notification after the cgroup got empty |
| Barrier.BarrierAtMostOnce | src/partition_manager.hpp:139-170 | `init_cb` is called at most once, with all partitions disconnected and exactly the unfinished initializations able to run; all have signalled or exited then iff none has done both |
| Barrier.BarrierExact | src/partition_manager.hpp:34-84 | as long as no process has signalled and exited, the barrier is open iff each has signalled or exited, and all were frozen when it opened |
| Barrier.ThawedIff | src/partition_manager.hpp:62-82 | in every state while initializations are awaited a process can run iff it has one and has neither signalled nor exited; once they are declared over nobody is frozen or thawed any more |
| Barrier.SignalIsNoted | src/process.cpp:201-208 | after a signal the process is marked as signalled, whether it still counts or not |
| Barrier.CountedTwice | src/partition_manager.hpp:151-170 | a run in which one process signals and exits and the barrier opens while another still initializes |
| Barrier.StartKeeps | src/partition_manager.hpp:34-84 | the start counts exactly the initializations which are owed |
| Lifecycle.PartitionManager.RunProcessInit | src/partition_manager.hpp:34-84 | gives every partition the widest CPU set on which it is ever served, connects, counts and resumes all processes with an initialization, which must be spawned, or finishes at once; `Barrier.ThawedIff` says who runs then |
| Lifecycle.PartitionManager.FinishProcessInit | src/partition_manager.hpp:139-149 | restores the exit callback and disconnects before calling back |
| Lifecycle.PartitionManager.ProcessInitCompletionCb | src/partition_manager.hpp:152-159 | freezes the process and finishes with the last one |
| Lifecycle.PartitionManager.ProcessExitCb | src/partition_manager.hpp:130-137 | reports completion iff all partitions are empty |
| Lifecycle.PartitionManager.ProcExitCb | src/partition.cpp:128-136 | brings `empty` up to date and passes the exit on to the installed callback |
| Lifecycle.PartitionManager.ChildTerminatedCb | src/process.cpp:228-254 | waits while the cgroup is populated, else handles the end |
| Lifecycle.PartitionManager.PopulatedCb | src/process.cpp:216-225 | handles an end which was waited for |
| Lifecycle.PartitionManager.CompletedCb | src/process.cpp:201-208 | notes a signal and passes it on while connected |
| PolicySchedule.LocksFollowSchedule | src/slice.cpp:80-122 | in every state of every window run without a conflict the locks of a cluster are exactly the processes which the slices run and which ask for a frequency, of the slices whose CPUs meet it; they agree, on the frequency last written |
| PolicySchedule.CallsAreExpected | src/slice.cpp:109-117 | every call which an event leads to starts a process which is not running or ends one which is |
| PolicySchedule.StopReleases | src/slice.cpp:112-122 | stopping a window gives back all locks |
| PolicySchedule.RefusedIff | src/power_policy/per_process.hpp:53-76 | a start is refused iff a slice runs a process which asks for another frequency of a common cluster |
| PowerPolicy.LocksAreRunning | src/power_policy/per_process.hpp:53-84 | for any sequence of starts and ends without a conflict: the locks of a cluster are those of the processes started and not ended which ask for a frequency there, each once and in order |
| PowerPolicy.ConflictIff | src/power_policy/per_process.hpp:53-76 | a start is refused iff a running process asks for another frequency of a common cluster |
| PowerPolicy.PerProcess.OnProcessStart | src/power_policy/per_process.hpp:53-76 | takes the locks cluster by cluster up to the first conflict |
| PowerPolicy.PerProcess.OnProcessEnd | src/power_policy/per_process.hpp:78-84 | gives all locks of the process back |
| CpuListMeaning.RoundTrip | src/lib/cpuset.c:137-175 | the text printed for a non-empty set is read back as exactly that set, without wrapping |
| CpuListMeaning.EmptyIsRefused | src/lib/cpuset.c:137-297 | the empty set is printed as the empty text, which is refused |
| CpuListMeaning.ParseDenotes | src/lib/cpuset.c:254-297 | a well-formed list without wrapping ranges is read as the union of its entries, cut to the CPUs which fit |
| CpuListMeaning.ParseChecks | src/lib/cpuset.c:289-293 | with `fail` the code is 2 iff a member does not fit, else 0 and the whole union |
| CpuListMeaning.WellFormedReturnsIff | src/lib/cpuset.c:289-293 | a well-formed list is read in finite time iff for each entry the largest number which its counter reaches, 2^32 less the largest power of two in the stride plus the remainder of the start by it, exceeds the end of its range |
| CpuListMeaning.EndlessLists | src/lib/cpuset.c:289-293 | `0-4294967295` and `0-4294967294:2` are never read to their end |
| CpuListMeaning.AcceptedWellFormedIff | src/lib/cpuset.c:264-296 | a text which is accepted is a list of well-formed entries iff no entry has a gap before `-`, `:` or its end, and every number has 32 bits |
| CpuListMeaning.EntryWellFormedIff | src/lib/cpuset.c:264-288 | the same for one entry |
| CpuListMeaning.GapIsPassedOver | src/lib/cpuset.c:269-275 | a gap before `-` is passed over |
| CpuListMeaning.LargeNumberIsCut | src/lib/cpuset.c:236-244 | a number of more than 32 bits is cut to them |
| CpuListMeaning.ReadItem | src/lib/cpuset.c:269-286 | one entry in each of its three forms is read as it is meant |
| CpuListMeaning.JunkIsPassedOver | src/lib/cpuset.c:269-275 | text without a dash behind a lone number is passed over when another entry follows |
| CpuListMeaning.JunkAtEnd | src/lib/cpuset.c:296 | and refused at the end of the list |
| CpuListParser.CpulistParse | src/lib/cpuset.c:254-297 | for every text on which the loops end: terminates, with the set and the code which the reading of the text gives, wrapping ranges included |
| CpuListParser.ReturnsIff | src/lib/cpuset.c:254-297 | for every text, if CPUs need not fit: the loops end iff for each entry up to the first malformed one the largest number of its counter exceeds its range |
| CpuListParser.ReturnsIffChecked | src/lib/cpuset.c:254-297 | the same if they must fit: a counter may also get out of bounds, which ends the list |
| CpuListParser.SizeDoesNotMatter | src/lib/cpuset.c:254-297 | whether and with which code a list is read does not depend on the size of the set, if CPUs need not fit |
| CpuListParser.SetRange | src/lib/cpuset.c:289-293 | for every range whose loop ends: sets the visited numbers which fit, and stops at one which does not iff it must |
| CpuListParser.NextEntry | src/lib/cpuset.c:264-288 | reads one entry up to the next comma |
| CpuListParser.NextNumber | src/lib/cpuset.c:236-244 | reads the digits at a place, cut to 32 bits |
| CpuListParser.NextToken | src/lib/cpuset.c:44-49 | the place behind the next separator |
| RangeLoop.EndsIff | src/lib/cpuset.c:289-293 | the loop over a range on a counter of 32 bits ends iff the largest number the counter ever reaches exceeds the range, or is out of bounds when CPUs must fit |
| RangeLoop.NeverAboveTop | src/lib/cpuset.c:292 | which is 2^32 less the largest power of two in the stride plus the remainder of the start by it: no round exceeds it |
| RangeLoop.ReachesTop | src/lib/cpuset.c:292 | and some round attains it |
| RangeLoop.VisitsMembersIff | src/lib/cpuset.c:289-293 | a range whose loop ends visits exactly its members iff the first number behind it is representable |
| CpuListMeaning.WrappingList | src/lib/cpuset.c:289-293 | `1-10:4294967295` names CPU 1 and is read as CPUs 0 and 1 |
| RangeLoop.MembersAre | src/lib/cpuset.c:289-293 | the members of an entry are the numbers of its range whose distance from its start is a multiple of the stride |
| CpuList.CpulistCreate | src/lib/cpuset.c:137-175 | stays in the buffer; succeeds iff the text with its last comma fits; else holds as much of it as fits |
| CpuList.PrintedForm | src/lib/cpuset.c:137-175 | the text lists the maximal runs of the set in ascending order, a lone CPU as a number, two neighbours as two numbers, longer runs as a range |
| CpuList.RunsAreUnique | src/lib/cpuset.c:137-175 | and a set has only one list of such runs |
| CpuList.Snprintf | src/lib/cpuset.c:155-163 | prints what fits and its end mark, and tells the whole length |
| CpuList.CountRun | src/lib/cpuset.c:149-154 | how many set bits follow without a gap |
| CpuList.SevenPerBit | src/lib/cpuset.c:341-342 | seven characters per bit are enough for up to a million bits |
| CpuList.AsListTruncates | src/lib/cpu_set.hpp:47 | two of every three of 64 CPUs need 122 characters, more than the 100 of `as_list` |
| Assignment.ValidateConfig | src/config.cpp:302-345 | accepts iff all references resolve, all lists are well formed, no two slices of a window share a CPU and `all` stands alone; otherwise the verdict is that of the first fault in order; requires only lists which can be read to their end, as all have been before (`NormalForm.ResultIsReadable`) |
| Assignment.CpusOverlap | src/config.cpp:329-344 | the same for the CPUs of one window |
| Assignment.FindPartition | src/config.cpp:405-412 | the first partition of a name; none iff the name is unknown, which validation excludes |
| Assignment.RestrictIsAllowed | src/config.cpp:479-502 | a restricted set is never empty, always allowed, and unchanged if it was allowed; its members are `AssignedMembers` |
| Assignment.AssignedMembers | src/config.cpp:479-502 | CPU by CPU: a slice gets its own CPUs which are allowed, if there are any, and otherwise the lowest allowed one alone; `all` stands for all allowed ones |
| Assignment.RestrictInPlace | src/config.cpp:481-502 | the same bit by bit on the set itself, and which warning is logged |
| Assignment.AssignCpus | src/config.cpp:479-502 | reading the list of a slice of a validated window and restricting it yields these CPUs |
| Assignment.AssignedApartIff | src/config.cpp:479-502 | slices of a validated window run on disjoint CPUs iff no two collide: one misses the allowed CPUs, the other misses them too or holds the lowest; so always if every set meets them |
| Assignment.RestrictKeepsDisjoint | src/config.cpp:490-493 | the same for any two disjoint sets |
| Assignment.CollisionAfterValidation | src/config.cpp:490-493 | two slices which are accepted and collide |
| Assignment.CollisionExample | src/config.cpp:479-502 | the lists `0` and `5`, where only CPU 0 is allowed: accepted, and both slices run on CPU 0 |
| Assignment.SharedPartitionIsAccepted | src/config.cpp:302-326 | two slices of a window may refer to one partition |
| Assignment.FindLowest | src/lib/cpu_set.hpp:63-69 | the least member, or none for the empty set |
| Assignment.FindWidestCpuSet | src/majorframe.cpp:63-77 | the first of the widest sets among the slices which serve a partition; none iff none does |
| NormalForm.Idempotent | src/config.cpp:347-403 | normalizing a normalized configuration from a file gives the same one |
| NormalForm.NormalStays | src/config.cpp:347-403 | any normal form is its own normal form, unless `set_cwd` is refused |
| NormalForm.IdempotentIff | src/config.cpp:361-366 | what normalizes is left as it is the second time iff it comes from a file; given in place it is refused |
| NormalForm.ResultIsNormal | src/config.cpp:50-115 | every result has at least one process per partition, positive budgets, a jitter of at most twice the budget, and CPU lists which are read to their end and accepted |
| NormalForm.ResultIsReadable | src/config.cpp:329-335 | so validation reads no list on which it would not return |
| Normalization.NormalizeReturnsIff | src/config.cpp:347-403 | for every configuration: normalization returns iff the first of the lists it reaches, in reading order, which is not accepted can be read to its end, if there is one |
| Normalization.ConfigCame | src/config.cpp:347-403 | and what stops it is that list, or a refusal which comes after all the lists it reaches |
| Normalization.ReadableReturns | src/config.cpp:374-376 | so it returns if all lists written in the configuration can be read to their end |
| NormalForm.EndlessConfig | src/config.cpp:374-376 | for instance it never returns if `demos_cpu` is `0-4294967295` |
| NormalForm.ConfigMeans | src/config.cpp:177-292 | every slice keeps its CPUs and frequency, and for each role its name or that of a partition with exactly the processes written in its place |
| NormalForm.NamesDifferIff | src/config.cpp:154-157 | the names of the result differ iff the written ones differ from each other and from those handed out |
| NormalForm.LookupFindsIt | src/config.cpp:405-412 | and then what the lookup by name finds is the very partition written in place |
| NormalForm.ConfigFinds | src/config.cpp:436-475 | so in every window every slice gets for either role exactly the processes which were written in it |
| Written.NormalizeMeans | src/config.cpp:52-292 | which configurations are accepted, by their written keys alone; and what an accepted one becomes: partitions and windows in their order, each process with every key it has, a bare string as its command, jitter 0 and no initialization by default, default budgets of six tenths (SC) or the whole (BE) of the window shared equally and cut to milliseconds; for each role of each slice the last entry, and for a window with its own keys one slice with its CPUs or `all` and exactly its entries |
| Written.DefaultComes | src/config.cpp:214-228 | the shares which normalization computes are these fractions in whole milliseconds |
| Normalization.Config.NormalizeConfig | src/config.cpp:347-403 | the normalization of a whole configuration, for every tree of which the lists reached can be read as in `NormalizeReturnsIff` |
| Normalization.Config.NormalizePartition | src/config.cpp:131-175 | one partition, its name and the counter of nameless ones |
| Normalization.Config.NormalizeSlice | src/config.cpp:202-239 | one slice, entry by entry in the order of its keys, and its CPU list after them; what its keys become is `Written.NormalizeMeans` |
| Normalization.Config.NormalizeWindow | src/config.cpp:241-292 | one window with its slices or its own keys |

## Left out

- Cgroup files, fork, exec and signals, the internals of eventfds, timerfds and the event loop: a frozen flag, counters and a deadline stand for them.
- YAML parsing, logging, the command line and messages of errors: configurations are parsed trees, an error is just an error.
- Sysfs access of the power manager: only the frequency last written to a cluster is kept.
- The fixed, alternating, minimum-BE and i.MX8 policies, which are simpler than the per-process one.
- Shutdown, SIGINT, SIGTERM, the overall timeout, and kills during the initialization.
- The random number generator: every stream within the bounds of the jitter is allowed.
- Floating-point rounding of default budgets, which are computed exactly.
- Unused members of `cpu_set` and the CPU masks of src/lib/cpuset.c.
- The CPUs and frequencies of slices in the scheduler's objects: `Assignment` and `PowerPolicy` treat them on their own.
- Synchronization messages printed at window starts, and sending the process to its working directory.
- Scheduler.Window.AddSlice: requires that no other slice of the window uses the partitions, by the assumption of distinct partitions.
- Scheduler.Slice.CompletedCb: requires that a slice which is passed a signal runs something, as the source asserts; otherwise the source aborts.
- EventLoop.Handle: ignores what nobody could have sent, and a signal which would be passed on to a slice which runs nothing, where the source aborts.
- CpuListParser.CpulistParse: requires that the loops end (`CpuListParser.ReturnsIff`, `ReturnsIffChecked`), because otherwise the source never returns.
- CpuList.CpulistCreate: requires a buffer of at least one character, because for the empty set the source writes the end mark without checking.
- The effect of a client's exit on the handshake: an exit is detected by `Barrier`, and nothing is awaited from that client afterwards.
- The bit arrays of `cpu_set` outside the codec and the restriction of a slice: sets of numbers stand for them.

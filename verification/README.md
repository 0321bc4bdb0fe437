# slinit: a verified model of its dependency, service and supervision logic

slinit is an init system and service manager. This project models, in Dafny, the parts of it
whose correctness is hard to see from any one function, and proves what holds of them for every
input, every run or every reachable state:

* the linter's cycle detector and depth check over the dependency graph;
* the loader: memoised recursive loading with a depth limit, the lists of dependents it keeps, the
  cycle check and the rollbacks of a reload, and the recalculation of dependency depths afterwards;
* the service state machine: reference counts, propagation and transition queues, pins, stops and
  releases that are passed on, and what a starting service waits for;
* the daemon supervisor: respawn limiter, stepped delay, stop escalation, interleaved with
  signals, exits and timers;
* the reload of the automount daemon;
* the text transformations that have to preserve meaning: shell quoting, the substitution in
  monitor commands, and the retry specification.

`dafny verify dfyconfig.toml` checks everything.

## Modules

| modules | about |
|---|---|
| Sequences, Graph, Services | walks, cycles, reachability, longest chains; services and their typed links |
| CheckCycles, CheckDepth | the linter |
| Loader, LoadSafety, LoadLoops, LoadLeft, LinkLists | loading: the loader itself, what a load guarantees, loops of descriptions, what failed loads leave, the lists of dependents |
| Reload, ReloadSafety, ReloadLoops | reloading: the replacement of a dependency list, what it guarantees, cycles through what it loads |
| DepthUpdate, DepthSafety, DepthShapes, DepthReload | recalculating depths, alone and as the end of a reload |
| Strays, FailedLoads | what services whose load failed do to the lists of dependents and to depths |
| Records, StopMachine, StartMachine, Propagation, ServiceRuns | the service state machine and its runs |
| Duties, Waits, Replay, DoubleAcquisition, WaitForever | what every run owes, and what is waited for in vain; single runs worked out in full |
| Respawn, Supervisor, SupervisorSafety, GiveUp | the supervisor |
| Mounts | the automount daemon |
| Substitute, ShellQuote, Retry | text |

The linter, the loader, the depth updater, the respawn limiter, the automount daemon, the retry
parser and the quoting loop work by updating state, so they are methods and classes, each proved
against a function or a property of its input. The supervisor is a machine of single steps, since
its steps interleave with a daemon, signals and a clock that do as they please. The service
records are values inside one world: their methods call each other back and forth around cycles
of services, and one value holds all of them.

## What turned out not to hold

Named in parentheses: the lemma that shows it, or that says exactly when the expected behaviour
does hold.

* Recalculating depths looks at every service once, in breadth-first order, so a service can keep
  a stale depth (`DiamondGoesStale`). `DepthsRightIff` says exactly when all depths come out
  right, and `LayeredIsRight` names a shape of graph for which only the limit matters.
* Loading does not reject a dependency loop: the half-loaded service is found in the set. The set
  is then depth-correct and closed exactly when no service that was added is on a loop
  (`LoadSoundIff`; after a success, exactly when the descriptions do not loop, `LoadedSoundIff`). If
  the load fails later, services on the loop are left with a link to a service that is not in the
  set (`LoopLeavesDanglingLink`; `WhatDangles` says which). What a failed load leaves in the set is
  what lines before the ones it failed at had called for (`FailureLeaves`), so on these lines it
  depends whether the set is sound (`FailedSoundIff`). An optional line whose target turns out to be
  missing can hide a loop (`UnresolvedOptionalHidesLoop`), so these five assume that optional lines
  resolve.
* A service whose load fails is taken out of the set, but not out of the lists of dependents of what
  it had been linked to (`FailedLoadStaysListed`; `InverseSurvivesIff` says exactly when, on the lines
  of the descriptions). A later recalculation of depths looks at it again and can overflow because of
  it, though every service of the set is within the limit (`OrphanOverflows`, and
  `FailedLoadOverflowsReload` for a load and a reload that get there).
* A failed reload puts all old links back but does not always take the new ones out: none of them
  when a dependency could not be loaded (`LoadErrorLeavesLink`), not the `before` ones when the depth
  overflowed (`OverflowLeavesBefore`). `FailureRestores` says exactly when the links are as before.
* A reload never removes a `before` link, and puts the described ones in once more
  (`BeforesPileUp`, `ReloadDoublesBefore`).
* The fast path is documented to be safe because rebuilding would give the same dependencies. It
  does not look at `before` lines, so a changed `before` list is ignored (`FastPathSkipsBefore`;
  `FastPathIsSafe` says exactly when rebuilding gives the same).
* The reload's cycle check looks at neither `before`, optional nor directory lists, and at
  loaded services only, so a reload can close a cycle (`UnloadedTargetClosesCycle`).
  `CheckedReloadAcyclicIff` and, for targets that are yet to be loaded, `ReloadAcyclicExactly` say
  exactly when; `CheckMisses` says what the check has overlooked then.
* Propagating acquisitions acquires through a link that already holds its target
  (`ADoubleAcquisition`), and nothing ever releases the extra acquisition (`NeverReleased`).
  `CountsAreAccountedFor` says that this is the only way for a reference count to be off.
* The description of dependency types says that ordering-only links take no part in requiring and
  releasing. Starting a service nevertheless makes some of them hold it (`OrderingLinkIsHeld` says
  exactly which), and nothing else does (`StartsFlow`). The model follows the code.
* Removing the last link that a starting service waits for leaves it starting: nobody tells it that
  there is nothing left to wait for (`RemovedLinkSticks` says exactly when). It stays so until it is
  stopped or started afresh or an ordering link comes into play (`StuckForGood`). Without such a
  removal, a start that has nothing left to wait for goes on (`StartsFlow`).
* A start can also wait for ever for a service that is not coming. `WaitsAreExplained` says for which,
  once no work is left: one that a down marker (`MarkedIsWaitedFor`) or the operator
  (`ManualIsWaitedFor`) keeps down; one that came up under a pin when it was already to stop, and so
  told nobody (`PinnedTellsIff`); one that stopped or failed while it still counted as required, which
  no acquisition starts again (`CountedIsNotStarted`); and one that the waiting service does not hold,
  since a restart waits for its dependencies again without acquiring them (`RestartWaitsAgain`).
* A service comes up only after what it cannot do without, as long as its process reports, and is given
  its start slot, only once it has been taken on (`DependenciesComeFirst`). The code itself asks for
  neither, so a report out of turn puts the service ahead (`UntimelyIsAhead`).
* After passing a hang-up on, the supervisor takes no signal, a request to shut down included, until
  the daemon exits (`DeafAfterHup`). That exit is neither counted nor delayed (`ExitsAreCounted`), so
  hang-ups restart a daemon any number of times at once (`HangUpsOutrunLimit`). A hang-up that comes
  while the supervisor waits before a restart ends it (`HangUpEndsBackoff`), though hang-ups never
  make it stop a daemon (`HangUpsStopNoDaemon`).
* The backoff delay is computed in 64 bits and wraps around (`HourlyOverflow`, within reach of a run;
  `DefaultOverflow` for the default options, after which the supervisor can give up again,
  `DefaultLateGiveUp`). `DelayRightIff` says exactly when the delay is the one meant.
* Some percent signs in a service name or a status make the five sequential replacements differ
  from one substitution (`CleanNameIff` and `CleanStatusIff` say exactly which).
* The comment on the retry parser says that signals may be numeric. A number is always read as a
  timeout (`NumbersAreTimeouts`), so a numeric signal is never accepted (`NumericSignalIsRefused`);
  and a signal without a timeout waits for ever, so nothing after it is sent (`RunSchedule`). The
  model follows the code.

## Model

| member | source | states |
|---|---|---|
| CheckCycles.DetectCycles | cmd/slinit-check/main.go:548-639 | terminates and returns 1 exactly when the links among the listed services form a directed cycle; what it prints is then a closed walk of such links |
| CheckCycles.SearchAll | cmd/slinit-check/main.go:573-638 | the search from every unvisited root either finds a closed walk or shows that the graph has no cycle |
| CheckCycles.Explore | cmd/slinit-check/main.go:578-635 | the explicit-stack search below one root keeps the three-colour invariant, blackens what it reaches, or returns a closed walk; it terminates |
| CheckCycles.FollowLink | cmd/slinit-check/main.go:594-634 | following one link prunes, reports, skips an unloaded target or pushes a frame, and always makes progress |
| CheckCycles.FrameOf | cmd/slinit-check/main.go:606-612 | the start of the cycle is always found on the stack |
| CheckCycles.StackCycle | cmd/slinit-check/main.go:613-624 | the stack from the frame of a service being visited on, closed by the current link, is a closed walk of links |
| CheckCycles.FinishFrame | cmd/slinit-check/main.go:584-592 | popping a finished frame keeps the search invariant, its service ranked above all it depends on |
| CheckCycles.AllBlackIsAcyclic | cmd/slinit-check/main.go:599-601 | when every service is cycle-free, the finishing order ranks the graph, so pruning never hides a cycle |
| CheckDepth.CheckDepthLimits | cmd/slinit-check/main.go:643-704 | the number of errors is exactly the number of services that are too deep |
| CheckDepth.TooDeepMeans | cmd/slinit-check/main.go:688-697 | too deep means: no cycle leads to the service, and its longest chain of counted links is longer than 32 |
| CheckDepth.CountedAre | cmd/slinit-check/main.go:655-666 | the links that count are all but the `before` and `after` ones |
| CheckDepth.FinalDepth | cmd/slinit-check/main.go:687-692 | when the in-degree of a service hits zero, the depth then computed is its longest chain, because services are dequeued in order of depth |
| CheckDepth.FollowQueues | cmd/slinit-check/main.go:692-699 | what has been queued is exactly what has no link left to count, also after one more link |
| CheckDepth.FollowKeeps | cmd/slinit-check/main.go:681-700 | processing one link keeps the whole invariant: degrees, queue, final depths, and the count of errors |
| CheckDepth.Dequeue | cmd/slinit-check/main.go:678-679 | taking the head of the queue keeps the invariant, depths not decreasing |
| CheckDepth.Drained | cmd/slinit-check/main.go:677-703 | once the queue is empty, the errors counted are exactly the services that are too deep; those never dequeued lie below a cycle and have no longest chain |
| CheckDepth.CountLinks | cmd/slinit-check/main.go:655-666 | the in-degrees count the non-ordering links into each listed service |
| Loader.LoadService | pkg/config/loader.go:90-97 | every call terminates, on cyclic and infinite descriptions too; every exit restores the depth and the names being loaded, nothing already loaded is touched, and the service is in the set exactly on success |
| Loader.LoadDependencies | pkg/config/loader.go:1298-1377 | the same for a list of dependencies |
| Loader.CalcDepth | pkg/config/loader.go:2229-2238 | the least number above the depths of all dependencies |
| Loader.DirLoader.Load | pkg/config/loader.go:90-97 | the method that updates the loader in place computes the function and restores its fields |
| Loader.DirLoader.LoadImpl | pkg/config/loader.go:653-683 | the same for the load proper, with the service in the set before its dependencies are |
| Loader.DirLoader.LoadDeps | pkg/config/loader.go:1298-1377 | the same for the loop over the dependency lines |
| LoadSafety.LoadIsSafe | pkg/config/loader.go:90-97 | from a closed, depth-correct set and descriptions without loops, any outcome leaves a closed, depth-correct set in which every depth is that of the longest chain and only what the descriptions ask for was added; the converse is LoadLoops.LoadSoundIff |
| LoadSafety.LoadIsComplete | pkg/config/loader.go:870-880 | if the chains also fit the limit, loading succeeds, adds exactly the services the descriptions ask for, with exactly their described links, at their longest-chain depths |
| LoadSafety.LoadKeepsSound | pkg/config/loader.go:653-683 | loading keeps the set closed and depth-correct around the services still being loaded |
| LoadSafety.LoadSucceeds | pkg/config/loader.go:653-683 | a description whose chains resolve within the remaining depth loads as described |
| LoadSafety.LoadAddsNeeded | pkg/config/loader.go:1298-1377 | on any outcome every added service ends a chain of descriptions from the requested one |
| LoadSafety.SoundMeansLongest | pkg/config/loader.go:2229-2238 | in a closed, depth-correct set there is no cycle and every recorded depth is the longest chain |
| LoadSafety.LoopIsLookedUp | pkg/config/loader.go:870-880 | a dependency that is half loaded counts as loaded |
| LoadSafety.LoopLeavesDanglingLink | pkg/config/loader.go:870-880 | a loop whose service then fails to load leaves a link to a service outside the set, for every such description |
| LoadLoops.LoadSoundIff | pkg/config/loader.go:90-97 | from a closed, depth-correct set and optional lines that resolve, whatever the outcome, the set is closed and depth-correct if and only if no service that was added is on a loop of descriptions |
| LoadLoops.LoadedSoundIff | pkg/config/loader.go:870-880 | a load that succeeds leaves such a set if and only if no chain of descriptions from the service comes back to itself |
| LoadLoops.LoadSucceedsIff | pkg/config/loader.go:653-683 | descriptions without loops whose chains fit the depth limit load if and only if every service they ask for, but for absent optional ones, is loaded or described by readable lines |
| LoadLoops.LoadedMeansResolved | pkg/config/loader.go:1298-1377 | the half of it that needs neither the limit nor the absence of loops |
| LoadLoops.LoadSoundIf | pkg/config/loader.go:90-97 | the sufficient half for all optional lines |
| LoadLoops.LoadedLinks | pkg/config/loader.go:1298-1377 | after a success every added service has exactly the links its description asks for, all of them to services of the set, and nothing was taken out of the set |
| LoadLoops.LoadLinks | pkg/config/loader.go:653-683 | on any outcome every added service has exactly the described links, in order, some perhaps to a service that was taken out of the set since |
| LoadLoops.LoadAddsSound | pkg/config/loader.go:653-683 | on any outcome and with any loops, an added service that is on no loop links to services of the set only and has its right depth |
| LoadLoops.WhatDangles | pkg/config/loader.go:870-880 | on any outcome an added service has a link out of the set if and only if it describes a service that is neither in the set nor absent altogether, and then it is on a loop |
| LoadLoops.NotFoundIsIncomplete | pkg/config/loader.go:1298-1377 | a load ends as not found only if something required, at whatever remove, is neither loaded nor described |
| LoadLoops.UnresolvedOptionalHidesLoop | pkg/config/loader.go:1318-1330 | a loop through an optional line whose target then turns out to be missing leaves a closed, depth-correct set |
| LoadLeft.FailureLeaves | pkg/config/loader.go:870-880 | a load that fails, with any loops, leaves the set with exactly those services besides the old ones that a line before one of the faults calls for, the faults being the services that failed, each with the line it failed at |
| LoadLeft.FailedSoundIff | pkg/config/loader.go:870-880 | so a failed load leaves a closed, depth-correct set if and only if no service that such a line calls for is on a loop |
| LoadLeft.LoadedGrows | pkg/config/loader.go:653-683 | a load that succeeds adds exactly what the descriptions call for, loops or not, whatever the depth limit |
| LinkLists.LoadMirrors | pkg/service/record.go:3098-3109 | over all records, those of failed loads included, the lists of dependencies and of dependents hold the same links, with multiplicity, after every load |
| LinkLists.InverseIff | pkg/service/set.go:252-260 | over the services of the set the lists of dependents are the inverse of the links if and only if no record that was taken out has a link into the set |
| LinkLists.InverseAfterLoad | pkg/config/loader.go:870-880 | a load keeps that inverse if and only if no record it left outside has a link into the set |
| Strays.InverseSurvivesIff | pkg/config/loader.go:870-880 | without loops, a load keeps it if and only if no service whose load fails on the way has an earlier line that put a link in |
| LinkLists.FailedLoadStaysListed | pkg/config/loader.go:873-877 | a failed load that had linked something breaks it, for every such description |
| Reload.CheckCycle | pkg/config/loader.go:543-582 | terminates and reports a cycle exactly when the reloaded service can be reached from a name on the depends-on, depends-ms, waits-for, prepared-by or after list of its description |
| Reload.ReplaceAcyclicIff | pkg/config/loader.go:456-464 | giving a service new targets keeps an acyclic graph acyclic exactly when none of them leads back to it |
| Reload.TearDown | pkg/config/loader.go:455-461 | removing by first match while walking backwards, at both ends of every link, computes the function that takes the links out |
| Reload.ReAdd | pkg/config/loader.go:466-470 | re-adding computes the function that puts the old links other than `before` ones in |
| Reload.TakeOutDeps | pkg/config/loader.go:455-461 | taking the links out leaves exactly the `before` ones, in order, and touches no other record |
| Reload.PutInDeps | pkg/config/loader.go:466-470 | putting links in appends exactly them, in order |
| Reload.ReloadMirrors | pkg/config/loader.go:427-496 | on each way out of a reload the two lists of every link hold the same links |
| Reload.DescDepsMatchCurrent | pkg/config/loader.go:1256-1296 | comparing sizes and one inclusion decides equality of the described and the installed links other than `before` ones; directories always rebuild |
| ReloadSafety.ReloadOutcome | pkg/config/loader.go:427-496 | the whole dependency list on each of the three ways out |
| ReloadSafety.ItemsMember | pkg/config/loader.go:1298-1377 | which links a description asks for, list by list and directory by directory, with kind and whether they are optional, and exactly those |
| ReloadSafety.ItemsInOrder | pkg/config/loader.go:1298-1377 | they come in the order of the lists, directories last |
| ReloadSafety.FailureRestores | pkg/config/loader.go:464-492 | after a failure every old link is back, and the list is the old one, up to order, if and only if no line of the description put in a link that this way out leaves behind: any link on a load error, a `before` link on an overflow |
| ReloadSafety.AddedIffPutsIn | pkg/config/loader.go:1298-1377 | the links put in are exactly those of the lines that are reached and whose target can be loaded |
| ReloadSafety.OverflowLeavesBefore | pkg/config/loader.go:478-491 | an overflow leaves a new `before` link |
| ReloadSafety.LoadErrorLeavesLink | pkg/config/loader.go:464-472 | a dependency that cannot be loaded leaves the links put in before it |
| ReloadSafety.BeforesPileUp | pkg/config/loader.go:455-464 | a successful rebuild keeps every old `before` link and puts the described ones in once more |
| ReloadSafety.ReloadDoublesBefore | pkg/config/loader.go:455-464 | an unchanged `before` link is there twice afterwards |
| ReloadSafety.ReloadSettles | pkg/config/loader.go:447-449 | after a successful reload the fast path, which ignores `before` links, applies if and only if no optional `after` target was skipped |
| ReloadSafety.ReloadAgain | pkg/config/loader.go:430-449 | a second reload of the same description then changes nothing |
| ReloadSafety.FastPathIsSafe | pkg/config/loader.go:430-449 | where the fast path is taken, rebuilding would give the same links other than `before` ones, and the same links altogether if and only if no line asks for a new `before` link |
| ReloadSafety.FastPathSkipsBefore | pkg/config/loader.go:430-449 | the fast path is taken although the description asks for a new `before` link |
| ReloadSafety.ReloadAcyclicIff | pkg/config/loader.go:427-496 | with all targets loaded, a reload keeps the graph acyclic exactly when no described target leads back; ReloadLoops.ReloadAcyclicExactly drops that premise |
| ReloadSafety.CheckedReloadAcyclicIff | pkg/config/loader.go:543-582 | after the cycle check has passed, exactly when no target outside the collected lists leads back |
| ReloadSafety.UncheckedAre | pkg/config/loader.go:543-558 | the targets that the check does not look at: those of `before`, optional and directory lists |
| ReloadSafety.UnloadedTargetClosesCycle | pkg/config/loader.go:543-582 | a target that is not loaded yet can pass the check and close a cycle |
| ReloadLoops.ReloadAcyclicExactly | pkg/config/loader.go:427-496 | a reload that loads whatever its description asks for keeps the graph acyclic if and only if no described target leads to the service, or round in a circle, over described links of what is not loaded yet and installed links of what is |
| ReloadLoops.WayBackIsCycle | pkg/config/loader.go:463-464 | such a way is a cycle of the reloaded set |
| ReloadLoops.CycleIsWayBack | pkg/config/loader.go:463-464 | every new cycle of the reloaded set is such a way |
| ReloadLoops.CheckMisses | pkg/config/loader.go:543-582 | where the check has passed, the way starts at a line that it does not look at, or passes through a service that the reload loads |
| DepthUpdate.Process | pkg/service/depth.go:36-62 | the recalculation terminates on every graph, cycles and records outside the set included, and loses no record |
| DepthUpdate.RollbackIsExact | pkg/service/depth.go:70-80 | whatever was queued, on any graph and however it ended, rolling back gives exactly the set before |
| DepthUpdate.DepDepthUpdater.ProcessUpdates | pkg/service/depth.go:36-62 | the loop over the growing queue computes the function on the loader's own lists of dependents |
| DepthUpdate.DepDepthUpdater.EnqueueAll | pkg/service/depth.go:51-58 | the dependents that are not queued are queued, once, with their present depths |
| DepthUpdate.DepDepthUpdater.HasService | pkg/service/depth.go:82-89 | the linear search decides membership in the queue |
| DepthUpdate.DepDepthUpdater.Rollback | pkg/service/depth.go:70-80 | restores the remembered depths, and does nothing after a commit |
| DepthSafety.DepthsRightIff | pkg/service/depth.go:33-62 | where only one service changed its links and no cycle was closed, the recalculation succeeds with every depth of the set the longest chain if and only if each record met is in time, orphans included |
| DepthSafety.InTimeMeans | pkg/service/depth.go:36-49 | being in time, a matter of the order in which the dependencies of a service are met and of their old depths, is finding the right depth, within the limit |
| DepthSafety.FollowsSweep | pkg/service/depth.go:38-60 | the same from any point of the queue: it follows the breadth-first sweep as long as every record is in time |
| DepthSafety.UnsweptIsRight | pkg/service/depth.go:48-58 | a service that is never queued has its right depth already |
| DepthSafety.RightDepthsSound | pkg/service/depth.go:91-101 | in an acyclic closed set, longest chains satisfy the depth equation at every service |
| DepthShapes.LayeredIsRight | pkg/service/depth.go:36-62 | if the services above come in layers, all depths come out right exactly when no record met goes over the limit |
| DepthShapes.DiamondGoesStale | pkg/service/depth.go:50-58 | a service met before one of its dependencies has settled ends with a depth that is too small, and no error |
| DepthShapes.OrphanOverflows | pkg/service/depth.go:36-62 | where a service gets to the limit and lists one record, outside the set, the recalculation overflows, though with right depths every service of the set is within the limit |
| FailedLoads.FailedLoadOverflowsReload | pkg/config/loader.go:870-880 | a load that fails after linking a leaf, and then a reload that gives this leaf a dependency one below the limit, come to such a state: the reload overflows |
| DepthReload.ReloadKeepsDepths | pkg/config/loader.go:474-493 | from a depth-correct set, a reload that loads whatever it asks for and closes no cycle ends depth-correct exactly under the conditions of the two theorems above |
| DepthReload.ReloadReadies | pkg/config/loader.go:463-476 | before the recalculation nothing dangles and only the depth of the reloaded service can be wrong, among the newly loaded services too |
| DepthReload.Update | pkg/config/loader.go:427-496 | the whole replacement of a dependency list in place, at both ends of every link; on overflow the links are put back and every depth is what it was |
| DepthReload.Recalculate | pkg/config/loader.go:474-495 | the last part of it: new depths, or links and depths put back |
| DepthReload.Revert | pkg/config/loader.go:478-491 | putting links back first and depths afterwards gives what the links alone would give |
| Strays.LoadMakesNoStray | pkg/config/loader.go:653-683 | without loops no load, whatever its outcome, makes a link to a record outside the set, which the depth theorems assume |
| Strays.ReloadMakesNoStray | pkg/config/loader.go:427-496 | nor does a reload, on any of its ways out |
| StopMachine.Release | pkg/service/record.go:2259-2283 | terminates on every graph of links, takes exactly one acquisition off the count; after the last one the service is not wanted any more, is to release what it holds unless it is pinned or had not acquired it, and stops if it can; any other changes no state; a state changes only from up to stopping and never under a pin |
| StopMachine.DoStop | pkg/service/record.go:2866-2982 | terminates, cascades of releases included; leaves a service alone that it or a dependent pins up, and has any other that need not be interrupted stopping, either queued or waiting for a hard dependent that is not down; whatever depends hard on a service that is to stay down is told, and if that is news to it is flagged for a stop or has a reason to stay; dependents to be restarted are flagged, forced stops passed on, soft links of a service that stays down broken; an explicit activation goes unless the service restarts, and one whose restarts are used up will not restart; counts, queues and pins are kept |
| StopMachine.StopDependents | pkg/service/record.go:3019-3070 | what comes to each listed dependent, as for stopping; it reports all of them down only if every hard one is stopped or has not got beyond waiting, and otherwise some hard one is not, also afterwards |
| StopMachine.StopHard | pkg/service/record.go:3041-3056 | a hard dependent that is up and wanted is flagged for a stop and queued, with its explicit activation gone, if the service is to stay down; one that is to restart too is flagged, queued and marked for a restart |
| StopMachine.EnterStopping | pkg/service/record.go:2954-2981 | the service is stopping afterwards exactly if it was up and need not be interrupted, or could be; it is queued, or waits for its dependents |
| StopMachine.ForcedStop | pkg/service/record.go:2160-2168 | a service that is not stopped is marked for a forced stop and flagged for it, unless it is pinned up |
| StartMachine.DoStart | pkg/service/record.go:2399-2450 | starts exactly a service that is stopped, or still waits to stop without being forced to, and that neither a pin nor a marker keeps down, and changes the state of no other; a stopped one is queued to acquire its dependencies, unless it had still to release them; keeps the counts, the queue and every pinned service, the started one included |
| StartMachine.InitiateStart | pkg/service/record.go:2452-2495 | the service waits for every dependency that is not up, for an ordering one if that is starting, and every starting dependent that is ordered after it waits for it; nothing that it cannot do without is left out |
| StartMachine.HasStopped | pkg/service/record.go:2629-2808 | the service is starting again if it is wanted, not pinned down and has restarts left, and stopped otherwise, unless it is chained to itself; if its restarts are used up it is stopped and counts as failed; keeps the counts, the queue and every other pinned service |
| StartMachine.Halt | pkg/service/record.go:2724-2771 | dependencies that wait for their dependents to stop look again; a service that ends gives up its activation and every soft dependent; one that starts again has what prepares it stop first, to be restarted |
| StartMachine.Chain | pkg/service/record.go:2790-2807 | the next service is asked to start, unless this one failed |
| StartMachine.Fail | pkg/service/record.go:2812-2864 | every link to the failed service lets go, each hard dependent that is starting is flagged for failure, no soft one waits any more; the activation and the start pin are gone |
| StartMachine.HasStarted | pkg/service/record.go:2542-2626 | only the first report counts; a service that is to stop is stopping unless pinned, any other is up and has told every dependent that waited for it |
| StartMachine.AllDepsStarted | pkg/service/record.go:2506-2539 | the service is up, has failed, or waits for its process or for a slot, as these answer; it is not rushed |
| ServiceRuns.GrantSlot | pkg/service/record.go:2516-2530 | the same once it is given a slot |
| StartMachine.ExecuteTransition | pkg/service/record.go:2361-2373 | a service is taken on only when it waits for no dependency, and brought down only when no hard dependent holds it; then it is not left waiting |
| StartMachine.DependentStopped | pkg/service/record.go:2990-3008 | a service that waits for its dependents to stop looks again; one that is up only as long as it is needed, and is not any more, is flagged for a stop |
| StartMachine.Restart | pkg/service/record.go:2149-2157 | a started service without a pin is stopping afterwards, by force; any other is left alone |
| StartMachine.Start | pkg/service/record.go:2062-2080 | a service pinned down is left alone; any other is explicitly active and wanted afterwards, and starting if it can be started once its down marker is cleared |
| StartMachine.OrderingLinkIsHeld | pkg/service/record.go:2399-2432 | a start makes an ordering-only link hold if and only if it starts its stopped, unpinned, unmarked target and the other end is up |
| Propagation.DoPropagation | pkg/service/record.go:2297-2358 | a pass leaves no flag of its record behind, and changes counts against what they count by exactly the acquisitions through links already holding; no stop and no release that was asked for is dropped; a service with a pending failure is down afterwards, or was started again |
| Propagation.AcquireAll | pkg/service/record.go:2298-2306 | how far the counts move against what they count, for every list of links |
| Propagation.PhaseFailure | pkg/service/record.go:2313-2318 | a pending failure stops the service, pinned or not |
| Propagation.PhaseRequire | pkg/service/record.go:2298-2306 | all links of the service hold afterwards but `before` and `after` ones, which hold no more than before |
| Propagation.PhaseRelease | pkg/service/record.go:2286-2311 | if it was asked for, no link of the service holds afterwards, and the count of every service has gone down by at least the number of links that held it |
| Propagation.PhaseStart | pkg/service/record.go:2320-2323 | a flagged service starts exactly if it can be started |
| Propagation.PhaseStop | pkg/service/record.go:2325-2328 | a flagged service without a pin that need not be interrupted is stopping; one that is to restart keeps its activation |
| Propagation.PhasePin | pkg/service/record.go:2330-2357 | the mark for a pinned dependent is set exactly if one is pinned up that depends hard on the service |
| Propagation.RePin | pkg/service/record.go:2332-2356 | a change of that mark is passed on to what the service depends on hard; a service that is to stop, or forced to, and loses its last pin that way stops |
| ServiceRuns.CountsAreAccountedFor | pkg/service/record.go:2245-2306 | in every run every reference count is its explicit activation plus its holders plus the double acquisitions made, so no count falls below what it counts, and it is exact if and only if none was made |
| ServiceRuns.NoWorkIsLost | pkg/service/set.go:341-390 | in every run a record with flagged work is in the propagation queue, and a drained queue leaves no work |
| ServiceRuns.PinsHold | pkg/service/record.go:2177-2240 | through every run a started service pinned started stays started and a stopped one pinned stopped stays stopped, unless its own process reports otherwise, a failure was pending on it, or its pins are taken off |
| ServiceRuns.StepAccounts | pkg/service/record.go:2062-3160 | the accounting of every single step |
| ServiceRuns.StepQueueSound | pkg/service/set.go:341-390 | every single step keeps membership in the propagation queue, marks and flags in step |
| ServiceRuns.Stop | pkg/service/record.go:2119-2146 | the explicit activation goes; if the request says so, or nobody else requires the service, it is not wanted any more, and unless pinned stops if it can, its hard dependents told, and releases what it holds if nobody requires it; otherwise no record changes |
| ServiceRuns.Unpin | pkg/service/record.go:2199-2235 | both pins go, but for the stop pin of a service that a dependent pins up; what it depends on hard is flagged to look at its pins; a started service that is to stop, or forced to, and that no dependent pins, is stopping |
| ServiceRuns.PinStart | pkg/service/record.go:2177-2193 | the service is pinned, and what it depends on hard is flagged to look at its pins |
| ServiceRuns.Wake | pkg/service/record.go:2084-2117 | a service that may be woken and has a dependent that is up starts if it can, held by all of these; otherwise nothing changes |
| ServiceRuns.AddDep | pkg/service/record.go:3098-3122 | the new link holds its target exactly if its service is up and the link is hard, or soft and the target is up too |
| ServiceRuns.RmDep | pkg/service/record.go:3125-3152 | the link is gone, and what it was the last to hold is released as by Release |
| ServiceRuns.StartsFlow | pkg/service/record.go:2399-2540 | in every run an ordering link that holds leads to a service that was started from being stopped; a record is marked for a transition exactly when it is in that queue; and unless a link was removed while it was waited for, a starting service with nothing left to wait for is queued |
| ServiceRuns.StepMoves | pkg/service/record.go:2062-3160 | the same for every single step |
| ServiceRuns.RemovedLinkSticks | pkg/service/record.go:3125-3152 | removing a link leaves its service stuck if and only if it is starting, not queued, waits for no other link, and is still starting afterwards, which it is unless the removal stops the target of the link |
| ServiceRuns.DoubledForGood | pkg/service/record.go:2298-2306 | double acquisitions add up over a run: no continuation makes up for one |
| Duties.StopsAreHeeded | pkg/service/record.go:2325-2328 | in every run a service that was flagged for a stop and is up without a pin is still flagged and queued, so once the queue is drained no such service is up |
| Duties.ReleasesAreHeeded | pkg/service/record.go:2286-2311 | in every run a service that was asked to release, and has acquired nothing since, is still flagged and queued if it holds a dependency, so once the queue is drained it holds none |
| Duties.DependenciesComeFirst | pkg/service/record.go:2472-2504 | in every run with timely reports, a hard link whose target was not up when its service began to start, and has not come up since, belongs to a service that is down, stopping, or starting and waiting for that link |
| Duties.UntimelyIsAhead | pkg/service/record.go:2542-2628 | a report of a service that was not taken on puts it ahead of all that it lacks, unless it is to stop at once |
| Duties.StepHeeds | pkg/service/record.go:2062-3160 | no single step, of whatever kind, leaves a stop or a release ignored that was not |
| Duties.StepUnhurried | pkg/service/record.go:2062-3160 | no single step with timely reports lets a service get ahead of one that it needs |
| Waits.WaitsAreExplained | pkg/service/record.go:2245-2540 | in every run, once the propagation queue is drained, a link that is still waited for leads to a service that is starting or stopping, or came up without telling, or, if it is more than an ordering link, is down and not held by it, manual, marked down, or stopped or failed while it counted as required |
| Waits.WaitingIsExplained | pkg/service/set.go:341-390 | once both queues are drained, a starting service that waits has such a link, unless a link was removed while it was waited for |
| Waits.PinnedTellsIff | pkg/service/record.go:2542-2628 | a service pinned up that comes up tells its dependents if and only if it is not to stop again |
| Waits.CountedIsNotStarted | pkg/service/record.go:2245-2257 | acquiring a service that counts as required already flags no start, whatever its state |
| Waits.RestartWaitsAgain | pkg/service/record.go:2738-2760 | a restarting service waits for a dependency that is down and not held, and neither holds nor acquires it afterwards |
| Waits.StuckForGood | pkg/service/record.go:2984-2988 | a stuck start stays stuck through every run in which it is neither stopped nor started afresh nor ordered by a service that begins to start, and its own process reports nothing |
| WaitForever.MarkedIsWaitedFor | pkg/service/record.go:2412-2415 | a run from a new service set, to where no work is left and a service waits for one with a down marker |
| WaitForever.ManualIsWaitedFor | pkg/service/record.go:2245-2257 | the same for one that the operator has to start |
| DoubleAcquisition.ADoubleAcquisition | pkg/service/record.go:2298-2306 | a run from a new service set in which a service ends with one acquisition that nothing holds |
| DoubleAcquisition.NeverReleased | pkg/service/record.go:2259-2306 | after every continuation of that run the count is still more than what it counts |
| Respawn.PruningIsExact | cmd/slinit-supervise-daemon/respawn.go:23-41 | for crashes in order, the pruned window is the window of the whole history |
| Respawn.RespawnLimiter.AllowRespawn | cmd/slinit-supervise-daemon/respawn.go:23-41 | the new window and the decision, from the old window |
| Respawn.RespawnLimiter.Compact | cmd/slinit-supervise-daemon/respawn.go:28-34 | compacting in place keeps exactly the live entries, in order |
| Respawn.Feed | cmd/slinit-supervise-daemon/respawn.go:20-41 | every decision equals that of a limiter that keeps the whole history |
| Respawn.WaitSumGrows | cmd/slinit-supervise-daemon/respawn.go:46-59 | without overflow, later runs of delays are at least as long |
| Respawn.DelayRightIff | cmd/slinit-supervise-daemon/respawn.go:46-59 | the delay is the base plus the steps, capped, if and only if the sum does not wrap around, or both it and the wrapped sum are at the cap or above |
| SupervisorSafety.OneDaemonAlways | cmd/slinit-supervise-daemon/supervisor.go:19-102 | in every interleaving at most one daemon is alive, one is started only after the exits of all earlier ones were received, and none is alive at the end unless stopping it failed |
| SupervisorSafety.ShutdownFollowsSchedule | cmd/slinit-supervise-daemon/supervisor.go:193-218 | a shutdown sends a prefix of the schedule's signals in order, nothing after a step that waits for ever, and fails only after the whole schedule |
| SupervisorSafety.StepsTakeTheirTime | cmd/slinit-supervise-daemon/supervisor.go:193-218 | in every run, between a step of the schedule and any later one at least the timeout of the first passes |
| SupervisorSafety.FailedStopTakesAll | cmd/slinit-supervise-daemon/supervisor.go:193-218 | a stop that fails has taken at least the sum of all timeouts |
| SupervisorSafety.FailedStopCanBeExact | cmd/slinit-supervise-daemon/supervisor.go:193-218 | and for every schedule of positive timeouts a run fails after exactly that sum |
| SupervisorSafety.SignalsWaiting | cmd/slinit-supervise-daemon/supervisor.go:37-38 | in every run at most four signals wait to be taken |
| SupervisorSafety.HangUpIsPassedOn | cmd/slinit-supervise-daemon/supervisor.go:93-98 | in every run, a supervisor that waits after a hang-up has passed it on to the daemon, as the last signal it sent |
| SupervisorSafety.DeafAfterHup | cmd/slinit-supervise-daemon/supervisor.go:92-98 | from a forwarded hang-up until the daemon dies the supervisor takes no signal |
| SupervisorSafety.ExitsAreCounted | cmd/slinit-supervise-daemon/supervisor.go:54-98 | in every run each received exit is a counted crash unless a hang-up had been passed on, and the number of delays taken is the number of crashes let through |
| SupervisorSafety.HangUpsOutrunLimit | cmd/slinit-supervise-daemon/supervisor.go:92-98 | for every number of exits there is a run, with any limit and delay, in which none is counted and no time passes |
| SupervisorSafety.HangUpsStopNoDaemon | cmd/slinit-supervise-daemon/supervisor.go:83-98 | hang-ups alone never make the supervisor stop its daemon |
| SupervisorSafety.HangUpEndsBackoff | cmd/slinit-supervise-daemon/supervisor.go:67-76 | one that comes during the wait before a restart ends the supervisor, with no daemon alive |
| GiveUp.GiveUpIff | cmd/slinit-supervise-daemon/supervisor.go:44-82 | some run gives up at counted crash n if and only if n is more than the limit and the waits before it fit the period |
| GiveUp.NoLateGiveUp | cmd/slinit-supervise-daemon/supervisor.go:44-82 | once as many delays in a row as the limit exceed the period, no run gives up from there on |
| GiveUp.DefaultGiveUps | cmd/slinit-supervise-daemon/options.go:27-32 | with the default options a run can give up at counted crash 11, 12, 13 and 14 and at no other, for as many crashes as the delay is computed without overflow |
| GiveUp.DefaultOverflow | cmd/slinit-supervise-daemon/respawn.go:51-54 | one respawn after the last without overflow, the default delay wraps to nothing |
| GiveUp.DefaultLateGiveUp | cmd/slinit-supervise-daemon/respawn.go:51-54 | so a run can give up again, ten crashes later |
| GiveUp.HourlyOverflow | cmd/slinit-supervise-daemon/respawn.go:46-59 | with steps of an hour capped at a millisecond and no limit, a run comes to a delay that is negative, after 2562048 respawns |
| Mounts.MountDaemon.Reload | cmd/slinit-mount/main.go:61-143 | every path keeps the descriptor map, the active list, the watched pipes and the open mounts in one-to-one agreement; an old mount is kept if and only if some unit agrees with it on source, path, type, options, timeout, autofs type and mode; a unit has a mount that agrees with it on all of these if and only if it had one or its set-up succeeds; a second reload changes nothing |
| Mounts.MountDaemon.RemoveStale | cmd/slinit-mount/main.go:84-110 | closes exactly the mounts that are gone or changed, in all four views |
| Mounts.MountDaemon.AddMissing | cmd/slinit-mount/main.go:112-139 | sets up what is not served, whatever fails |
| Mounts.MountDaemon.Establish | cmd/slinit-mount/main.go:119-136 | a mount that cannot be registered is opened and closed again, and the four views agree on every path |
| Mounts.CloseKeepsAgree | cmd/slinit-mount/main.go:89-109 | closing any set of mounts in all four views keeps them in agreement |
| Mounts.OpenKeepsAgree | cmd/slinit-mount/main.go:125-136 | opening one keeps them in agreement |
| Mounts.ReloadReconciles | cmd/slinit-mount/main.go:84-139 | with distinct paths, only described mounts run, one per path, and an old mount is kept, as the same object, if and only if it is still described |
| Mounts.ReloadCompletes | cmd/slinit-mount/main.go:112-139 | if every set-up succeeds, every unit runs |
| Mounts.ReloadServes | cmd/slinit-mount/main.go:112-139 | unit by unit, whatever fails: a unit is served afterwards if and only if it was served before or its own set-up succeeds |
| Mounts.ChangedIff | cmd/slinit-mount/main.go:47-54 | a unit counts as changed if and only if it differs in anything but its name |
| Mounts.NothingStale | cmd/slinit-mount/main.go:84-99 | when the units already run, nothing is closed and nothing is missing |
| Substitute.ExpandIsSimultaneous | cmd/slinit-monitor/main.go:295-302 | for every template and value without NUL and every clean name and status, the five replacements equal one left-to-right substitution; the value may hold percent signs, and so may name and status where no placeholder can arise |
| Substitute.CleanNameIff | cmd/slinit-monitor/main.go:295-302 | a name goes right with every template, clean status and value exactly when it holds no NUL, no `%s` and no `%v` and does not end in a percent sign |
| Substitute.CleanStatusIff | cmd/slinit-monitor/main.go:295-302 | a status goes right with every template, clean name and value exactly when it holds no NUL and no `%v` and does not end in a percent sign |
| ShellQuote.Quote | pkg/config/openrc_confd.go:104-120 | the loop over the bytes computes the same string as the replacement in the control tool |
| ShellQuote.QuoteReadsBack | pkg/config/openrc_confd.go:104-120 | for every string, the shell's quoting rules read the quoted form back as that string, wherever it stands |
| ShellQuote.QuoteIsOneWord | cmd/slinitctl/main.go:1531-1533 | and on its own as exactly one word |
| ShellQuote.WrapWithSleep | cmd/slinitctl/main.go:1516-1529 | the builder loop computes the script |
| ShellQuote.SleepScriptReadsBack | cmd/slinitctl/main.go:1516-1529 | for every duration and argument list, empty arguments included, the shell sees `sleep`, the duration, `;`, `exec` and exactly the arguments |
| ShellQuote.InitScriptReadsBack | pkg/config/openrc_confd.go:67-76 | for every path, name, script and action, the shell sees exactly the intended commands |
| Retry.ParseRetry | cmd/slinit-start-stop-daemon/retry.go:27-83 | the parser accepts exactly the well-formed specifications, returns their steps, and never an empty list |
| Retry.ParsePieces | cmd/slinit-start-stop-daemon/retry.go:42-82 | the loop that holds back a signal until its timeout may have come equals a look-ahead reading of the tokens |
| Retry.BareNumberIsTwoSteps | cmd/slinit-start-stop-daemon/retry.go:33-41 | a bare number reads as the specification with the default signal and then KILL, each with that timeout |
| Retry.SpacesDoNotMatter | cmd/slinit-start-stop-daemon/retry.go:28-45 | spaces around a specification, or a piece of it, do not matter |
| Retry.CaseDoesNotMatter | cmd/slinit-start-stop-daemon/retry.go:120-138 | nor does the case of a signal name, with or without the SIG prefix |
| Retry.StepForSignal | cmd/slinit-supervise-daemon/retry.go:24-78 | the steps correspond to the signal tokens in order, each with the number right after it as its timeout, or none |
| Retry.NumbersAreTimeouts | cmd/slinit-start-stop-daemon/retry.go:42-82 | the signal of every step comes from a piece that is not a number, and in an accepted specification a number comes right after a signal |
| Retry.NumericSignalIsRefused | cmd/slinit-start-stop-daemon/retry.go:19-25 | `15/30` is refused |
| Retry.RetryReadsBack | cmd/slinit-start-stop-daemon/retry.go:27-83 | for every list of named signals, prefixed or not, with or without timeouts that fit, reading undoes printing |
| Retry.RunSchedule | cmd/slinit-start-stop-daemon/stop.go:71-97 | sends a prefix of the schedule's signals, each later one only after the process outlived the step before; succeeds if and only if the process is gone at the last step tried, there being none to signal or its wait having ended with the exit, and fails for want of exit if and only if it outlives every step |

## Left out

- StopMachine.DoStop: a hard dependent that is told counts as having a reason to stay if nobody requires it any more; Duties.StopsAreHeeded speaks of those that are flagged. Fields that matter to nothing else in the model, such as times and reasons, are left out here and in the other functions of the service state machine.
- Duties.StopsAreHeeded: what a service was told counts until it begins to start again, comes up, fails, or loses a pin.
- Duties.DependenciesComeFirst: assumes timely reports, which UntimelyIsAhead shows to be needed, and speaks of links from when they are added.
- StartMachine.ExecuteTransition: that a service is brought down only when no hard dependent holds it is said of the step; that no dependent takes hold of it meanwhile is not.
- LoadSafety.LoadIsComplete: its condition on the length of chains is sufficient and not necessary, because what is loaded first decides how deep the recursion goes; LoadLoops.LoadSucceedsIff makes the rest of its condition exact.
- LoadLoops.LoadSoundIff: assumes that optional lines resolve, which UnresolvedOptionalHidesLoop shows to be needed; the sufficient half, LoadSoundIf, does not. For failed loads it speaks of what is left in the set, which LoadLeft.FailureLeaves describes.
- LoadLoops.WhatDangles: the same.
- Strays.InverseSurvivesIff: assumes that there are no loops and no links to records outside the set; LinkLists.InverseAfterLoad does not.
- ReloadLoops.ReloadAcyclicExactly: assumes that the described dependencies load and that optional lines resolve; a reload that fails to load something is covered by ReloadSafety.FailureRestores.
- DepthSafety.DepthsRightIff: assumes, like the other theorems on depths, that nothing links to a record outside the set, which Strays shows loads and reloads to keep without loops.
- DepthReload.ReloadKeepsDepths: the same.
- GiveUp.NoLateGiveUp: assumes that the delays up to that crash do not overflow, which DefaultLateGiveUp shows to be needed; GiveUp.GiveUpIff does not.
- GiveUp.DefaultGiveUps: speaks of crashes up to that limit only, for the same reason.
- ServiceRuns.RemovedLinkSticks: whether the service is still starting afterwards, where the removal stops the target, is left to the removal; the exact form assumes that marks and queue are in step, as they are in every run.
- Waits.WaitsAreExplained: each of its cases is possible by a lemma named above, but for the target that stopped or failed while it counted as required, of which no run is given.
- Waits.StuckForGood: does not say what becomes of a stuck start that an ordering link brings into play again.
- ServiceRuns.PinsHold: assumes that no failure is pending on the service; Propagation.PhaseFailure says what becomes of it otherwise.
- ReloadSafety.FailureRestores: the links a service has to a record outside the set go by the key of that record, while the code sometimes compares them by a name that another service may have been given since.
- The counter of active services, which is increased and decreased under different conditions, and the shutdown that waits for it.
- Mounts.MountDaemon.Reload: an unmount that the kernel refuses still counts as closed, as in the code, which logs it and goes on.
- Retry.RunSchedule: a wait without a timeout that never ends is not a result of the method.
- Service records are values of one world, so aliasing between records is not captured.
- Aliases, placeholders, consumer-of links and shared loggers of the loader; what makes a description invalid is one outcome.
- In the service state machine: the console queue, the inside of the start limiter, timers, listeners, stop reasons, system actions, unloading and shutting down all services. How a service's process answers is a parameter.
- The order in which Go ranges over maps in the automount reload is any order; process ids are not reused while the supervisor runs.
- Upper-casing in the retry parser covers the characters that can become a letter of a signal name.
- The NUMA node list and its mask, and the layered sysctl files: only easy members.
- The control protocol and its packets, snapshot and persistence, seccomp, the runner's sandboxing, command-line parsing, the `rc-*` tools, user and temporary file tools, and all output.

# A Dafny model of gpu-bouncer

gpu-bouncer arbitrates one GPU between AI services. A daemon polls the card and
the services, decides who has to let go of video memory for whom, and asks them
to. It also answers clients on a control socket, each on a goroutine of its own,
and runs every action on a goroutine of its own. This project models that
behaviour and proves what it keeps.

| file | models |
|---|---|
| `Machine`, `Ordering`, `Sorting`, `Domain` | Go integers, string order, the contract of a stable sort, the values the packages share |
| `Scheduler` | `internal/scheduler`: loops and sorts as methods, each proved against a function |
| `Greedy`, `FewestOfAll`, `OrderIndependence`, `Accounting`, `PlainTerms`, `PlanMeans` | theorems about those functions: shape and minimality of a plan, independence of input order, nothing silent, no wrap-around, and what a plan means in observed figures alone, case by case |
| `Observe` | `internal/observe`: probes gathered concurrently, index by index |
| `Tables`, `Daemon` | the three maps under the daemon's mutex; one method for each critical section, and what each does as a function of the maps |
| `World` | every interleaving: a planner goroutine for the loop or a connection, a worker goroutine for each action, one critical section or outside call for each step |
| `SlotSafety`, `NoGap`, `Runs` | invariants of every run, and the theorems that follow |
| `Marks`, `Probed`, `Uncalled` | in every run: a planner sees in flight or cooling only what is, every action is warranted by what its own planner's probe answered, and nothing is reported as done that was not tried |
| `Retry`, `RetryBreaks` | how often a useless action is retried, and which configurations let the loop retry it sooner |
| `Targets` | which services the daemon can ever act on, by what verb and for whose sake |
| `Preview` | a dry-run request against the real one |
| `Ollama`, `ReleaseTime` | the release and drain loop on a virtual clock against an arbitrary server, and how long it may take |
| `Deadlines`, `Lines`, `Protocol`, `Handlers` | the deadlines of the two sides, reading lines off a stream, the exchange of replies, and how the daemon answers each request |
| `Served` | the handlers, one request at a time, against the interleavings |
| `ConfigKeys`, `ConfigLayers`, `ConfigLoad`, `LastWriterWins`, `LoadsMean` | bounds on raw values, overlays, loading and validating, what the result is key by key, and which files load |
| `Sysfs` | numbering of DRM cards |
| `EndToEnd` | what holds on any configuration that loads |
| `ExampleFiles`, `Examples` | files that load, and the inputs on them for which a promise fails |

A run is any list of steps that were enabled when taken, from a daemon with empty
tables. What the outside world answers (probes, GPU readings, adapter results,
the passing of time) is part of each step and unrestricted, except that a probe
reports only what its adapter's Probe can: no memory for llama-swap or a systemd
unit, idleness from ComfyUI alone (`Observe.CanAnswer`).

## Where the code does not do what it says

Each has a lemma with a case in which the promise fails, on a configuration that
loads wherever one is involved, and a lemma that says exactly when it is kept.

- A dry-run request is documented to report the plan of the real one
  (internal/daemon/daemon.go:676-679). It does unless the service holds the
  winning claim for another amount: `Preview.PreviewCanBeWrong`,
  `Preview.PreviewIsExactUnlessResized`.
- "At most one useless action in a cooldown" fails for an action that has not
  reached its slot when the next round looks. The loop alone can break it on a
  loaded configuration exactly when it may act on anything there at all, which
  takes an Ollama or ComfyUI service below another:
  `Examples.TwoUselessInOneCooldown`, `RetryBreaks.BreaksIffExposed`,
  `EndToEnd.LoadedRetryBreaksIff`. It is kept by every run in which only the
  loop acts on that service and each such action has reached its slot by then:
  `Retry.BoundedRetry`.
- `actionBound` is documented as how long one action may take
  (internal/daemon/daemon.go:404-405), and the client is documented to wait for as
  long as the announced work can take (internal/ipc/ipc.go:363-367). An Ollama
  release makes n + 2 calls or more, each with its own timeout. No timeout a file
  can set makes `actionBound` cover it; the client's wait and the daemon's budget
  cover the releases of n models exactly when they reach the worst of them, which
  on the default timeouts the wait never does and the budget does up to twelve:
  `ReleaseTime.ReleaseOutlastsActionBound`, `ReleaseTime.ActionBoundBoundsReleasesIff`,
  `ReleaseTime.DeadlinesCoverIff`, `ReleaseTime.DefaultsCover`.
- The sum in `actionBound` is documented not to wrap
  (internal/daemon/daemon.go:411). Two negative figures make it:
  `Deadlines.NegativeFiguresWrap`, `Deadlines.ActionBoundIsCappedSumIff`. No config
  that loads has any: `EndToEnd.LoadedBoundsAreSums`.
- An action that may take less than a millisecond is announced as 0, and the client
  falls back on its flat wait, which can outlast the daemon's budget:
  `Examples.DeadlinesCross` (a timeout of 900 us and a drain of 50 us),
  `Deadlines.DeadlinesNestIff`.
- `evict --all-except` over a config with only the kept service answers with
  neither an action nor a note: `Examples.EvictAllExceptSilent`,
  `Accounting.EvictAllExceptSilentIff`.
- Decide's plan is the smallest among sets that leave no lower-priority service
  alone for the sake of a higher one (`Greedy.FewestDisruptions`), and not always
  the smallest of all: `Examples.FewestOnlyAmongClosed`,
  `FewestOfAll.SmallestOfAllIff`.

## Model

| member | source | states |
|---|---|---|
| Ordering.BeforeIsStrictTotalOrder | internal/scheduler/scheduler.go:302-310 | The string comparison that ends every tie is irreflexive, transitive and total over all strings |
| Ordering.BeforeMeans | internal/scheduler/scheduler.go:302-310 | One string is before another exactly when, where they first differ, it ends or has the smaller character |
| Sorting.SortSorted | internal/scheduler/scheduler.go:351-359 | Under any strict weak order the sort's result is ordered; its own contract adds that it is a permutation |
| Sorting.StableSortUnique | internal/scheduler/scheduler.go:302-310 | Any result that is a stable sort of the input is the one the model computes, so nothing depends on which algorithm the library uses |
| Sorting.SortForgetsOrder | internal/scheduler/scheduler.go:351-359 | When the comparator leaves no ties, every permutation of the input sorts to the same list |
| Domain.IndexOfService | internal/config/config.go:604-611 | Finds the first service of a name, or reports that none has it |
| Domain.LookUpAt | internal/config/config.go:775-780 | With distinct names the lookup returns the very service at every index |
| Domain.Device.FreeMiB | internal/gpu/gpu.go:52-57 | Free is total less used, never below zero and never above the total |
| Domain.FindService | internal/scheduler/scheduler.go:386-393 | Finds an observed service of a name exactly when there is one |
| Scheduler.PickClaim | internal/scheduler/scheduler.go:286-312 | The loop and stable sort of bestClaim compute BestClaim, whose meaning BestClaimIsFirst states |
| Scheduler.HighestPriorityUp | internal/scheduler/scheduler.go:395-407 | The scan computes TopFrom, whose meaning TopIsTop states |
| Scheduler.SelectDemand | internal/scheduler/scheduler.go:240-283 | Claims first, then reactive policy with its five ways of asking for nothing, in the source's order |
| Scheduler.EvictionCandidates | internal/scheduler/scheduler.go:321-361 | The loop and sort compute the candidates in order and one note for each service passed over |
| Scheduler.ChooseVerb | internal/scheduler/scheduler.go:366-384 | A stop only where allow_stop permits it, there is a unit and nothing gentler exists; nothing at all on a service known to be busy |
| Scheduler.FreeInOrder | internal/scheduler/scheduler.go:211-230 | The accumulating loop of Decide, skips included, computes Walk |
| Scheduler.Decide | internal/scheduler/scheduler.go:177-237 | Decide step by step computes DecidePlan, the function the theorems are about; its figures are the card's own, and a target the card already meets is not acted on |
| Scheduler.Evict | internal/scheduler/scheduler.go:412-454 | Evict computes EvictPlan for every list of names, with the card's own figures |
| Scheduler.EvictAllExcept | internal/scheduler/scheduler.go:458-482 | EvictAllExcept computes its plan, refusals included, with the card's own figures and the kept service as beneficiary |
| Scheduler.ExpectedFreeMiB | internal/scheduler/scheduler.go:163-172 | The wrapping sum and its cap compute ExpectedFree |
| Greedy.ExactGreedyShape | internal/scheduler/scheduler.go:200-235 | Decide's actions are the shortest prefix, in order, of exactly the services it may act on whose held sum reaches the target less what the card has free, or all of them; best effort is admitted exactly when all of them hold too little |
| Greedy.FewestDisruptions | internal/scheduler/scheduler.go:209-231 | No set of actionable services closed downwards in priority that meets the need is smaller than Decide's action list, and if any such set exists Decide meets the need |
| FewestOfAll.SmallestOfAllIff | internal/scheduler/scheduler.go:209-231 | Decide's plan is the smallest of all sets of actionable services that meet the need, whatever their priorities, if and only if the shortest prefix of the queue that meets it, or the whole queue, is empty, or as many of the largest holders less one together hold too little |
| Examples.FewestOnlyAmongClosed | internal/scheduler/scheduler.go:209-231 | On a file that loads and an observation of its three services, Decide frees two where one would have done |
| Greedy.ActionsAreActionable | internal/scheduler/scheduler.go:218-229 | Every action is on an observed service strictly below the beneficiary, holding memory, not cooling, not in flight, with the verb it permits |
| Greedy.BestEffortNote | internal/scheduler/scheduler.go:232-235 | The best-effort note is there exactly when the walk expects to free less than needed |
| Greedy.NoEvictionCycle | internal/scheduler/scheduler.go:332-336 | Over any set of Decide plans under one config, no chain of evictions returns to its start |
| Greedy.VictimIsBelow | internal/scheduler/scheduler.go:332-336 | Whoever a plan frees has strictly lower configured priority than whoever it frees for |
| OrderIndependence.BestClaimIsFirst | internal/scheduler/scheduler.go:286-312 | The winning claim is a live one no other live claim is ahead of, and there is one unless no claim is live |
| OrderIndependence.BestClaimForgetsOrder | internal/scheduler/scheduler.go:286-312 | With one claim per service the winner is the same for every listing of the claims |
| OrderIndependence.TopIsTop | internal/scheduler/scheduler.go:395-407 | The scan ends with a live service that no live service outranks, or none when none is live |
| OrderIndependence.CandidatesForgetOrder | internal/scheduler/scheduler.go:321-361 | With distinct names the candidate list is the same for every order of the services |
| OrderIndependence.DecideForgetsOrder | internal/scheduler/scheduler.go:177-361 | With distinct names and one claim per service, every permutation of services and of claims gives the same trigger, beneficiary, figures and action sequence |
| PlainTerms.WinnerMeans | internal/scheduler/scheduler.go:286-312 | No claim on a configured service has higher priority than the winner's; among equals none was made earlier; among those none sorts before it |
| PlainTerms.DemandMeans | internal/scheduler/scheduler.go:240-283 | A request is served exactly when a claim names a configured service; otherwise the floor is defended exactly when reactive mode is on, there is a floor, the card is below it and someone is up, for the default workload if up and else the highest-priority live service |
| PlainTerms.ActionsMean | internal/scheduler/scheduler.go:209-230 | However much is held, the actions are, one for one, on services below the beneficiary that answered, are up, hold memory, are not cooling and not in flight, by the verb each permits, lowest priority first, then largest holder, then name |
| PlainTerms.NotesAreTrue | internal/scheduler/scheduler.go:212-222 | Every note about a service names the first thing in the way of freeing it |
| PlainTerms.VerbMeans | internal/scheduler/scheduler.go:366-384 | A verb is chosen exactly when it is the one permitted, and a reason given for none exactly when it is so: both directions, for every state |
| PlanMeans.DecideFigures | internal/scheduler/scheduler.go:177-201 | Without a card nothing is planned; with one, the plan's free and total figures are the card's, and nothing is done when the free memory reaches the target |
| PlanMeans.DecideCases | internal/scheduler/scheduler.go:191-208 | Exactly when a plan says it is met already, is for nobody observed, or is worked on, and what its trigger is then |
| PlanMeans.DemandNotesMean | internal/scheduler/scheduler.go:240-283 | Each of the six notes on why nobody is served is there exactly when that is so |
| PlanMeans.ReactiveMeans | internal/scheduler/scheduler.go:262-283 | Without a claim the floor is defended for the default workload if that is up, and otherwise for a service that is up and that none up has priority over |
| PlanMeans.WhoMayBeFreed | internal/scheduler/scheduler.go:321-361 | The candidates are exactly the services that may be freed, lowest priority first, then largest holder, then name |
| PlanMeans.CandidateAnswers | internal/scheduler/scheduler.go:209-231 | What becomes of each candidate: noted as not needed exactly when those ahead of it hold the shortfall, and otherwise acted on by the verb it permits or noted with why there is none |
| PlanMeans.PassedOverAnswers | internal/scheduler/scheduler.go:321-347 | Every other service that may not be freed has a note with the first thing in the way |
| PlanMeans.DecideCounts | internal/scheduler/scheduler.go:200-236 | Each service but the beneficiary is acted on or noted, as often as it is observed |
| PlainTerms.EvictionsMean | internal/scheduler/scheduler.go:423-452 | An eviction asks only a named service that answered, is up and has no action on it, by the verb it permits |
| PlanMeans.EvictOneMeans | internal/scheduler/scheduler.go:424-452 | An eviction acts on a service exactly when it answered, is up, has no action on it and permits one; otherwise it notes the first thing in the way |
| PlanMeans.EvictAnswers | internal/scheduler/scheduler.go:423-453 | On a readable card every name has that answer in the plan |
| PlanMeans.EvictOrder | internal/scheduler/scheduler.go:423-453 | The actions come in the order of the names |
| PlanMeans.EvictFigures | internal/scheduler/scheduler.go:412-422 | The figures are the card's own, and without a card nothing is done |
| PlanMeans.EvictAllExceptAccounts | internal/scheduler/scheduler.go:458-482 | Each service but the kept one is acted on or noted, as often as it is observed, for the kept one's sake |
| PlanMeans.EvictAllExceptAnswers | internal/scheduler/scheduler.go:472-482 | Each has the answer it would have to an eviction of its own |
| PlanMeans.EvictAllExceptOrder | internal/scheduler/scheduler.go:472-479 | The actions come in name order |
| PlanMeans.EvictAllExceptRefuses | internal/scheduler/scheduler.go:458-471 | Without a card or the kept service nothing is done, and the notes say which |
| Accounting.DecideAccounts | internal/scheduler/scheduler.go:200-236 | Actions and per-service notes together name every service but the beneficiary, as often as it is observed |
| Accounting.ExactlyOneAnswer | internal/scheduler/scheduler.go:200-236 | With distinct names each other service is acted on or noted, never both, and none is acted on twice |
| Accounting.ActsOncePerService | internal/scheduler/scheduler.go:177-236 | No plan of Decide, contested or not, acts on a service twice |
| Accounting.DecideNeverSilent | internal/scheduler/scheduler.go:174-237 | For every config and observation an empty plan carries a note |
| Accounting.EvictAccounts | internal/scheduler/scheduler.go:423-453 | On a readable GPU every name gets exactly one action or one note |
| Accounting.EvictAllExceptSilentIff | internal/scheduler/scheduler.go:458-482 | The plan has neither action nor note exactly when the GPU is readable and only the kept service is configured |
| Examples.EvictAllExceptSilent | internal/scheduler/scheduler.go:458-482 | On a file that loads with one service, and any readable card, it does |
| Accounting.BytesToMiB | internal/adapter/adapter.go:123-131 | Below 2^44 always, zero only for zero bytes, and the rounded-down figure from one MiB up |
| Accounting.SumHeld | internal/adapter/ollama.go:121-134 | The wrapping sum Probe forms over the models listed |
| Accounting.ProbeHeldExact | internal/adapter/ollama.go:121-134 | The sum is exact whenever the true sum fits in 64 bits |
| Accounting.FiguresAreExact | internal/scheduler/scheduler.go:163-235 | With fewer than 2^20 - 1 held items in all, on a card whose total comes from a byte count, no sum wraps and current free <= expected free <= total |
| Accounting.HugeFiguresWrap | internal/scheduler/scheduler.go:211-235 | Without that bound the sum does wrap: two holders of 2^63 MiB add up to nothing |
| Observe.ProbeOne | internal/observe/observe.go:130-160 | Name, priority and permission come from the config whatever the probe did, and every other field is what the probe answered; a failed probe is a state |
| Observe.ObserveServices | internal/observe/observe.go:113-125 | Filled slot by slot in any completion order, the result is the services in config order |
| Probed.NotOnTheUnwilling | internal/scheduler/scheduler.go:366-454 | No plan of any kind, however its observation is marked, acts on a service whose probe failed, found it down or found it at work |
| Probed.SightIsItsProbe | internal/daemon/daemon.go:205-221 | In every run what a planner sees of the card and the services is what its own probe answered, but for the marks |
| Probed.RunsAreWarranted | internal/daemon/daemon.go:142-375 | In every run each action is on a service whose answer to that planner's probe was up and not at work, expects what the answer held, and is one its adapter and configuration permit |
| Probed.RunsReadTheCard | internal/scheduler/scheduler.go:177-201 | In every run a plan's figures are those of the card its planner read, and nothing is done when that has the target free |
| Tables.JudgeComparesFigures | internal/daemon/daemon.go:293-313 | For figures a card can report the int64 arithmetic is the plain comparison of gain with min_effect_mib |
| Tables.SnapshotUnique | internal/daemon/daemon.go:337-352 | There is exactly one ordered listing of the claim table, with one claim per service |
| Tables.SortedListingIsSnapshot | internal/daemon/daemon.go:340-351 | Whatever order the map is walked in, the sorted listing is that one |
| Daemon.Daemon.constructor | internal/daemon/daemon.go:61-79 | A new daemon has empty tables and its config |
| Daemon.Daemon.ApplyInflight | internal/daemon/daemon.go:213-221 | Marks in place exactly the observed services in inflight and changes nothing else of them |
| Daemon.Daemon.Acquire | internal/daemon/daemon.go:225-233 | Succeeds exactly when the slot is free, and then takes it; otherwise changes nothing |
| Daemon.Daemon.ReleaseSlot | internal/daemon/daemon.go:235-239 | Gives the slot back and changes nothing else |
| Daemon.Daemon.ApplyCooldowns | internal/daemon/daemon.go:263-277 | A cooldown is left exactly when the clock reading taken before the lock is before its end, with the end it had, and exactly the services with one left are marked with it |
| Daemon.Daemon.RecordEffect | internal/daemon/daemon.go:293-320 | Ends the cooldown of an action that worked, starts one of action_cooldown for a useless one, leaves an unmeasured one and every other service alone |
| Daemon.Daemon.SnapshotClaims | internal/daemon/daemon.go:337-352 | Whatever order the map is walked in, returns the one ordered listing |
| Daemon.Daemon.RecordClaim | internal/daemon/daemon.go:668-698 | Refuses an unconfigured service, keeps the time first asked, and files the claim unless the request or the daemon is a dry run |
| Daemon.Daemon.DropClaim | internal/daemon/daemon.go:736-766 | Refuses an unconfigured service, drops the claim unless dry, and says whether there was one |
| Runs.RunHolds | internal/daemon/daemon.go:142-523 | Every world of every interleaving satisfies the full invariant, whatever the steps and the outside world's answers |
| Runs.StepHolds | internal/daemon/daemon.go:142-523 | Each single step of any thread keeps it |
| Runs.InflightIsExact | internal/daemon/daemon.go:225-258 | In every run inflight is exactly the set of services with a goroutine between acquire and releaseSlot, and each has one |
| Runs.OnlyTheHolderFrees | internal/daemon/daemon.go:235-258 | A service leaves inflight only by the release of the goroutine that holds its slot; a skipped one frees nothing |
| Runs.CallsAreSafe | internal/daemon/daemon.go:462-509 | Every adapter call is made under the service's own slot, alone, on a configured service, never by a dry-run daemon, and a stop only with allow_stop |
| Runs.NothingIsRefused | internal/daemon/daemon.go:471-492 | With distinct names executeOne's own refusals are never reached: every planned action is configured and permitted |
| Runs.DryRunsStartNothing | internal/daemon/daemon.go:700-790 | In no run is an action started for a preview, for a dry-run request or eviction, or for a client of a dry-run daemon |
| Uncalled.UncalledIsNotActed | internal/daemon/daemon.go:462-492 | In every run a refused action is reported as failed, a dry-run daemon's as not acted with the card as it was, a skipped one as nothing; none of them touches a cooldown, and every other one does get judged |
| Runs.ExecuteAnswersInOrder | internal/daemon/daemon.go:363-375 | A client's finished plan has at index i the result of action i, from the one goroutine that ran it |
| Runs.NoGapBetweenSlotAndCooldown | internal/daemon/daemon.go:142-277 | If a finished plan of the loop names a service whose action took its slot before the plan read inflight, that action had given its slot back, and if useless its cooldown was over by the sweep or a later action had cleared it |
| Runs.NeverASecondAction | internal/daemon/daemon.go:205-258 | No plan of any kind names a service whose action held its slot when the plan read inflight |
| Runs.RunsNeverTakeTurns | internal/daemon/daemon.go:142-160 | Over all the plans a run makes by priority, services never evict one another in a circle |
| Runs.ClaimTableInRuns | internal/daemon/daemon.go:668-766 | In every run claims name configured services, a dry-run daemon has none, and a standing claim keeps its time from one world to the next |
| Targets.PriorityOnlyReleases | internal/scheduler/scheduler.go:321-384 | No plan made by priority in any run, by the loop, a preview or a request, holds a stop or names a llama-swap or systemd-unit service, whose probes never report memory; whom it names has another service configured above it |
| Targets.CalledIff | internal/daemon/daemon.go:462-509 | The daemon can come to call a verb on a service, by any plan, if and only if it is no dry run, the adapter can do it and, for a stop, allow_stop permits it |
| Targets.FreedByPriorityIff | internal/scheduler/scheduler.go:321-361 | It can come to act on a service for the sake of another if and only if it is no dry run, the service is an Ollama or ComfyUI one, and another has a higher priority; so a stop is reached by evict alone |
| Runs.StandingClaimKeepsItsTime | internal/daemon/daemon.go:684-697 | No step changes the time of a claim it leaves standing |
| SlotSafety.StepKeepsShape | internal/daemon/daemon.go:363-375 | Each goroutine stays on its own action of its own plan, and no two are on the same one |
| SlotSafety.StepKeepsSlots | internal/daemon/daemon.go:225-258 | Each step keeps inflight equal to the slots held |
| SlotSafety.StepKeepsResults | internal/daemon/daemon.go:363-375 | Each step keeps the results slice filled in by index from the goroutine of that index only |
| SlotSafety.PlanActsOnSeen | internal/scheduler/scheduler.go:321-454 | A plan of any kind acts only on observed services not in flight, with a verb they permit |
| NoGap.StepKeepsSeen | internal/daemon/daemon.go:205-221 | A slot taken before a snapshot of inflight is marked in it or was given back before it |
| NoGap.StepKeepsCooling | internal/daemon/daemon.go:263-320 | A useless action is still cooling, or its cooldown is over, or a later effective action cleared it |
| NoGap.StepKeepsSweeps | internal/daemon/daemon.go:263-277 | A sweep after a useless record shows its service cooling, unless the cooldown was over or cleared by then |
| Marks.CoolingIsDeserved | internal/daemon/daemon.go:263-320 | In every run a planner sees a service cooling only if it has swept and some useless action on it was recorded by then, less than action_cooldown before the clock it read, with nothing that worked on it recorded in between; a cooldown that has ended shields nobody |
| Marks.InFlightIsExact | internal/daemon/daemon.go:205-239 | In every run a planner sees a service in flight exactly when some goroutine held its slot when it looked |
| Marks.LeftAloneForAReason | internal/daemon/daemon.go:142-320 | So whenever a plan leaves a service alone as cooling down or in flight, that is why |
| Retry.CooldownIsHonoured | internal/daemon/daemon.go:142-320 | In a run where only the loop acts on a service, and its actions on that service have met their slot before the next snapshot, a plan naming it is built at least action_cooldown after every earlier useless action on it; other services may do as they please |
| Retry.UselessActionsAreApart | internal/daemon/daemon.go:263-320 | Under the same hypothesis two useless actions on one service are recorded at least a cooldown apart |
| Retry.BoundedRetry | internal/daemon/daemon.go:142-320 | Under the same hypothesis the useless actions on one service within any span number at most span / action_cooldown + 1 |
| RetryBreaks.BreaksIffExposed | internal/daemon/daemon.go:142-320 | The loop alone has a run with two useless actions on one service inside one cooldown if and only if the daemon is no dry run, reactive mode is on with a floor, and some Ollama or ComfyUI service, other than the default workload, is below another; and rounds kept a poll interval apart change nothing about that |
| RetryBreaks.TwoFailures | internal/daemon/daemon.go:157-258 | Wherever every round decides on one and the same action, a full run of the loop alone: two rounds a poll interval apart, and their two actions failing any chosen time within the cooldown of each other |
| Examples.TwoUselessInOneCooldown | internal/daemon/daemon.go:157-247 | On a file that loads, such a run: rounds 5 s apart, two useless actions on one service recorded a second apart under a cooldown of 60 s |
| Preview.HeldClaimWinsTheTie | internal/daemon/daemon.go:701-703 | With a claim already held, a dry run is decided by the table as it stands: the appended claim ties and the stable sort keeps the held one |
| Preview.AskingAgainKeepsTheWinner | internal/daemon/daemon.go:679-692 | Asking again for a held claim never changes which service bestClaim selects |
| Preview.PreviewIsExactUnlessResized | internal/daemon/daemon.go:700-708 | The dry-run plan equals the real one if and only if VRAM is unknown or the service does not hold the winning claim for another amount |
| Preview.RequestPlansInRuns | internal/daemon/daemon.go:668-708 | In every run, whatever interleaves, a request files its claim by the table of one step, reads the claims by the table of a later one, and its plan is Decide's for what it read, its own claim last when it only asks |
| Preview.DryRunPreviewsTheRequest | internal/daemon/daemon.go:668-717 | From one world, the dry run leaves every table and action alone and its plan is the real one under exactly that condition |
| Preview.AskingChangesNothing | internal/daemon/daemon.go:700-717 | In any interleaving no step of a dry-run request or eviction changes a table or starts an action |
| Preview.PreviewCanBeWrong | internal/daemon/daemon.go:700-708 | A concrete table in which the dry run plans towards 10 MiB and the request towards 20 |
| Ollama.Client.Send | internal/adapter/ollama.go:138-144 | One call under the service's timeout, cut short at the timeout or the end of the context |
| Ollama.Client.WaitDrained | internal/adapter/ollama.go:218-254 | The polling loop computes Drain, terminates, returns by drain_timeout + interval + timeout and polls at most drain_timeout / interval + 2 times |
| Ollama.Client.Release | internal/adapter/ollama.go:149-187 | Release step by step computes ReleaseFrom |
| Ollama.DrainIsSound | internal/adapter/ollama.go:218-254 | Drained exactly when the last poll shows none of the models; every earlier poll showed one; still loaded only past the deadline |
| Ollama.NextTickIsNext | internal/adapter/ollama.go:225-252 | The tick waited for is the first of the ticker's after the last one taken |
| Ollama.DrainIsBounded | internal/adapter/ollama.go:224-253 | The bound on polls and on time, for every server |
| Ollama.UnloadsInOrder | internal/adapter/ollama.go:160-169 | One call per model in order, each confirmed by done_reason unload up to the first that is not |
| Ollama.ReleaseIsSound | internal/adapter/ollama.go:149-187 | Acted without error if and only if every model of the first listing was asked and confirmed in order and a later last listing contained none; the targets are then those models |
| Ollama.FailedUnloadReportsItsPrefix | internal/adapter/ollama.go:160-169 | A failed unload leaves as targets exactly the prefix unloaded so far, and acted exactly when there is one |
| Ollama.UndrainedNeverActs | internal/adapter/ollama.go:171-182 | A release that ends undrained reports that it did not act, and every poll still showed a model |
| Ollama.EndsMean | internal/adapter/ollama.go:149-187 | What each way for a release to end says and reports: nothing acted on when the listing failed or was empty, every model, each confirmed, when a poll failed |
| Ollama.ReleaseIsBounded | internal/adapter/ollama.go:149-187 | A release over n models ends within (n + 2) timeouts, the drain timeout and one interval |
| Deadlines.ActionBoundIsCappedSumIff | internal/daemon/daemon.go:394-416 | The bound is the capped sum exactly under a stated condition on the figures, always met by non-negative ones |
| Deadlines.NegativeFiguresWrap | internal/daemon/daemon.go:411-415 | A pair of negative figures whose sum wraps, so that the action looks endless |
| Deadlines.LongestAction | internal/daemon/daemon.go:381-392 | No configured action of the plan takes longer than the figure, it is one of theirs or zero, and no plan exceeds the config |
| Deadlines.ConnBudget | internal/daemon/daemon.go:423-431 | The loop over the config computes the budget |
| Deadlines.NoDeadlineWraps | internal/ipc/ipc.go:290-295 | From a bound through milliseconds and back to a wait, every step is the plain sum, rounded down to a millisecond |
| Deadlines.DeadlinesNestIff | internal/ipc/ipc.go:365-371 | The client's second deadline is never after the daemon's, for an announced plan read within a minute, if and only if the longest action takes a millisecond, or nothing configured takes time, or something takes 80 s |
| Deadlines.Listener.SetBudget | internal/ipc/ipc.go:423-427 | A budget that is not positive is ignored |
| Deadlines.Listener.Configure | internal/ipc/ipc.go:526-531 | Once the daemon has set it, every connection is served under the config's own budget |
| Examples.DeadlinesCross | internal/daemon/daemon.go:418-442 | On a file that loads, with a timeout of 900 us and a drain of 50 us, a request to evict the one service is announced with its one action and 0 ms, and the client's second deadline is after the daemon's whenever the client reads that |
| ReleaseTime.ReleaseOutlastsActionBound | internal/daemon/daemon.go:404-416 | For every timeout over a nanosecond, every drain timeout and every polling interval, a server with one model loaded, in time on every call, makes a release that succeeds outlast actionBound |
| ReleaseTime.ActionBoundBoundsReleasesIff | internal/daemon/daemon.go:404-416 | actionBound bounds every release, whatever the server does, if and only if the timeout is zero |
| ReleaseTime.CoversReleasesIff | internal/adapter/ollama.go:149-254 | A length of time covers every release of n models, whatever the server does, if and only if it reaches n + 1 times a nanosecond less than the timeout, the first tick past the drain timeout, and a timeout |
| ReleaseTime.SuccessCanTakeAsLong | internal/adapter/ollama.go:149-254 | Some server, in time on every call, makes a successful release of any given models take that long less a nanosecond |
| ReleaseTime.DeadlinesCoverIff | internal/ipc/ipc.go:363-371 | The client's second wait, and the daemon's budget for the connection, cover every release of n models if and only if that worst case is within the plain sum each stands for, the wait's rounded down to a millisecond |
| ReleaseTime.DefaultsCover | internal/ipc/ipc.go:290-295 | On the default 5 s and 30 s, polled every 250 ms, the client's wait covers the releases of no number of models, and the budget of a daemon with that one service those of twelve at most |
| Lines.Reader.Fill | internal/ipc/ipc.go:356 | One read takes as much of the next piece as fits and loses no byte |
| Lines.Reader.ReadLine | internal/ipc/ipc.go:567 | The buffered reader's answer depends on the bytes still to come and not on how they arrive |
| Lines.ReadMessage | internal/ipc/ipc.go:564-579 | The loop of readLine computes MessageOf for every chunking |
| Lines.MessageUnchangedIff | internal/ipc/ipc.go:564-579 | A message comes back unchanged with the rest left for the next read if and only if it is within the limit and does not end in a carriage return |
| Lines.UnfinishedLine | internal/ipc/ipc.go:564-579 | A line the stream ends in the middle of counts as it is if the buffer holds it, and an empty stream is the end |
| Protocol.ServeConn | internal/ipc/ipc.go:526-551 | What is written for a connection is the marked announcements and then the final reply, or one refusal |
| Protocol.ReadResponse | internal/ipc/ipc.go:374-384 | One reply off the connection, or why there is none |
| Protocol.DoAt | internal/ipc/ipc.go:354-371 | One read, and a second with its own wait exactly when the first reply is preliminary |
| Protocol.RequestArrives | internal/ipc/ipc.go:534-543 | A request that fits reaches the handler as sent; one that does not is refused |
| Protocol.GarbageIsRefused | internal/ipc/ipc.go:534-543 | A line that is no request is refused, and a line that is no reply is an error at the client |
| Protocol.SilenceIsNoAnswer | internal/ipc/ipc.go:374-384 | A connection closed without a word is an error on either side |
| Protocol.ExchangeEnds | internal/ipc/ipc.go:354-371 | For any handler that announces once at most, the client ends with its final reply if and only if every line fits, never with the announcement, and waits again only after one |
| Handlers.Announce | internal/daemon/daemon.go:436-442 | Announces the plan and its longest action exactly when asked to and the plan has actions |
| Handlers.HandleRequest | internal/daemon/daemon.go:668-734 | Step by step on the daemon's tables computes Handle: refusals, the claim, the dry-run exits, the announcement, the final reply with plan, results, free memory afterwards and whether the target is met |
| Handlers.HandleEvict | internal/daemon/daemon.go:768-796 | The same for an eviction, which leaves the tables alone and judges no target |
| Handlers.ReadAfter | internal/daemon/daemon.go:448-460 | One reading of the card after a plan that ran something, and no figure rather than zero without it |
| Handlers.ReportsAreMeasured | internal/daemon/daemon.go:719-733 | A final reply's free figure is the card's reading after every action, there exactly when something ran and the card could be read; a request's target is met exactly when the last reading there is reaches it: that one, or the last action's, or the one the plan was made on |
| Handlers.HandlePlan | internal/daemon/daemon.go:659-664 | Answers with what the next round would plan, cooldowns included, and only sweeps |
| Handlers.HandleReleaseClaim | internal/daemon/daemon.go:736-766 | Drops the claim unless dry, and refuses an unconfigured service |
| Handlers.TwoReplies | internal/ipc/ipc.go:526-551 | From the request's bytes to the client's answer, for the daemon's own handlers: the client ends with the final reply if and only if every line fits; the announcement is sent, and a second wait as long as the plan's longest action set, exactly when the plan is carried out, was asked for first and has actions; the final reply carries that plan and its results |
| Handlers.RepliesMean | internal/daemon/daemon.go:573-796 | What each kind of request is answered with: refused exactly when it is of no kind or names nothing configured, the plan alone for a dry run, the plan and its results otherwise |
| Handlers.LeftMeans | internal/daemon/daemon.go:659-796 | What each leaves of the tables, entry by entry |
| Served.RequestIsServed | internal/daemon/daemon.go:668-708 | The steps of a request that nothing comes between make the handler's plan and leave its tables |
| Served.EvictIsServed | internal/daemon/daemon.go:768-785 | The same for an eviction |
| Served.PlanIsServed | internal/daemon/daemon.go:659-664 | The same for `plan`, and a round of the loop in its place would have planned the same |
| Served.ReleaseIsServed | internal/daemon/daemon.go:736-766 | The same for dropping a claim |
| ConfigKeys.CheckBounds | internal/config/config.go:265-279 | Finds a key out of bounds exactly when there is one |
| ConfigKeys.BoundedIff | internal/config/config.go:215-262 | Raw check and typed decode together pass a value exactly when it decodes without wrapping to a figure in range, and never a bare number for a duration |
| ConfigKeys.AcceptableIff | internal/config/config.go:202-262 | For every key, bounds table and decode together let through exactly the values spelled out as acceptable, each for what it says: no figure is without its bound |
| ConfigKeys.AcceptableTableIff | internal/config/config.go:265-279 | The same for a whole table |
| ConfigKeys.AdaptersReadBack | internal/config/config.go:33-59 | Adapters are read back as they are written, and no other text is one |
| ConfigKeys.RawCheckIsNeeded | internal/config/config.go:227-237 | Without the raw check -1 decodes to 2^64 - 1 and a bare 0 to a duration |
| ConfigLayers.PolicyLastWriter | internal/config/config.go:486-507 | Merging leaves each policy key as the last file that sets it has it, or untouched |
| ConfigLayers.ServiceLastWriter | internal/config/config.go:509-528 | Merging leaves each key of each service as the last block of its name that sets it has it |
| ConfigLayers.ServicesInFirstMentionOrder | internal/config/config.go:509-528 | Services occur once, in first-mention order, after those already there |
| ConfigLoad.Loading.constructor | internal/config/config.go:157-168 | Loading starts from the defaults |
| ConfigLoad.Loading.MergePolicy | internal/config/config.go:486-507 | Overlays in place exactly the policy keys the file sets |
| ConfigLoad.Loading.MergeService | internal/config/config.go:573-602 | Overlays in place exactly the keys the block sets, and no other service |
| ConfigLoad.Loading.CheckFile | internal/config/config.go:419-484 | Refuses a file before anything is merged exactly when a table does not decode, has a stray key, is out of bounds or names a bad unit |
| ConfigLoad.Loading.MergeEach | internal/config/config.go:509-528 | Merges the blocks in order, refusing exactly a nameless block or a name used twice in the file |
| ConfigLoad.Loading.MergeFile | internal/config/config.go:419-529 | Takes exactly the acceptable files, and then the config is the overlay of the file on what was there |
| ConfigLoad.Loading.Validate | internal/config/config.go:675-743 | Passes exactly the valid configs, and then completes them and changes nothing else |
| ConfigLoad.CompletedIsPositive | internal/config/config.go:675-743 | Completing leaves every duration positive, with the default for each that was not and nothing else changed |
| ConfigLoad.LoadFrom | internal/config/config.go:343-370 | Loads exactly the lists of files that are all acceptable and merge to a valid config, and returns the fold of them |
| LastWriterWins.PolicyIsLastWritten | internal/config/config.go:343-370 | Every policy key of a loaded config is what the last file that sets it says, or the default: Validate replaces none of them |
| LastWriterWins.ServiceIsLastWritten | internal/config/config.go:343-370 | Every key of every loaded service is what the last block that sets it says, or the default, an endpoint without its trailing slashes |
| LastWriterWins.LoadedInFirstMentionOrder | internal/config/config.go:509-528 | The loaded services are the names of the files in first-mention order, each once |
| LastWriterWins.LoadedInBounds | internal/config/config.go:202-211 | Every bounded figure of a loaded config is inside its bound |
| LastWriterWins.EveryLoadIsSound | internal/config/config.go:343-370 | For any files that load: bounds, distinct names, and positive durations |
| LoadsMean.FileFineIff | internal/config/config.go:419-529 | Which files are taken, key by key |
| LoadsMean.LoadableIff | internal/config/config.go:343-370 | Which lists of files load: those that can be read and are fine, and merge to services the daemon can run and a default workload there is |
| LoadsMean.LoadedServicesRun | internal/config/config.go:675-743 | Every loaded service has a known adapter with an allowed endpoint and no unit, or an allowed unit and no endpoint |
| LoadsMean.StopMustBeWritten | internal/config/config.go:573-602 | No loaded service may be stopped unless a block of its name says so |
| LoadsMean.ReactiveMustBeWritten | internal/config/config.go:486-507 | Reactive mode is off unless a file turns it on |
| ExampleFiles.FileLoads | internal/config/config.go:343-370 | Any file of Ollama services with names of their own and durations in bounds loads, to the configuration it spells out |
| Sysfs.Classify | internal/gpu/sysfs.go:64-93 | Virtual exactly when nothing is behind the card or its reachable directory has no vendor file; real exactly when entry, directory and vendor file are all there to be reached |
| Sysfs.Open | internal/gpu/sysfs.go:95-125 | Lists the cards that are not virtual in number order, or says why there are none |
| Sysfs.Devices | internal/gpu/sysfs.go:129-140 | One device per card, each read on its own under its fixed index |
| Sysfs.DeviceByIndex | internal/gpu/gpu.go:128-135 | Finds the device with the index exactly when there is one |
| Sysfs.Arbitrated | internal/observe/observe.go:64-87 | The configured index gives its own card's memory or an error, never another card's |
| Sysfs.ArbitratedIff | internal/observe/observe.go:64-87 | The card's index gives its own total and used counters in MiB exactly when all its files can be read, stated on the files; otherwise nothing |
| Sysfs.NoSuchCard | internal/gpu/gpu.go:128-135 | An index that is no card's is answered with nothing |
| Sysfs.IndexIsRank | internal/gpu/sysfs.go:95-140 | For every directory order, a listed card's index is the number of listed cards with smaller numbers |
| Sysfs.SameNumbersSameCard | internal/gpu/sysfs.go:129-176 | Two directories listing the same numbers agree on the index and every figure of each card they read alike |
| Sysfs.UnreadableStaysListed | internal/gpu/sysfs.go:56-93 | Whatever a listed card's files turn into, short of nothing being behind it, the set of listed numbers stays the same |
| Sysfs.NoCardChangesAnother | internal/gpu/sysfs.go:129-176 | So whatever becomes of one card, every other keeps its index and figures, and it keeps its own index |
| Sysfs.OnlyCardsBelowCount | internal/gpu/sysfs.go:52-58 | An index changes only if a card with a smaller number comes or goes |
| EndToEnd.LoadedBoundsAreSums | internal/daemon/daemon.go:394-416 | On any config that loads, an action's bound is timeout plus drain, at most seventy minutes: the cap is never reached |
| EndToEnd.LoadedDeadlinesNestIff | internal/daemon/daemon.go:418-442 | On any config that loads with a service, the deadlines of an announced plan nest exactly when its longest action takes a millisecond or some service may take 80 s |
| EndToEnd.LoadedRetryIsBounded | internal/daemon/daemon.go:142-320 | On any config that loads, a run that is calm on a service keeps the retry bound for it with no further hypothesis |
| EndToEnd.LoadedRetryBreaksIff | internal/daemon/daemon.go:142-320 | On any config that loads, the loop alone can break the retry bound exactly when that config exposes a service |
| EndToEnd.StopsAreWritten | internal/daemon/daemon.go:462-509 | If a daemon on a loaded config ever calls Stop on a service, it is for an eviction, and some file says allow_stop = true of that very service |

## Left out

- Retry.BoundedRetry: needs the stated hypothesis on the run (only the loop acts on the service, and no action on it is still short of its slot when the loop next reads inflight); without it the claim is false, on exactly the configs RetryBreaks.BreaksIffExposed names.
- Retry.CooldownIsHonoured: the same hypothesis, for the same reason.
- Greedy.FewestDisruptions: needs distinct names, which every loaded config has, and held sums within 64 bits, which Accounting.FiguresAreExact derives from probed figures.
- PlanMeans.CandidateAnswers: needs held sums within 64 bits, for the same reason; PlanMeans.DecideCounts and PassedOverAnswers do not.
- Served.RequestIsServed: compares the handler with the steps of one connection that nothing interleaves with; so do the other three.
- Accounting.FiguresAreExact: assumes every held figure is a sum of byte counts turned into MiB, as the Ollama probe forms it.
- Deadlines.DeadlinesNestIff: compares the deadlines themselves; how long the daemon takes to probe before it announces is a parameter, the moment the client reads.
- ReleaseTime.CoversReleasesIff: for every number of models, though a listing has to fit in the 4 MiB the client reads of a body (internal/adapter/httpclient.go:44); the same holds of ReleaseTime.DeadlinesCoverIff.
- Accounting.HugeFiguresWrap: shows what the arithmetic does; that limit keeps one service from listing so many models.
- Deadlines.NegativeFiguresWrap: one pair of figures; the exact condition is Deadlines.ActionBoundIsCappedSumIff.
- Ollama.Client.WaitDrained: on a virtual clock that moves only during calls and waits, so scheduling delays between them are not counted; when a tick and the end of the context come together the context is taken.
- Handlers.TwoReplies: takes the JSON encoding as a parameter that reads back what it wrote on one line; failed writes and expired deadlines mid-exchange are not modelled, nor is a reply's message.
- Handlers.HandleRequest: one request at a time, what carrying out its plan comes to being a parameter; every interleaving is in Runs and Preview.RequestPlansInRuns.
- Sysfs.Open: two directory names with the same number (card1 and card01) are put in listing order, where the source's sort leaves their order open.
- ConfigLoad.Loading.CheckFile: key names are compared exactly, as the merge does; a policy key in other letter case, which the decoder reads and the merge then ignores, has no counterpart.
- Preview.DryRunPreviewsTheRequest: compares two requests from one world that nothing interleaves with, since only then is there one observation to compare them on; any interleaving is in Preview.RequestPlansInRuns and Preview.AskingChangesNothing.
- The wall clock never goes back in a run, and its range is unbounded.
- HTTP, JSON, TOML, sockets, umask, file reads, digests, systemctl and NVML: their outcomes are inputs.
- Name, unit and endpoint syntax: predicates given to the loader.
- The ComfyUI, llama-swap and systemd adapters beyond what a probe of each can report and "a call returns acted, declined or failed".
- Config discovery, sources, hash and load time; the search over several control sockets.
- `handleStatus`, `snapshotCooldowns`, ping and the config report: they read and format.
- Wording of notes, reasons and errors, logging, elided names and version strings: notes are kinds.
- Whether a release really lowers memory use: readings are arbitrary and may fail.
- Panics and shutdown.
- The command line program: flags, printing and exit codes.
- A service without an adapter: the daemon refuses to start with one, so a probe of one is not a separate outcome.

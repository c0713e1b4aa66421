# Developer-simulation game core in Dafny

The game simulates a software team. Its core has these parts:

- An **issue** is a unit of work. It has an id, a project name, a priority (1–3), a complexity (1–10), a status (`todo`, `dev` or `done`) and the work spent on it so far, counted in hundredths.
- A **queue** is bounded. It maps issue id to issue, it admits only issues of one status, and it announces pushes and pops on an event emitter.
- The **todo queue** and the **dev queue** are the two queues the game uses.
- The **worker** owns a dev queue. Once a second it runs a *term*:
  - It reduces its work points by a penalty for many issues and another for many projects.
  - It reports its stress.
  - It orders the queued issues into project groups. The groups come in the order their projects first appear; inside a group, issues come by ascending priority.
  - It spends the points issue by issue. It completes (pops and marks `done`) every issue the points cover, and advances the first issue they do not cover.
- The **game master** keeps a disapproval level between 0 and 100:
  - Every second it samples the todo queue's fill ratio and raises the level by up to 8 points.
  - Every issue the worker pops lowers the level by that issue's complexity.
- The **issue generator** runs a cycle that adds one random `todo` issue to the todo queue when there is room. The cycle repeats `maxSize * rate` times a second.

Each component validates its arguments and throws a `TypeError` that names the rejected argument. The queue also throws a `RangeError` (full queue) and a `ReferenceError` (pop of an absent id).

Module layout follows the components:

| module | role |
|---|---|
| `Values` | the JavaScript values the argument checks see, and the error and result wrappers |
| `Rounding` | `roundAfterPoint(x, 2)` on exact reals |
| `Issues` | the issue class, its factory and the id counter |
| `Queues` | the queue class and its factory |
| `DevQueues`, `TodoQueues` | the two specialised queues |
| `WorkOrders` | the grouping and ordering of a term, as values |
| `WorkTerms` | the penalties, the stress and the step-by-step walk of a term, as values |
| `Workers` | the worker class, whose methods walk the live queue and are proved to follow `WorkTerms` |
| `GameMasters`, `IssueGenerators` | the two periodic processes, as classes over a todo queue |

Imperative code became classes:

- the issue, the queue, the worker, the game master and the generator are classes;
- the worker's `forEach` over the work order is a `while` loop (`Workers.Worker.Allocate`);
- each method is tied to a value-level function: `Step`, `Walk`, `WorkOrder`, `Sampled`, `Relieved`, `Timeout`.

Copies and live issues:

- `getIssues` and `clone` hand out copies whose methods close over the original issue's state.
- So the worker's `spentAdditionalWork` on a copy changes the stored issue.
- The model therefore has the worker act on the stored `Issue` objects. Event payloads are value snapshots (`Snap`).

The code was followed where the written description differs from it:

- The queue's push event is delivered synchronously inside `push`.
- Only the pop event is deferred to the next tick (`Queue.PopById` queues it, `Queue.Deliver` delivers it).

## Model

| member | source | states |
|---|---|---|
| Issues.GetAllowedStatuses | components/issue/index.js:80-81 | each call returns a fresh array holding `todo`, `dev`, `done` in that order |
| Issues.CheckIssueArgs | components/issue/index.js:13-34 | accepts exactly a non-empty string name, a priority in {1,2,3} and an integral complexity in [1,10]; each refusal is a TypeError naming the first bad argument |
| Issues.Issue.constructor | components/issue/index.js:36-41 | a new issue is `todo` with no work spent and satisfies the issue invariant |
| Issues.Issue.SetStatus | components/issue/index.js:44-50 | an allowed status is set; anything else is TypeError(1) and leaves the status; spent work is untouched and the invariant kept |
| Issues.Issue.SpentAdditionalWork | components/issue/index.js:56-64 | a positive number is added and the sum rounded to hundredths; anything else is TypeError(1) and changes nothing; spent work never drops |
| Issues.NewIssue | components/issue/index.js:13-41 | fails exactly when the checks fail, with their error, consuming no id; on success the issue takes the counter's next id and the counter advances by one |
| Queues.CheckQueueArgs | components/queue/index.js:9-25 | accepts exactly an allowed status, an integer capacity in [1,20] and a boolean or absent emit flag (default false); a bad status is exactly TypeError(1), an allowed status with a bad capacity exactly TypeError(2), and otherwise a bad flag exactly TypeError(3); no other error occurs |
| Queues.Queue.constructor | components/queue/index.js:27-29 | an empty queue with the given gate, capacity and emit flag |
| Queues.Queue.Size | components/queue/index.js:91 | the number of stored issues, never above the capacity |
| Queues.Queue.Snapshots | components/queue/index.js:95 | copies of the stored issues in insertion order |
| Queues.Queue.Push | components/queue/index.js:32-70 | a full queue gives RangeError before anything else; an issue of another status gives TypeError(1); both change nothing; an accepted issue is stored under its id (replacing an equal id) and its push event is delivered at once |
| Queues.Queue.PopById | components/queue/index.js:73-87 | an absent id gives ReferenceError and nothing changes; otherwise exactly that entry leaves, is returned, and its pop event waits for delivery |
| Queues.Queue.Deliver | components/queue/index.js:81-84 | the deferred pop events are delivered in pop order; the contents stay |
| Queues.Queue.Emit | components/queue/index.js:105-108 | only a queue built with the emit flag can emit; the event is appended and the contents stay |
| Queues.NewQueue | components/queue/index.js:9-29 | fails exactly when the checks fail, with their error; otherwise an empty queue with the checked configuration |
| DevQueues.DevQueueArgs | components/dev-queue/index.js:11-14 | a `dev` gate; only the capacity (2nd) or the emit flag (3rd) can be refused |
| DevQueues.NewDevQueue | components/dev-queue/index.js:11-14 | an empty `dev` queue (no entries, keys, events or pending pops) exactly when the capacity and flag are accepted |
| TodoQueues.TodoQueueArgs | components/todo-queue/index.js:11-14 | a `todo` gate that can never emit; only the capacity can be refused, as TypeError(2) |
| TodoQueues.NewTodoQueue | components/todo-queue/index.js:11-14 | an empty `todo` queue without `emit` (no entries, keys, events or pending pops) exactly when the capacity is accepted |
| TodoQueues.CheckQueueLike | components/game-master/index.js:12-39 | the todo-queue check passes exactly for an object whose `getSize` and `getMaxSize` return non-negative integers; every refusal is TypeError(1) |
| TodoQueues.QueuePassesCheck | components/queue/index.js:91-92 | every queue passes that check, reading its size and a capacity of at least 1 |
| WorkOrders.FirstSeen | components/worker/index.js:54-61 | exactly the project names of the queued issues, each once, at least one for a non-empty queue (their order is `FirstSeenOrder`) |
| WorkOrders.FirstIndex | components/worker/index.js:54-61 | the position of a project's first issue: it is of that project and no earlier one is |
| WorkOrders.FirstSeenOrder | components/worker/index.js:54-61 | a name listed earlier was first seen earlier in the queue |
| WorkOrders.SortByPriority | components/worker/index.js:110 | the result is sorted by ascending priority and is a permutation of the input |
| WorkOrders.SortIsStable | components/worker/index.js:110 | the issues of each priority keep their relative order |
| WorkOrders.Group | components/worker/index.js:105-110 | one project's issues, as a permutation of that project's issues, sorted by priority |
| WorkOrders.WorkOrderIsPermutation | components/worker/index.js:104-114 | the work order holds every queued issue exactly once |
| WorkOrders.WorkOrderAscendsWithinProject | components/worker/index.js:104-114 | within one project the work order has ascending priority |
| WorkOrders.WorkOrderFollowsFirstSeen | components/worker/index.js:104-114 | issues of different projects come in the order their projects first appear in the queue |
| WorkOrders.DistinctIdsOnce | components/queue/index.js:66 | issues with distinct ids occur once each, and an id names one issue |
| WorkOrders.PermutationKeepsDistinctIds | components/worker/index.js:104-114 | reordering queued issues keeps their ids distinct |
| WorkTerms.FactorBounds | components/worker/index.js:76 | within capacity a penalty factor lies in [1 - penalty, 1] |
| WorkTerms.TermBudgetBounds | components/worker/index.js:69-92 | within capacity the term's points lie in [0.1 * workPoints, workPoints]; a lone issue gets all of them |
| WorkTerms.StressBounds | components/worker/index.js:98 | the reported stress lies in [0, 90]; it is 0 for a lone issue |
| WorkTerms.NeededExact | components/worker/index.js:131 | for an issue under way the points still needed are exactly complexity minus spent work, in hundredths |
| WorkTerms.NothingNeededIff | components/worker/index.js:131 | nothing is needed exactly when the spent work has reached the complexity |
| WorkTerms.Step | components/worker/index.js:121-150 | with no points the issue is skipped; otherwise it completes iff the need is covered; a partial step leaves no points and the issue absorbs all of them, its spent work becoming the rounded sum (within half a hundredth of it); a completing step adds the rounded need; an issue under way stays under way with spent work never dropping; a completed one has spent exactly its complexity; points never grow |
| WorkTerms.AsWrittenDiffersOnlyWhenNothingNeeded | components/worker/index.js:142 | the code's step throws TypeError(1) exactly when points are left and nothing is needed; otherwise it agrees with `Step` |
| WorkTerms.PartialStepCanReachComplexity | components/worker/index.js:133-139 | a partial step within half a hundredth of the need spends the whole complexity without completing it, and every later step the code makes on it with points left throws |
| WorkTerms.RoundingStrandsIssue | components/worker/index.js:121-150 | one issue of complexity 1 and 0.996 work points: the code's first term rounds it to a full complexity without completing it, its second term throws, and the corrected step completes it |
| WorkTerms.ShippedWorkerCanStrandIssue | components/worker/index.js:121-150 | the game's `Worker(5, 4)` with two issues in two projects has 2.176 points a term; an issue needing 2.18 is rounded up to its complexity, stays queued, and the code's next step on it throws |
| WorkTerms.LoneSmallIssueCompletes | components/worker/index.js:121-150 | 5 points and a lone issue of complexity 1: completed in one term with 4 points left |
| WorkTerms.LoneLargeIssueTakesTwoTerms | components/worker/index.js:121-150 | 5 points and a lone issue of complexity 10: half done after one term, completed in the second |
| WorkTerms.Walk | components/worker/index.js:121-150 | after k issues the walk has settled exactly k, worked and popped at most k, and its points stay within [0, budget] |
| WorkTerms.WalkAt | components/worker/index.js:121-150 | the j-th issue settles as its step with the points the j issues before it left |
| WorkTerms.WalkBudgetShrinks | components/worker/index.js:133-145 | the points left never grow along the walk |
| WorkTerms.WalkStopsAtFirstUnfinished | components/worker/index.js:123-125 | every issue after the first one the walk cannot complete is left exactly as it was |
| WorkTerms.WalkSettles | components/worker/index.js:121-150 | each issue keeps its identity, is `done` exactly when its step completed it, and keeps the progress bounds of `Step`; the issue the walk cannot complete absorbs all the points left |
| WorkTerms.WalkPopsTheDone | components/worker/index.js:148-149 | the walk pops exactly the issues it leaves `done`, in walk order |
| Workers.CheckWorkerArgs | components/worker/index.js:13-26 | accepts exactly a positive integer capacity and positive work points; the errors name the argument |
| Workers.WorkerArgsAccepted | components/worker/index.js:13-30 | the worker's check and its dev queue's together accept exactly an integer capacity in [1,20] and positive points; a capacity above 20 is refused by the queue as TypeError(2) |
| Workers.TermOn | components/worker/index.js:49-150 | the term walks every queued issue once, and its points stay within the term's budget |
| Workers.TermBounds | components/worker/index.js:69-98 | within capacity the term's points lie in [0.1 * workPoints, workPoints] and the stress in [0, 90], with 0 for a lone issue |
| Workers.Worker.constructor | components/worker/index.js:28-31 | a worker over its own emitting dev queue, not finished, with no listener waiting |
| Workers.Worker.Work | components/worker/index.js:33-158 | stopped: nothing changes; empty queue: one more push listener and nothing else; otherwise the stress event, then the walk `TermOn` prescribes, applied to the live queue, and the next term scheduled |
| Workers.Worker.RunTerm | components/worker/index.js:49-157 | the stress is reported, then the queue changes exactly as the term's walk says: popped issues leave the map and the key list and wait for their pop events, the work events follow, and each stored issue settles as its step says |
| Workers.Worker.Plan | components/worker/index.js:104-114 | the work order of the queued copies, with distinct ids, and the stored issue behind each entry |
| Workers.Worker.Allocate | components/worker/index.js:121-150 | the loop leaves the points, the queue and every walked issue exactly as `Walk` prescribes |
| Workers.Worker.Turn | components/worker/index.js:121-150 | one more issue of the walk takes its step, and the loop invariant moves one place on |
| Workers.Worker.Advance | components/worker/index.js:127-149 | the i-th issue takes its step; every other issue keeps its snapshot |
| Workers.Worker.WorkOn | components/worker/index.js:127-149 | the issue, the queue's map, key list, pending pops and events, and the points left change as `Step` says |
| Workers.Worker.Assign | components/worker/index.js:43-47 | a push into the worker's queue, as `Queue.Push` decides it: an accepted issue is stored, its id appended to the key order when new, its push event logged; a refusal changes neither entries, key order nor events; pending pops are untouched; an accepted push fires every one-time listener `work` left, each scheduling a term |
| Workers.Worker.Stop | components/worker/index.js:161-163 | the worker is finished, so every later `work` call does nothing |
| Workers.NewWorker | components/worker/index.js:13-33 | fails with the worker check's error and consumes no id; once that check passes an id is consumed even if the dev queue then refuses; on success a fresh worker with an empty emitting queue (no entries, keys, events or pending pops), waiting for one push |
| GameMasters.CheckMonitorArgsAsWritten | components/game-master/index.js:12-50 | the code's check: the todo-queue check, then an emitter object with `on`; a capacity reading of 0 is let through |
| GameMasters.CheckMonitorArgs | components/game-master/index.js:34-39 | passes exactly for a queue-like object with a capacity reading of at least 1 and an emitter; the corrected check also refuses a capacity reading of 0 as TypeError(1); every refusal is TypeError(1) or TypeError(2) |
| GameMasters.MonitorChecksDifferOnlyAtZeroCapacity | components/game-master/index.js:34-39 | the two checks differ exactly on a queue whose capacity reading is 0 |
| GameMasters.SampleIncrementBounds | components/game-master/index.js:67-68 | a sample adds whole hundredths, from 0 for an empty queue up to 8 for a full one; at capacity 20 or less any queued issue adds at least 0.4 |
| GameMasters.SampledBounds | components/game-master/index.js:67-69 | a sample keeps the level in [0, 100] and never lowers it below the cap; it leaves the level alone for an empty queue, and with anything queued and a capacity of at most 20 it strictly raises a level below the cap |
| GameMasters.ReliefBounds | components/game-master/index.js:85-86 | a pop lowers the level by the complexity down to 0, keeps it in range, clears a level the complexity covers, and strictly lowers a positive level |
| GameMasters.SampleAsWrittenAgrees | components/game-master/index.js:67-69 | on a positive capacity the sample computed with JavaScript division is the exact `Sampled` |
| GameMasters.ZeroCapacityPoisonsLevel | components/game-master/index.js:34-69 | a stand-in queue of capacity 0 passes the code's check; its first sample makes the level NaN, which no later sample or pop clears; the corrected check refuses it |
| GameMasters.GameMaster.constructor | components/game-master/index.js:52-55 | level 0, not finished, no update emitted |
| GameMasters.GameMaster.Sample | components/game-master/index.js:61-76 | stopped: nothing changes; otherwise the level becomes `Sampled` of the queue's size and capacity, stays in range, and the new level is emitted |
| GameMasters.GameMaster.OnIssuePop | components/game-master/index.js:79-87 | stopped: nothing changes; otherwise the level becomes `Relieved` by the popped issue's complexity, stays in range, and nothing is emitted |
| GameMasters.GameMaster.Stop | components/game-master/index.js:90-92 | finished, with the level and the updates kept |
| GameMasters.NewGameMaster | components/game-master/index.js:11-76 | over a queue the corrected check and the code's check decide alike, and only the emitter can be refused (TypeError(2)); on success the first sample has run, so the level is that sample's increment and one update was emitted |
| IssueGenerators.CheckGeneratorArgs | components/issue-generator/index.js:9-60 | the todo-queue check (TypeError(1)), then a non-empty array of non-empty strings (TypeError(2)), then the rate (TypeError(3)) |
| IssueGenerators.GeneratorArgsAccepted | components/issue-generator/index.js:54-59 | the checks pass exactly for an accepted queue, a non-empty list of names and a rate strictly between 0 and 1; `isFloat` refuses nothing more |
| IssueGenerators.TimeoutMeaning | components/issue-generator/index.js:71-77 | the period is positive, gives `maxSize * rate` cycles a second, exceeds a second divided by the capacity, and shortens as the rate grows |
| IssueGenerators.DrawsAccepted | components/issue-generator/index.js:85-90 | the drawn name, priority and complexity make a valid issue exactly when each draw is within the range the code asks for |
| IssueGenerators.IssueGenerator.constructor | components/issue-generator/index.js:62-63 | a generator over the given queue, names, rate and id counter, not finished |
| IssueGenerators.IssueGenerator.PushNewIssue | components/issue-generator/index.js:65-108 | stopped: nothing changes and no cycle follows; full queue or refused draws: nothing changes; otherwise one id is consumed and, in a `todo` queue, the new `todo` issue is stored with its push event; errors are swallowed; the next cycle follows after `Timeout`; the queue grows by at most one |
| IssueGenerators.IssueGenerator.Stop | components/issue-generator/index.js:111-113 | finished, so every later cycle does nothing |
| IssueGenerators.NewIssueGenerator | components/issue-generator/index.js:8-108 | over a queue only the names (TypeError(2)) and the rate (TypeError(3)) can be refused, changing nothing; on success the generator holds exactly the argument's names, in order, and the first cycle has run as `OneCycle` describes |

## Left out

- The user interface, the styles, the `main` wiring and the game clock are not part of this model.
- Timers:
  - `setTimeout` is not modelled. Each periodic method instead returns what it schedules: `Workers.Schedule` or `IssueGenerators.Cycle`.
  - The one-time `issue/push` listener is a counter (`pushWaiters`).
  - The next tick is an explicit `Queue.Deliver` call.
- Randomness: `getRandomNumber`'s draws are parameters of `PushNewIssue`.
- IssueGenerators.IssueGenerator.PushNewIssue: an error from creating or pushing the issue is swallowed, as in the code, but its `console.error` logging (issue-generator/index.js:98-101) is not modelled.
- The game master's subscription with `workerEmitter.on` is not modelled. `OnIssuePop` is the listener, called with the popped issue.
- The `eventemitter3` internals are not modelled. An emitter is its log of delivered events plus the pending pop events.
- Numbers are exact reals. IEEE-754 rounding, NaN and Infinity are not modelled, except in the `Double` type that exhibits the zero-capacity finding.
- `roundAfterPoint` (in shared/utils, which is not part of this model) is taken to be `Math.round(100 * x) / 100`.
- Error messages, `toString` and the getters are not modelled. Errors keep only their class and the argument position.
- Queues.Queue.Push: the checks for a non-object or a missing `getId`/`getStatus` method (queue/index.js:39-58) are not modelled, because every pushed value is an `Issue` of this model.
- WorkOrders.SortByPriority: the engine's `Array.prototype.sort` is taken to be stable, as current engines guarantee.
- WorkOrders.FirstSeen: `Object.keys` lists integer-like keys first, in numeric order. This is not modelled: project names are kept in first-seen order.
- WorkOrders.FirstSeen: a project named `__proto__` is not modelled as the code treats it. The counter is a plain `{}` (worker/index.js:53-60), so `map["__proto__"]` reads the truthy `Object.prototype` and the increment is dropped by the prototype setter. `Object.keys` (worker/index.js:80, 104) then omits that name. The model lists it like any other project.
- WorkOrders.WorkOrderIsPermutation, Workers.TermOn, Workers.Worker.Plan, Workers.Worker.Work: through `FirstSeen`, these work the issues of a `__proto__` project and count that project among the groups. In the code those issues are counted in `totalIssues` (worker/index.js:71) but are never grouped or worked. When every queued issue has that name, the key list is empty and `.reduce` with no initial value (worker/index.js:114) throws, ending the term with no reschedule. The model promises nothing about this. `Issue` accepts the name (issue/index.js:13-34), but the game passes the fixed names `Lenono`, `Apple` and `Qmartic` (main/index.js:129).
- GameMasters.NewGameMaster: modelled over a queue of this model only. Any other object reaches only the value-level checks `CheckMonitorArgs` and `CheckMonitorArgsAsWritten`.
- IssueGenerators.NewIssueGenerator: modelled over a queue of this model only, for the same reason.
- IssueGenerators.IssueGenerator.PushNewIssue: the status reset at issue-generator/index.js:93-95 is not modelled. A new issue is always `todo`, so that reset never runs.
- Workers.Worker.Work: when the code's step throws (the finding below), its term is cut short with no reschedule. The worker method uses the corrected step instead; the throwing behaviour is modelled only as values, in `WorkTerms.StepAsWritten`.
- Workers.Worker.RunTerm, Workers.Worker.Allocate, Workers.Worker.Turn, Workers.Worker.Advance, Workers.Worker.WorkOn, Workers.TermOn, WorkTerms.Walk, WorkTerms.WalkAt, WorkTerms.WalkSettles: all are built on the corrected `WorkTerms.Step`, which completes an issue that needs nothing where the code's `spentAdditionalWork(0)` throws (issue/index.js:57-60). None of them models that throw.
- Workers.Worker.Assign: only the worker's side of a push is modelled. Which issue is pushed, and when, is left to the caller, as in the UI.

## Findings

| source | as written | input that shows it | evidently intended | confidence | as-written member | corrected member |
|---|---|---|---|---|---|---|
| components/worker/index.js:133-145 | a partial step rounds the spent work to hundredths, which can reach the full complexity without completing the issue; the next term computes a need of 0 and calls `spentAdditionalWork(0)`, which throws and ends the work loop | `Worker(1, 0.996)` with one `dev` issue of complexity 1: the first term spends 0.996, rounded to 1.00; the second term throws TypeError. The game's own `Worker(5, 4)` (components/main/index.js:14) hits it too: with two issues in two projects a term has 4 · 0.8 · 0.68 = 2.176 points, and an issue needing 2.18 (complexity 3, 0.82 spent) is rounded up to 3.00 without completing | an issue whose spent work has reached its complexity is completed without spending more | medium, not executed | WorkTerms.StepAsWritten, WorkTerms.RoundingStrandsIssue, WorkTerms.ShippedWorkerCanStrandIssue | WorkTerms.Step, WorkTerms.AsWrittenDiffersOnlyWhenNothingNeeded |
| components/game-master/index.js:34-38 | the capacity check refuses only negative readings, so a capacity of 0 passes, and the sample divides by it | `GameMaster({getSize: () => 0, getMaxSize: () => 0}, {on: () => {}})`: the first sample computes 0/0 = NaN, and the level stays NaN from then on | a capacity of at least 1, as every queue has | low, not executed (assumes `roundAfterPoint` keeps NaN) | GameMasters.CheckMonitorArgsAsWritten, GameMasters.ZeroCapacityPoisonsLevel | GameMasters.CheckMonitorArgs, GameMasters.SampleIncrementBounds |

# Dizzy: a verified model of the churn engine and its neighbours

Dizzy creates and deletes OpenStack resources at random for hours and keeps an
exact record of what it may have left in the cloud. This project models the
parts of it whose correctness is hard to see from the code, and proves what
those parts promise:

- the churn engine: a single-threaded scheduler over a graph of planned
  resources, and one goroutine for each operation it launches, with
  dependencies, family gates, concurrency slots, cancellation, failing and
  panicking cloud calls, and retries of failed deletes;
- the time-bucketed report of the engine, and the log-bucket latency histogram
  and collector tree of the metrics package;
- the staged executor's worker pool and the teardown of a run;
- the division of a pressure run's duration over its stages.

`dafny verify dfyconfig.toml` checks the whole project.

## Layout

| module | models |
|---|---|
| `Graphs` | the graph of planned nodes and the post-order walk of a roll |
| `Scheduling` | what the scheduler owns: the inventory, and each operation with its dependencies; the invariant `Valid` of every schedule |
| `Policy`, `Controller`, `Ticks` | what a step decides, what its draws have to do with it, and the ticks and the decision log a run of steps leaves |
| `Rolling` | rolling sets over whole runs |
| `Siblings`, `Lineage`, `Sets` | which operations wait for one another: the deletes of a roll, those of a node and its ancestors, and any two of one rolling set |
| `Indexing`, `Engine` | `newEngine` and the scheduler's methods, updating its fields in place, proved against `Scheduling`, `Policy` and `Ticks` |
| `Execution` | the state machine of operations: every interleaving of decisions, moves and a cancellation |
| `Ordering`, `Tokens`, `Records`, `Filing`, `Identities` | one invariant each, and why every move and every dispatch keeps it |
| `Runs` | the conjunction `Sound`, and `Reach`, the state after any sequence of steps |
| `Guarantees`, `Duties`, `Repeats`, `Created`, `Progress`, `Schedules` | the results about whole runs: the order of the calls, which calls are made and made again, what the record lists, and that every run ends |
| `Seeds` | runs whose decisions are drawn, and how they relate to the schedule the draws fix |
| `Flights`, `Serial`, `Overlap` | runs made to order, when the calls of a set of nodes run one after another, and drawn runs in which they do not |
| `Retired` | the node's list of deleted instances, updated in place |
| `Buckets`, `Reports` | the time-bucketed report, and what a whole run tells it |
| `Histograms`, `Collectors` | the histogram, the collector tree |
| `Stages`, `Teardown` | the worker pool, the teardown |
| `StageWindows` | the windows of a pressure run |
| `Options`, `Finite` | what the other modules share |

Fields that serve the proofs only are called history where they are declared:
`past` (the transitive closure of an operation's dependencies, which
`PastIsReach` ties to its inductive definition), `after` (how many operations
came before a roll), `removed`, `att` and `log` of `Execution.Sys`, `outs` and
`order` of `Stages.Pool`, and the ghost fields of the classes.

## Assumptions

- The graph is what the builders guarantee (`Graphs.WellFormed`): acyclic, every
  child of a rolling node in the same set, no node both rolling and pinned.
- A cloud call returns or panics. What it returns is arbitrary, and a failed
  create may still publish an id.
- The random generator is an arbitrary stream of draws from the unit interval,
  and the offsets of decisions do not decrease.
- Logarithms, powers, means and probabilities are exact reals.

## Where the code and its comments differ

- "The cloud calls of one set run one after another" (`internal/chaos/engine.go:15-16`)
  holds in every run exactly when there is one slot, or any two nodes of the set
  share a gate or are ancestor and descendant with the ancestor not mutable
  (`Serial.SetsRunSerially`). `Sets.SetOrder` says of any two operations of a set
  when the later waits for the earlier, and `Overlap.SiblingDeletesOverlap` and
  `Overlap.SiblingCreatesOverlap` are drawn runs in which two siblings' calls overlap.
- The record's list of created resources is exact after the drain only
  (`Created.CreatedIsExact`). Before it, the list also holds the removed instances
  whose last delete attempt has not finished, and no others
  (`Created.CreatedIsSuperset`, `Created.ListedUntilFinished`);
  `Overlap.DeletedYetListed` is a drawn run that lists one.
- A percentile estimate is within 1% before its truncation to whole nanoseconds,
  and within 1% and one nanosecond after it (`Histograms.EstimateIsClose`);
  `Histograms.TruncationCostsMore` is an input on which the 1% alone fails, and
  `Histograms.TruncatedIsClose` says exactly when it holds.
- "A resource is never left created-but-untagged" (`internal/neutron/client.go:209-211`)
  does not hold for a run cancelled between a create and its tag, since the rollback
  uses the cancelled context. What `Cleanup` finds of such leftovers is
  `Teardown.Found`, and it succeeds exactly when none that it does not find pins
  something that it finds (`Teardown.Cleanup`); `Teardown.UntaggedPoolPinsScope` is a
  run after which it meets a conflict.
- `stageWindows` misjudges exactly one family of inputs: a run of the longest
  duration, no stage without a duration, and durations that overflow it
  (`StageWindows.Resolve`, with `StageWindows.OverflowingStages` as an instance).

## Model

| member | source | states |
|---|---|---|
| Graphs.VisitDeletesSubtree | internal/chaos/engine.go:813-835 | in any acyclic graph and any parent-closed inventory the walk of a roll deletes exactly the root and its present descendants, each once, every child before its parents and the root last, and leaves the inventory parent-closed |
| Graphs.VisitFollowsIndex | internal/chaos/engine.go:805-811 | children are followed in index order: what is below one child comes before what is below later ones only |
| Scheduling.DispatchKeepsValid | internal/chaos/engine.go:993-1140 | every create, delete or mutate keeps the scheduler's invariant: parent closure, the per-node chains, conflicts ordered by dependencies, no instance deleted twice or forgotten, parents' creates unchanged under a present child, rolls behind all earlier operations of their set |
| Scheduling.StartRollKeepsValid | internal/chaos/engine.go:813-835 | so does starting a roll: what is to be deleted is present, in one set, children first, and the operations every delete waits for cover all the set had |
| Scheduling.NewIsBehindConflicts | internal/chaos/engine.go:1042-1066 | although an operation lists direct dependencies only, every earlier operation of its node, and every earlier conflicting one of a parent or child, is among its transitive predecessors |
| Scheduling.DepsComeBefore | internal/chaos/engine.go:999-1000 | dependencies point strictly backwards in dispatch order |
| Scheduling.InstanceParents | internal/chaos/engine.go:1133-1142 | the parents' creates a delete or mutate reads ids from are those its instance's create read |
| Scheduling.PastIsReach | internal/chaos/engine.go:1214-1221 | the predecessor sets are exactly the transitive closure of the dependency lists |
| Scheduling.PopulationCounts | internal/chaos/engine.go:837-852 | in every run creates minus deletes is the population, it never exceeds the plan, the inventory is parent-closed and no pinned node is deleted |
| Policy.CreatesUntilFull | internal/chaos/engine.go:871-891 | no node can be created exactly when all are present |
| Policy.NeverIdle | internal/chaos/engine.go:774-777 | a non-empty graph without pinned nodes never records a no-op |
| Policy.PlainGraphDrawsPlainly | internal/chaos/engine.go:732-741 | without pinned, rolling or mutable nodes a step makes the draws and the decision of a plain create or delete step |
| Policy.EagerNodesFirst | internal/chaos/engine.go:742-751 | when the ancestors of pinned and rolling nodes are pinned or rolling, the first steps create those nodes one by one and nothing else happens before all are present |
| Policy.EagerComesFirst | internal/chaos/engine.go:742-751 | whenever an eager create is possible the step makes one, and one fewer eager node is absent |
| Policy.DrawIsDecidable | internal/chaos/engine.go:768-803 | whatever is drawn is an action the dispatch may take |
| Controller.DrawsSteerToTarget | internal/chaos/engine.go:854-870 | with something to create and something to delete the creating draws are those below a threshold in the unit interval: the churn ratio at the target fill, and elsewhere as far from it as the target is from the fill, unless that is outside the interval |
| Controller.OneMoreCreatesLess | internal/chaos/engine.go:854-870 | between the ends of the interval one more present node lowers the threshold by one over the number of nodes, and it never raises it |
| Controller.OtherwiseNoChoice | internal/chaos/engine.go:768-797 | with nothing to create a step deletes, with nothing to delete it creates, with neither it records a no-op; what it decides is eligible, and a rolling node is never deleted alone |
| Controller.MutationIsDrawn | internal/chaos/engine.go:742-766 | a step mutates exactly when no eager create is possible, some node is mutable, the draw is below the resize ratio and a node may be mutated; otherwise it decides as the plain step does, from the next draw |
| Controller.CandidatesAreUniform | internal/chaos/engine.go:768-787 | the k-th of n candidates in index order is taken exactly by the draws in the k-th of n equal parts of the unit interval, and by no draw used before |
| Controller.FavouritesAreUniform | internal/chaos/engine.go:742-764 | so are eager creates and mutates |
| Controller.FanOutIsUniform | internal/chaos/engine.go:691-699 | a tick draws its fan-out after its delay, each of 1 to MaxParallel by the draws in one of as many equal parts |
| Controller.CandidatesAreLegal | internal/chaos/engine.go:871-973 | the candidates are exactly the nodes the scheduler may create, delete or roll, and mutate |
| Controller.MutatesOnce | internal/chaos/engine.go:281-290 | in every schedule no instance of an unpinned node is mutated twice |
| Controller.MutableUntilMutated | internal/chaos/engine.go:959-973 | in every schedule a present mutable node may be mutated until its current instance has been, and ever if pinned |
| Rolling.RollDeletes | internal/chaos/engine.go:805-835 | a roll makes exactly the root's subtree absent |
| Rolling.MissingIsOneSubtree | internal/chaos/engine.go:209-225 | once a rolling set has been whole, after every later step its absent nodes lie below one of its roots, its nodes' parents outside the set are present, and until it is whole again every step creates |
| Siblings.RollOrderIsDescent | internal/chaos/engine.go:805-835 | a delete of a roll waits, among the earlier operations of its set, for exactly those before the roll and those on its node's descendants |
| Siblings.NewDeleteIsBehind | internal/chaos/engine.go:1054-1061 | a delete is behind every earlier operation of every descendant |
| Lineage.RelativesAreOrdered | internal/chaos/engine.go:1034-1061 | whatever is decided, the later of two operations of one node, or of a node and any of its ancestors, waits for the earlier unless the ancestor's is a mutate |
| Sets.SetOrder | internal/chaos/engine.go:805-835 | of any two operations of one rolling set the later waits for the earlier exactly when `Sets.WaitsFor` says so: for a delete, if the earlier came before the roll or works below its node; for others, if the set was rolled between the earlier and the later's instance, or the earlier works on the later's node or creates an ancestor of it |
| Serial.SetsRunSerially | internal/chaos/engine.go:15-16 | in every run the cloud calls of a set of nodes run one after another exactly when there is one slot or any two of the nodes share a gate or are ancestor and descendant with the ancestor not mutable |
| Serial.ClashOverlaps | internal/chaos/engine.go:1206-1245 | for any two nodes that are neither, a run in which a create, or a mutate, on one and a create on the other are in flight at once |
| Schedules.ScheduleIsItsDecisions | internal/chaos/engine.go:559-563 | in every interleaving, whatever the calls return, the scheduler's state is that of its decisions alone |
| Seeds.DrivenIsScheduled | internal/chaos/engine.go:684-703 | in every interleaving of a run whose decisions are drawn from its own inventory at its generator's position, the decisions made, with the deletes left of a roll in progress, are those of the scheduler's first steps, ticks and no-ops consuming their draws |
| Seeds.DrawsFixSchedule | internal/chaos/engine.go:16-18 | of two runs driven by the same draws, whatever their interleavings, outcomes, cancellations and limits, one has made the first of the other's decisions, and with equally many both have the same operations, dependencies and inventory |
| Seeds.ScheduledIsDriven | internal/chaos/engine.go:684-703 | and the other way round: every run that makes the first decisions of that schedule is, in this interleaving and with these outcomes, one the draws make |
| Schedules.StepsAreExec | internal/chaos/engine.go:697-703 | the schedule of the first n steps, a function of the draws, is one of those the results about runs range over, and leads to the state the stepping scheduler reaches |
| Indexing.Build | internal/chaos/engine.go:594-610 | parents are the nodes the keys name, in order, and children lists, in index order, a node once for each key of it that names the parent |
| Indexing.ChildrenCount | internal/chaos/engine.go:600-609 | a node is a child of another as often as that is a parent of it |
| Indexing.IndexSets | internal/chaos/engine.go:632-654 | the rolling sets list their members in index order, and exactly the rolling nodes without a parent in their set are marked as roots |
| Engine.Scheduler.constructor | internal/chaos/engine.go:612-673 | the initial scheduler is empty and valid, and its pools hold the smaller of MaxParallel and Concurrency, and at least one |
| Engine.Scheduler.CreateCandidates | internal/chaos/engine.go:871-891 | lists, in index order, the absent nodes whose parents are present |
| Engine.Scheduler.EagerCreateCandidates | internal/chaos/engine.go:893-906 | lists those of them that are pinned or rolling, also when the scan is skipped |
| Engine.Scheduler.IsWhole | internal/chaos/engine.go:908-916 | true exactly when every node that carries the roll value is present, for no value too |
| Engine.Scheduler.DeleteCandidates | internal/chaos/engine.go:918-957 | lists the present unpinned nodes that are childless, or for rolling ones, roots of whole sets |
| Engine.Scheduler.MutateCandidates | internal/chaos/engine.go:959-973 | lists the present mutable nodes that are not mutated yet or pinned |
| Engine.Scheduler.DispatchCreate | internal/chaos/engine.go:993-1009 | the in-place bookkeeping of a create is the specified one, keeps the invariant and the population count |
| Engine.Scheduler.DispatchDelete | internal/chaos/engine.go:1042-1066 | likewise for a delete, with the former dependents' and the roll's operations among its dependencies |
| Engine.Scheduler.DispatchMutate | internal/chaos/engine.go:1098-1110 | likewise for a mutate, which leaves the population alone |
| Engine.Scheduler.Perform | internal/chaos/engine.go:789-802 | recording and dispatching keep counters equal to what was dispatched, and a bounded run's log, offsets included, grows by that entry |
| Engine.Scheduler.VisitNode | internal/chaos/engine.go:820-835 | the recursive walk deletes and logs the subtree in the specified order, whatever part of the roll is already done |
| Engine.Scheduler.RollSetOf | internal/chaos/engine.go:813-835 | a roll reaches the specified state, each delete behind the last operation of every node of the set |
| Engine.Scheduler.SamplePopulation | internal/chaos/engine.go:975-987 | the summary stays the minimum, maximum, sum and number of all populations sampled, the current one now among them |
| Engine.Scheduler.Step | internal/chaos/engine.go:742-803 | one step makes the decision the policy draws, from the same draws, reaches the policy's next state, logs it, and samples the population |
| Engine.Scheduler.Tick | internal/chaos/engine.go:691-699 | a tick draws its delay and its fan-out and makes that many steps at its offset |
| Engine.Scheduler.Run | internal/chaos/engine.go:684-705 | a run of ticks reaches the state, and a bounded one leaves the decision log, that the draws and the offsets determine |
| Ticks.LogIsInOrder | internal/chaos/engine.go:837-852 | every entry of the decision log is at the offset of a tick, and in their order |
| Ordering.WonIsBehind | internal/chaos/engine.go:1229-1238 | because the context is looked at again after the slot is won, a live operation that wins its slot has all its transitive predecessors finished and admitted |
| Ordering.MoveKeepsOrdered | internal/chaos/engine.go:1214-1245 | every move keeps: an admitted operation's transitive predecessors have all finished and were admitted, and one that was turned away was turned away by the cancellation |
| Ordering.MoveKeepsTraced | internal/chaos/engine.go:1214-1245 | every move keeps: no call comes after a call of an operation it is behind |
| Ordering.MoveKeepsBalanced | internal/chaos/engine.go:341-361 | every move keeps: an operation makes one cloud call at a time, and ends each it starts |
| Tokens.MoveKeepsConserved | internal/chaos/engine.go:1166-1191 | every move keeps: the slot, pending and gate counters equal what operations hold, gates have one holder, and only operations launched after the cancellation run without a token |
| Tokens.SlotNeverBlocks | internal/chaos/engine.go:1144-1152 | while the run is live, an operation waiting for a slot finds one free |
| Tokens.AdmittedAreBounded | internal/chaos/engine.go:1206-1213 | at most as many operations as the limit work at once, and no two share a gate |
| Tokens.DrainedHoldsNothing | internal/chaos/engine.go:1250-1255 | every exit path gives back what it took: when all have finished nothing is held |
| Records.ConfirmationSpreads | internal/chaos/engine.go:341-381 | along the attempts on one instance, a confirmed attempt makes every finished later one confirmed |
| Records.StillThere | internal/chaos/engine.go:353-364 | a retry runs only when no delete of its instance has returned nil |
| Records.RetryTargets | internal/chaos/engine.go:346-361 | the instance a retry's call deletes has an id and is not removed |
| Records.DeleteTargets | internal/chaos/engine.go:1068-1088 | the instance a delete works on has finished its create, is not removed, and the delete is the first attempt on it |
| Records.RetireKeepsUnconfirmed | internal/chaos/engine.go:303-313 | retiring drops exactly the confirmed entries, adds the new one at the end, and keeps entries distinct |
| Records.RequeueKeepsRecorded | internal/chaos/engine.go:323-339 | retryDeletes keeps the run record's invariant: chains of attempts, what is done, who is removed, what is listed |
| Records.MoveKeepsRecorded | internal/chaos/engine.go:341-381 | every move of every operation keeps it |
| Filing.DispatchKeepsRecorded | internal/chaos/engine.go:993-1112 | every dispatch keeps it |
| Identities.RetryPassesIds | internal/chaos/engine.go:341-366 | a retry passes the parent ids its instance was created with, along any chain of retries |
| Identities.MoveKeepsIdentified | internal/chaos/engine.go:1024-1027 | every move keeps: each call on an instance passes the ids of the same parents, none of them empty |
| Runs.StepKeepsSound | internal/chaos/engine.go:684-720 | every decision, the cancellation and every move keep all invariants together |
| Guarantees.PredecessorsCallFirst | internal/chaos/engine.go:1206-1213 | in every run, once an operation has made a call all its transitive predecessors have run to their end, and their calls came before |
| Guarantees.ConflictingCallsInOrder | internal/chaos/engine.go:1034-1061 | in every run the calls of one node never overlap and follow decision order, a child's calls come after its parent's create has ended, and a parent's delete after every call of its former dependents |
| Guarantees.RollsReplaceSerially | internal/chaos/engine.go:805-819 | in every run, when a delete of a roll makes a call, every operation its set had before the roll has run to its end |
| Guarantees.CallsPassOneSetOfIds | internal/chaos/engine.go:1332-1343 | in every run all calls on one instance, retries included, pass the same non-empty parent ids |
| Guarantees.ConcurrencyIsBounded | internal/chaos/engine.go:612-620 | in every run no more operations work at once than MaxParallel and Concurrency allow, none share a gate, slots do not block a live run, an operation waiting for one can take it while fewer are taken than both allow, and the drain leaves nothing held |
| Duties.RetriesAreMade | internal/chaos/engine.go:341-366 | in every run, once an admitted create none of whose retries panicked is past a retry, it has made that Delete, once, exactly if the instance's create came back with an id and no Delete of it by an operation before came back with nil; before its turn it has made none |
| Repeats.InstancesAreDeletedAgain | internal/chaos/engine.go:315-345 | in every run, once an admitted create none of whose retries panicked has come to its own call, it has deleted each earlier instance of its node, once, exactly if that had an id and no Delete by an operation before removed it |
| Duties.OwnCallsAreMade | internal/chaos/engine.go:1011-1131 | in every run an admitted operation past its retries has made its own call, once, exactly if every parent's create came back without error and with an id, for a create or a mutate, its instance's create came back with an id, for a delete, and without error, for a mutate; and one that was not admitted, or a retry of which panicked, has made none |
| Duties.CallsHaveOwners | internal/chaos/engine.go:341-366 | there are no other calls: each is an admitted operation's own or that of a retry it owns |
| Duties.DeletesAreJudged | internal/chaos/engine.go:1068-1090 | a delete that ran counts as failed exactly if its instance had an id and its own call did not come back with nil |
| Duties.CreatedFollowsLog | internal/chaos/engine.go:1285-1310 | in every state of every run Created lists only instances whose create has finished and came back with an id, and every such instance no Delete of which came back with nil |
| Duties.CreatedIsLogged | internal/chaos/engine.go:1285-1310 | in terms of the calls alone: after the drain Created lists exactly the instances whose create came back with an id and none of whose Deletes came back with nil, and the cycles are the Deletes that did, one for an instance |
| Created.LiveResources | internal/chaos/engine.go:1285-1310 | the loop computes the specified list |
| Created.CreatedIsSuperset | internal/chaos/engine.go:1285-1310 | in every state of every run the list repeats nothing, holds published instances only, holds every one no delete returned nil for, and holds one a delete returned nil for exactly while its last attempt is unfinished |
| Created.CreatedIsExact | internal/chaos/engine.go:1285-1310 | after the drain the list holds, once each, exactly the instances that got an id and for which no delete returned nil |
| Created.InstancesAreConserved | internal/chaos/engine.go:517-521 | after the drain the instances with an id are as many as the cycles and the listed ones together, and no instance has two deletes that returned nil |
| Created.RetriesCloseOnce | internal/chaos/engine.go:346-381 | in every run no move closes a retry that is closed, and each closes just the one it settles |
| Created.RetriesAllClose | internal/chaos/engine.go:367-381 | after the drain every retry is closed, whether it ran, was cancelled or panicked |
| Created.ListedUntilFinished | internal/chaos/engine.go:1285-1295 | until that operation finishes, the instance is still listed |
| Overlap.SiblingDeletesOverlap | internal/chaos/engine.go:813-835 | a run that some draws make of a rolling set, in which the deletes of two siblings by one roll are in flight at once |
| Overlap.SiblingCreatesOverlap | internal/chaos/engine.go:993-1033 | a run that some draws make of a rolling set, in which the creates of two siblings are in flight at once, without any roll |
| Overlap.DeletedYetListed | internal/chaos/engine.go:1285-1295 | a run that some draws make, whose list of created resources names an instance a delete returned nil for |
| Retired.RequeueIsEntrywise | internal/chaos/engine.go:323-339 | retryDeletes gives each unconfirmed entry one retry of its own, which follows the entry's attempt and takes its place, and leaves the others |
| Retired.History.Retire | internal/chaos/engine.go:303-313 | the in-place filter computes the specified list |
| Retired.History.RetryDeletes | internal/chaos/engine.go:323-339 | the in-place loop computes the specified list and retries |
| Flights.CancelledTurnsAway | internal/chaos/engine.go:1206-1245 | once the run is cancelled an operation that is not admitted can turn away without any other having to move |
| Progress.NoDeadlock | internal/chaos/engine.go:1142-1166 | in every state of every run with an unfinished operation, a scheduler blocked on the pending pool included, some move is possible |
| Progress.DrainIsBounded | internal/chaos/engine.go:705-719 | every sequence of moves after the scheduler stopped is at most as long as the rank of the state |
| Progress.DrainFinishes | internal/chaos/engine.go:705-719 | from every state the operations can all finish |
| Buckets.SortSorts | internal/metrics/metrics.go:237-245 | the sorted copy is ascending and has the same durations |
| Buckets.ErrorsAddUp | internal/chaos/engine.go:500-515 | the error tally of any outcomes adds up to their failures |
| Buckets.PlainTells | internal/chaos/engine.go:434-557 | the bucket of a slot starts at the slot's lower end and tells of the logged outcomes whose offset is within the slot's bounds: how many, how many succeeded, how many failed, which is what the errors add up to, how many of each error kind, the successes per second, and the exact minimum, maximum, truncated mean and nearest-rank percentiles of their latencies |
| Buckets.Results.constructor | internal/chaos/engine.go:422-432 | a bounded run has its slots from the start, an unbounded one none, and the width is positive |
| Buckets.Results.Advance | internal/chaos/engine.go:446-468 | every slot left behind with nothing in flight is sealed and its raw data released, sealed slots do not change, and open is the lowest one not sealed |
| Buckets.Results.Begin | internal/chaos/engine.go:470-477 | an operation decided at the current offset is in flight |
| Buckets.Results.End | internal/chaos/engine.go:479-485 | it no longer is |
| Buckets.Results.Add | internal/chaos/engine.go:500-515 | an outcome of an operation in flight joins the log, and its slot is not sealed |
| Buckets.Results.InFlight | internal/chaos/engine.go:487-498 | looking at the slots from open on tells whether any operation is in flight |
| Buckets.Results.BucketAt | internal/chaos/engine.go:538-557 | a sealed slot's stored bucket and an open slot's computed one both equal the bucket of the plain log, and tell what its outcomes amount to |
| Buckets.Results.Report | internal/chaos/engine.go:523-536 | in any interleaving the report equals the one computed from the list of all outcomes, and each of its buckets tells what the slot's outcomes amount to |
| Reports.RunsFollowProtocol | internal/chaos/engine.go:1159-1191 | in every run the offsets reached do not decrease, an operation begins once, at the current offset, adds outcomes, a panic's included, only before it ends, and those in flight are those launched that have not yet returned their pending token |
| Reports.CallsAreReported | internal/chaos/engine.go:1159-1191 | in every run the buckets are told, of each operation, as many successes as calls of it came back with nil, as many failures as came back with an error, and one more for a panic once it is no longer in flight |
| Reports.ReportRun | internal/chaos/engine.go:523-536 | fresh buckets that are told the calls of any run report what the plain list of its outcomes gives |
| Histograms.KeyBounds | internal/metrics/histogram.go:11-18 | a duration's key is at most k exactly when gamma to the k reaches it |
| Histograms.FoldIgnoresOrder | internal/metrics/histogram.go:37-57 | the histogram depends on the durations only, not on their order |
| Histograms.CumIsAtMost | internal/metrics/histogram.go:92-100 | the cumulative count up to a key is the number of durations its bound reaches |
| Histograms.WalkLandsOnRank | internal/metrics/histogram.go:88-100 | the walk over the keys ends on the key of the rank-th smallest duration, and does not start exactly when that is zero |
| Histograms.PercentileIsNearest | internal/metrics/metrics.go:260-276 | the exact percentile is one of the durations: at least p percent of them are at most it, and fewer than p percent below it |
| Histograms.FoldSums | internal/metrics/histogram.go:37-57 | the sum is that of the durations added, negative ones counting as 0 |
| Histograms.EstimateIsClose | internal/metrics/histogram.go:82-109 | for all durations and every p the clamped estimate is within 1% of the exact nearest-rank percentile, and within 1% and 1 ns once truncated |
| Histograms.TruncatedIsClose | internal/metrics/histogram.go:11-12 | the truncated estimate is within 1% exactly when clamping replaces it or a whole number of nanoseconds lies between 99% of the exact percentile and its key's value, as for every multiple of 100 ns |
| Histograms.TruncationCostsMore | internal/metrics/histogram.go:102-109 | the median of 0, 1 and 2 ns is estimated as 0 |
| Histograms.FewKeys | internal/metrics/histogram.go:24-26 | durations below 2^63 use keys up to 2184 and so at most 2,185 of them |
| Histograms.Histogram.Add | internal/metrics/histogram.go:37-57 | the fields stay the fold of the durations added |
| Histograms.Histogram.Estimate | internal/metrics/histogram.go:82-109 | the loop over the ascending keys returns the clamped value of the key it lands on |
| Histograms.Histogram.Summarize | internal/metrics/histogram.go:59-80 | minimum and maximum are exact, the mean is that of the durations added, truncated, and each percentile is as close as the estimate promises to that of any sorted arrangement of the durations added |
| Collectors.FoldIgnoresOrder | internal/metrics/metrics.go:81-117 | what a collector holds depends on the samples only, not on their order |
| Collectors.FoldSummarizes | internal/metrics/metrics.go:81-117 | a collector's groups, overall, for each type of call and for each type of readiness record, hold how many entries they are of, how many of these succeeded, and the histogram of their durations in any order; there is one exactly for each type that occurs; and the errors count the calls of each non-empty kind |
| Collectors.Collector.Record | internal/metrics/metrics.go:82-98 | one critical section adds one sample to what the collector summarizes: the overall group, its type's group and the error tally |
| Collectors.Collector.RecordReadiness | internal/metrics/metrics.go:103-113 | one critical section adds one time-to-ready record to what it summarizes, in its type's group
| Collectors.Collector.Snapshot | internal/metrics/metrics.go:119-128 | the numbers of calls recorded, of those that succeeded, and of those that failed |
| Collectors.ParentsHoldTheirChildren | internal/metrics/metrics.go:73-117 | in any interleaving, once no call is under way each collector holds the fold of the samples recorded on it and on all its descendants, in any order, and so their counts and histograms |
| Stages.PrefixIsProcessed | internal/executor/executor.go:314-356 | in any interleaving the work returns exactly once for each item of a prefix and for no other, a result is set exactly where it returned nil, and an error exactly where it failed |
| Stages.StageIsBounded | internal/executor/executor.go:314-330 | no more items are in work at once than the concurrency allows, and there are no fewer workers unless each item has one |
| Stages.Judge | internal/executor/executor.go:358-371 | a quota error of the lowest index comes first, then the caller's cancellation, then the error of the lowest index |
| Stages.NoErrorIsComplete | internal/executor/executor.go:298-305 | no error is returned exactly when the caller did not cancel and no work failed, and then every result is its work's |
| Stages.ReturnsAreComplete | internal/executor/executor.go:298-312 | without an error there is a result for every item; with one, the caller had cancelled before anything was started, or there is a slot for every item |
| Stages.StageEnds | internal/executor/executor.go:320-356 | every step uses up rank, and until all workers have left some step is possible |
| Teardown.DeleteResources | internal/executor/cleanup.go:163-182 | for a kind nothing found still refers to, all listed ones go and those already gone are not counted, unless one is in conflict, and then something cleanup does not find pins it |
| Teardown.DeleteKind | internal/executor/cleanup.go:154-161 | what carries the run's tag goes, unless a conflict stops it |
| Teardown.PinnedIsStuck | internal/executor/cleanup.go:20-34 | in the teardown order, what pins an object when its turn comes is never something cleanup finds |
| Teardown.NetworkIsStuck | internal/executor/cleanup.go:80-86 | once floating IPs, interfaces and plain ports are gone, what pins a network and does not go with it is nothing cleanup finds |
| Teardown.SweepPorts | internal/neutron/cleanup.go:114-150 | sweeping the tagged networks removes the plain ports on them, tagged or not, unless a conflict stops it |
| Teardown.DeleteNetworks | internal/executor/cleanup.go:87-105 | deleting the networks, those already gone counting as success, takes the subnets and service ports on them along |
| Teardown.Cleanup | internal/executor/cleanup.go:18-137 | cleanup succeeds exactly when nothing it does not find pins something it finds, and then has removed exactly what it finds; otherwise it has met a conflict and removed nothing else either; it returns how many of the removed it deleted itself rather than detached or left to a network |
| Teardown.CleanupTwice | internal/executor/cleanup.go:26-27 | after a successful cleanup a second deletes nothing and changes nothing, after one that met a conflict a second meets one again |
| Teardown.CleanupAfterApply | internal/executor/executor.go:52-211 | wherever a run's creates stopped and whatever the cancelled ones left, cleanup succeeds under that condition; and if all the run made is found, it restores what everybody else made of the cloud |
| Teardown.UntaggedPoolPinsScope | internal/neutron/client.go:212-248 | a run whose cancelled create leaves an untagged subnet pool on a recorded address scope, which cleanup finds and cannot delete |
| StageWindows.Resolve | cmd/dizzy/keystone_pressure.go:708-756 | except for the saturated inputs, an error is returned exactly when the durations exceed the run or the rest is smaller than the number of open stages, and otherwise the windows are positive, add up exactly, keep the given durations and share the rest equally; on the saturated inputs it returns the durations although they exceed the run |
| StageWindows.OverflowingStages | cmd/dizzy/keystone_pressure.go:731-737 | two stages that overflow the longest run are such an input |

## Left out

- Execution.Dispatched: retire, retryDeletes and liveResources read the outcomes of other operations entry by entry while those run; the model takes each such scan as one step.
- Engine.Scheduler.DispatchCreate: retryDeletes, which reads the outcomes of running operations, is the method of `Retired.History` and a part of `Execution.Dispatched`, not of the class.
- Engine.Scheduler.DispatchDelete: the same holds of retire.
- Engine.Scheduler.Launch: the launched goroutine is the state machine of `Execution`; the class keeps the operation and its dependencies only.
- Engine.Scheduler.Run: how long a delay lasts, and when the clock or a cancellation ends the loop, is left to the list of offsets; checkpoints only read the state and are not calls of the model.
- Serial.SetsRunSerially: the runs in which calls overlap follow legal decisions, not necessarily ones some draws would make; those of `Overlap` are drawn.
- Panics outside cloud calls.
- Timeouts of calls and the difference between the contexts of bounded and unbounded runs: a call ends when it ends.
- Histograms.Histogram.Summarize: rounding of floating-point logarithms, powers and sums.
- Teardown.Cleanup: listing, detaching and deleting never fail for reasons of transport, and nobody else deletes meanwhile; detaching an interface frees the port it uses rather than removing it; security-group rules and gateway ports go with their owners and are not objects.
- Teardown.CleanupAfterApply: how `Apply` resolves logical names to ids is not modelled, only that creates refer to what is there, as their kinds do.
- Stages.PrefixIsProcessed: `provision` and `WithRetry` are part of the work.
- Throughput, report tables, classification of errors, configuration checks.
- Service clients, graph builders, scenarios, telemetry and commands.

# The init scheduler: object graph, transaction generator, job engine

schedulerd keeps a graph of objects joined by typed edges. Asked for an operation on an object, it generates a
transaction: the closure of jobs the edges ask for, with ordering cycles broken and each object's jobs merged into
one. The engine then runs the jobs, each after the jobs it waits for. This project models those three parts and
proves what they keep and what they achieve. The model does what the code does; where the code departs from its own
documentation, an exact condition says when the two agree, a concrete input shows that they need not, and the
documented behaviour is modelled beside it.

## How the files fit together

- `Types.dfy`, `Walks.dfy`, `Chains.dfy`: vocabulary; finite directed graphs, walks, cycles; chains of steps. A graph
  is acyclic exactly when no non-empty set lets every member step to a member.
- Object graph. `ObjectGraph.dfy` has the operations on graph states and the agreement of the indexes; `LoadOrder.dfy`
  and `LoadQueue.dfy` have sequences of loads and the load queue; `GraphScheduler.dfy` has the methods on objects in
  memory, each equal to its operation; `Outline.dfy` has what the other two parts rely on.
- Transaction generator, as the code has it. `Jobs.dfy`, `Indexes.dfy`: requirements, their two indexes, and deletion
  and merging as images of the requirement graph under a partial map. `Closure.dfy`, `Submission.dfy`,
  `JobSubmit.dfy`, `VisitLists.dfy`, `LateFlag.dfy`, `EarlyFlag.dfy`: `job_submit`. `AfterGraphs.dfy`, `Ordering.dfy`,
  `Plans.dfy`, `OneWayRound.dfy`, `SinglePass.dfy`, `Cascade.dfy`, `LostNeed.dfy`: finding and breaking cycles,
  deletion. `Merging.dfy`, `MergeTheorems.dfy`, `MergedTypes.dfy`, `MergedAway.dfy`: merging. `GoalFlags.dfy`,
  `Construction.dfy`: the meaning of the goal flag, and all phases together. `Transaction.dfy`: the class whose
  methods do all this in place.
- Transaction generator, as documented. `Cascading.dfy`: deletion that takes requiring jobs along. `Documented.dfy`,
  `DocumentedConstruction.dfy`: what each documented step keeps, and the whole. `Turns.dfy`: merging as a chain of
  turns. `DocumentedGenerator.dfy`: the methods, on the same class. `MergeOrder.dfy`: an input on which the order of
  merging decides.
- Job engine. `Engine.dfy`: readiness. `SyncEngine.dfy`: the run with a restarter that completes at once, as mutually
  recursive methods. `AsyncEngine.dfy`, `AsyncScheduler.dfy`: a state machine over completions and timeouts, and the
  methods that take its steps. `CodeEngine.dfy`, `DoubleStarts.dfy`: the same without marking jobs as running.
  `Enqueue.dfy`, `GraphEnqueue.dfy`: generator and engine together, and both on the object graph.

"a waits for b" means throughout: the object of a has an After edge to the object of b, and the current type of b's
job is neither stop nor restart.

## Where the code departs from its documentation

- `verify_acyclic` has a label `restart` and no jump to it. One pass can return true with a cycle left
  (`SinglePass.OnePassIsNotEnough`). It is enough, whatever the order of the objects, if every object on a cycle has
  only one After edge that leads to a cycle (`OneWayRound.OnePassIsEnoughIf`); beyond that the outcome turns on the
  order of objects and edges, and the exact condition is on the result: searching again, from just the objects at
  which something was removed, finds nothing (`Plans.PassLeavesAcyclicIff`).
- `get_del_list` returns before its loop over requiring jobs, so a deletion takes no other job along. That agrees
  with the documentation exactly when no job outside requires a deleted one (`Cascade.CodeMeetsCascadeIff`), and only
  then does every job that is left have what it requires (`Construction.NeedsAreMetIff`; it need not,
  `LostNeed.NeedIsLost`). The documented cascade spares the goal exactly when flags are closed under required
  requirements (`Cascade.CascadeSparesGoalIff`).
- A job first wanted and later required by the goal is flagged, but the flag is not passed on
  (`LateFlag.FlaggedTooLate`), and merging does not pass it on either (`MergedAway.FlagNotPassedOn`). After submission
  flags are exact if no job other than the goal that the goal requires, and that requires others, is merely wanted
  anywhere (`EarlyFlag.FlagsExactIfNeverMerelyWanted`);
  beyond that it turns on the order of the edges, and the exact condition, on what was marked late, is
  `GoalFlags.SubmittedFlagsExactIff`. For merging it is `GoalFlags.MergingKeepsPropagatedIff`.
- The merged job type is computed and dropped (`MergeTheorems.MergedTypeIsLost`). Of all lists that `job_submit` can
  leave on an object, only a verify job followed by a start job keeps its merged type
  (`MergedTypes.TypeKeptIffVerifyThenStart`). Nor is the objective redirected when its job is merged away
  (`MergedAway.ObjectiveMergedAway`), which it is unless it is a stop or no other job but a stop is left on its object
  (`MergedTypes.SubmittedObjectiveStaysIff`).
- `job_run` does not mark a job as running. With a restarter that completes at once that is harmless. With one that
  completes later a job can be started while it is running (`AsyncEngine.StartedTwice`). Of transactions whose After
  graph is acyclic, `DoubleStarts.NoDoubleStartIff` says on which this never happens: no job is ordered after a stop or
  restart job, and a follower listed more than once after a job is also ordered after a later one. The asynchronous
  model marks jobs as running, as the documentation of the states has it.
- An edge owned by a placeholder's own name stays with the placeholder when the object is loaded, and is lost
  (`LoadOrder.OwnEdgeIsLost`); agreement survives a load exactly when there is none (`ObjectGraph.LoadKeepsIff`).
  Edges that come from loads are never lost (`LoadOrder.LoadsKeepAgreement`).

`DocumentedGenerator.dfy` has none of these departures in the generator: a deletion takes along, transitively, what
requires the deleted jobs; flags are passed on after submission and after each merge of two jobs; a merge stores its
type and redirects the objective; the search for cycles starts again after each removal. Whether this fails on a cycle
is settled by graph and goal (`GoalOrdered`). Whether it fails in merging is settled by them only in part: it does if
the goal requires an object both stopped and not, and does not unless the goal does so through what merging makes it
require; in between, the order in which the map holds the objects decides (`MergeOrder.OrderDecides`).

## Model

| member | source | states |
|---|---|---|
| ObjectGraph.GetKeeps | cmd/schedulerd/scheduler/scheduler.cc:207-217 | looking a name up, making a placeholder if it is unknown, keeps names and edge lists in agreement |
| ObjectGraph.AddEdgeKeeps | cmd/schedulerd/scheduler/scheduler.cc:57-68 | an added edge is listed once, last, in `edges` of the object its `from` resolves to and in `edges_to` of the other; nothing else moves |
| ObjectGraph.AbsorbIs | cmd/schedulerd/scheduler/scheduler.cc:219-259 | after the first loop of a load the new object lists exactly the edges the replaced placeholders did not own, each once, and other names and objects are as before |
| ObjectGraph.AbsorbMoves | cmd/schedulerd/scheduler/scheduler.cc:219-259 | whatever the aliases were bound to, loaded objects included: each object that loses a name keeps just the edges it owns, the new one gets all their others, and no other list changes |
| ObjectGraph.OwnedInOrder | cmd/schedulerd/scheduler/scheduler.cc:219-239 | the edges kept and those moved stay in list order |
| ObjectGraph.LoadKeepsIff | cmd/schedulerd/scheduler/scheduler.cc:219-273 | a load over placeholders keeps the indexes in agreement if and only if no edge at a replaced placeholder is owned by the placeholder's own name |
| LoadOrder.LoadsKeepAgreement | cmd/schedulerd/scheduler/scheduler.cc:241-273 | while every edge is owned by a loaded object, a load over placeholders keeps agreement, and keeps that condition |
| LoadOrder.OwnEdgeIsLost | cmd/schedulerd/scheduler/scheduler.cc:224-230 | some agreeing graph and load of a placeholder break agreement |
| LoadOrder.ChangesKeep | cmd/schedulerd/scheduler/scheduler.cc:57-68 | over any interleaving of added edges and loads of unbound or placeholder names, each placeholder having no edge owned by its own name when it is replaced, the indexes agree, and the edges are exactly those declared, with multiplicity |
| LoadOrder.LoadAllIs | cmd/schedulerd/scheduler/scheduler.cc:207-273 | loads of objects that share no alias and are not loaded make of any agreeing graph, whose edges come from loads, the one described: its names and those mentioned, one object per alias set, and as edges its own and those declared, with multiplicity |
| LoadOrder.ListsHoldDeclared | cmd/schedulerd/scheduler/object.h:196-201 | each object lists each declared edge as often as it was declared if the edge's end resolves to it, and not at all otherwise |
| LoadOrder.OrderDoesNotMatter | cmd/schedulerd/scheduler/scheduler.cc:241-273 | any permutation of such loads, on any such graph, gives the same graph up to which object is which |
| LoadOrder.LoadKeepsQueue | cmd/schedulerd/scheduler/scheduler.cc:207-217 | a load queues each name at most once, only as it is bound, unbinds none, and leaves no placeholder unqueued |
| LoadOrder.LoadDeclares | cmd/schedulerd/scheduler/scheduler.cc:266-272 | a load adds, in order, the edges declared from the object and then those to it, with their kinds, each owned by the object |
| LoadQueue.QueueShrinks | cmd/schedulerd/scheduler/scheduler.cc:29-37 | one step of the queue loop binds a name of the universe not bound before, or queues nothing |
| LoadQueue.DrainKeeps | cmd/schedulerd/scheduler/scheduler.cc:29-37 | if what the loader declares shares no alias and was not loaded before, the graph left is in agreement and exactly the declared aliases have become loaded |
| GraphScheduler.Scheduler.ObjectGet | cmd/schedulerd/scheduler/scheduler.cc:207-217 | the method is `Get` on the graph state; the result is the object the name is bound to |
| GraphScheduler.Scheduler.EdgeAdd | cmd/schedulerd/scheduler/scheduler.cc:57-68 | the method is `AddEdge` on the graph state |
| GraphScheduler.Scheduler.ObjectRemapUnownedEdges | cmd/schedulerd/scheduler/scheduler.cc:219-239 | each list keeps the owned edges and the other object's list gets the rest, both in order |
| GraphScheduler.Scheduler.ObjectLoad | cmd/schedulerd/scheduler/scheduler.cc:241-273 | the method is `Load` on the graph state; the edges it adds are those declared, in order, each from or to the object and owned by it |
| GraphScheduler.Scheduler.DispatchLoadQueue | cmd/schedulerd/scheduler/scheduler.cc:29-37 | for any loader that stays within a finite universe the loop ends, having asked for each queued name once, in order; every placeholder's name has been asked for |
| Outline.OutlineIsFit | cmd/schedulerd/scheduler/object.h:196-201 | in an agreeing graph every edge leads to an object of the graph, and `edges_to` mirrors `edges` |
| Outline.LookupByAlias | cmd/schedulerd/scheduler/scheduler.cc:23-27 | a name is among an object's aliases exactly when the name index binds it to that object |
| GraphEnqueue.OrderIsDeclared | cmd/schedulerd/scheduler/scheduler.cc:93-117 | a start is in order with respect to the edge lists exactly when it is with respect to the After edges declared, by whatever names |
| GraphEnqueue.ChangedGraphIsFit | cmd/schedulerd/scheduler/scheduler.cc:57-68 | after any interleaving of added edges and careful loads the graph is one that transactions can be enqueued on |
| GraphEnqueue.TxEnqueueOnGraph | cmd/schedulerd/scheduler/scheduler.cc:142-151 | on such a graph, as documented, an accepted transaction is run to success, each job by its merged type; at each start every job on an object the declared After edges lead to had succeeded or was a stop or restart job |
| Closure.VisitsAreMatchingEdges | cmd/schedulerd/scheduler/txgen.cc:464-485 | a new job asks for exactly the jobs that its edge rules and the edges of its object match |
| VisitLists.VisitsByType | cmd/schedulerd/scheduler/txgen.cc:464-485 | of each of the ten job types, exactly which job types it asks for along which edge kinds, and whether it requires them |
| VisitLists.VisitsInOrder | cmd/schedulerd/scheduler/txgen.cc:464-485 | of each of the ten job types, the sweeps it makes, in order |
| VisitLists.ClosedByType | cmd/schedulerd/scheduler/txgen.cc:431-488 | so closure under the visits is closure under those edge kinds and job types |
| Closure.ReachableClosedIsLeast | cmd/schedulerd/scheduler/txgen.cc:431-488 | a set closed under the edge rules and reachable from the goal is the least closed set |
| TransactionGenerator.Transaction.AddReq | cmd/schedulerd/scheduler/txgen.cc:34-42 | one requirement is added and the two indexes still agree, self-requirements included |
| TransactionGenerator.Transaction.VisitEdge | cmd/schedulerd/scheduler/txgen.cc:406-416 | a matching edge adds the job it asks for and one requirement on it, whose goal bit is the requirer's flag and the required bit |
| TransactionGenerator.Transaction.VisitEdges | cmd/schedulerd/scheduler/object.h:225-231 | one sweep over the edges makes one such visit per matching edge, in list order |
| TransactionGenerator.Transaction.JobSubmit | cmd/schedulerd/scheduler/txgen.cc:431-488 | ends on every finite graph, cyclic or not; does exactly what `JobSubmit.Submit` says; adds only jobs the submitted one asks for, each with all its requirements; flags only what it requires |
| GoalFlags.SubmittedFromNothing | cmd/schedulerd/scheduler/txgen.cc:7-10 | after the objective is submitted the jobs are the least closed set, each has one requirement per matching edge visit, and flagged jobs are required by the goal through required requirements |
| GoalFlags.GeneratedFlagsSound | cmd/schedulerd/scheduler/txgen.cc:406-462 | as written, every flagged job is reached from the objective through required requirements |
| GoalFlags.ExactIffPropagated | cmd/schedulerd/scheduler/scheduler.h:120 | sound flags mean reachability exactly when they are closed under required requirements |
| GoalFlags.SubmittedFlagsExactIff | cmd/schedulerd/scheduler/txgen.cc:458-462 | whatever the order of the edges, the flags `job_submit` leaves are exact if and only if no job it flagged after its expansion requires an unflagged one |
| GoalFlags.SubmittedGoalBitsExactIff | cmd/schedulerd/scheduler/txgen.cc:410-414 | whatever the order of the edges, each requirement's goal bit is its required bit and its requirer's flag, if and only if no job flagged late has a required visit |
| JobSubmit.SubmitDoes | cmd/schedulerd/scheduler/txgen.cc:431-488 | the recursive function that `job_submit` equals adds only jobs asked for, each with its requirements, flags only what is required, and keeps flags and bits consistent |
| EarlyFlag.FlagsExactIfNeverMerelyWanted | cmd/schedulerd/scheduler/txgen.cc:458-462 | flags and goal bits are exact if no job, the goal apart, that the goal requires and that requires others is asked for by a non-required visit, or by a job the goal does not require |
| EarlyFlag.LateIsMerelyWanted | cmd/schedulerd/scheduler/txgen.cc:458-462 | the graph with a late flag is one where such a job is merely wanted |
| EarlyFlag.RequiredFirst | cmd/schedulerd/scheduler/txgen.cc:464-475 | that condition is not necessary: a graph where such a job is also merely wanted, and flags and goal bits are exact |
| LateFlag.FlaggedTooLate | cmd/schedulerd/scheduler/txgen.cc:458-462 | a graph on which flags and goal bits come out inexact, and on which the documented cascade would take a goal-required job along |
| GoalFlags.DeletionKeepsExact | cmd/schedulerd/scheduler/txgen.cc:89-111 | exact flags stay exact when unflagged jobs are deleted |
| GoalFlags.MergingKeepsSound | cmd/schedulerd/scheduler/txgen.cc:287-307 | with flags passed on, after merging every flagged job is needed by the job the objective was merged into |
| GoalFlags.MergingKeepsPropagatedIff | cmd/schedulerd/scheduler/txgen.cc:303-304 | merging as written keeps flags closed exactly when each surviving required requirement of a group with a flagged job leads to a group with one |
| MergedAway.FlagNotPassedOn | cmd/schedulerd/scheduler/txgen.cc:303-304 | a graph whose submitted transaction has its flags passed on, and has not once it is merged |
| TransactionGenerator.Transaction.RepairFlags | cmd/schedulerd/scheduler/scheduler.h:95 | the documented flags: propagation ends, changes nothing but flags, and makes flags closed and goal bits exact |
| TransactionGenerator.Transaction.DelReq | cmd/schedulerd/scheduler/txgen.cc:44-55 | a requirement that is there leaves both indexes; otherwise nothing changes and its absence is reported |
| TransactionGenerator.Transaction.DestroyJob | cmd/schedulerd/scheduler/txgen.cc:19-32 | a destroyed job takes with it exactly the requirements it has and those on it; the indexes agree again |
| TransactionGenerator.Transaction.GetDelList | cmd/schedulerd/scheduler/txgen.cc:66-87 | as written: the job moves to the list unless it is on it, and no other job follows |
| TransactionGenerator.Transaction.ObjectDelJobs | cmd/schedulerd/scheduler/txgen.cc:89-111 | the object's jobs go, with exactly the requirements they have and those on them |
| Cascade.CodeMeetsCascadeIff | cmd/schedulerd/scheduler/txgen.cc:66-87 | the code deletes the documented upward cascade if and only if no job outside the deleted ones requires one of them |
| Cascade.CascadeSparesGoalIff | cmd/schedulerd/scheduler/scheduler.h:215-219 | the documented cascade never reaches a flagged job from an unflagged one if and only if flags are closed under required requirements |
| Cascade.UnessentialDeletionSparesGoal | cmd/schedulerd/scheduler/txgen.cc:194-238 | with flags passed on, the upward cascade of an object without an essential job holds no goal-required job |
| Construction.NeedsAreMetIff | cmd/schedulerd/scheduler/txgen.cc:66-87 | as written, every job left after all phases has all it requires if and only if the jobs deleted are all that the documented cascade would have deleted with them |
| Construction.FlaggedNeedsAreMet | cmd/schedulerd/scheduler/txgen.cc:7-17 | as written, where flags were passed on, no flagged job loses what it requires |
| LostNeed.NeedIsLost | cmd/schedulerd/scheduler/txgen.cc:66-87 | a graph on which submission and the pass leave a job whose required requirement is gone |
| Plans.DeleteUnessential | cmd/schedulerd/scheduler/txgen.cc:194-218 | deleting an object's jobs when none is essential removes no flagged job and leaves every flag backed |
| Ordering.SearchExact | cmd/schedulerd/scheduler/txgen.cc:151-192 | the search finds a path exactly when some After walk from the origin revisits an object; the path found extends the given one by a simple walk whose last object has an edge back into it |
| Ordering.SearchTakesFirst | cmd/schedulerd/scheduler/txgen.cc:151-192 | of the After edges to objects with jobs the search follows the first, in list order, from which it finds something |
| TransactionGenerator.Transaction.ObjectCreatesCycle | cmd/schedulerd/scheduler/txgen.cc:176-192 | the method is that search; the path is restored when there is no cycle |
| TransactionGenerator.Transaction.ObjectRequiresAllJobs | cmd/schedulerd/scheduler/txgen.cc:194-218 | true exactly when some job of the object is the objective or has a goal-required requirement on it |
| TransactionGenerator.Transaction.TryRemoveCycle | cmd/schedulerd/scheduler/txgen.cc:220-238 | the last object of the path that is not essential loses its jobs; nothing changes when there is none, and only then |
| Plans.TryRemoveDeletesLast | cmd/schedulerd/scheduler/txgen.cc:220-238 | a removal fails exactly when all objects of the path are essential, and otherwise deletes just the last that is not |
| Plans.PassRemovesForCycles | cmd/schedulerd/scheduler/txgen.cc:240-257 | a pass removes nothing but, step by step, the last unessential object of a cycle it has just found |
| Plans.PassPrunes | cmd/schedulerd/scheduler/txgen.cc:240-257 | a pass deletes whole objects' jobs only, and never a flagged job |
| Plans.PassFailsOnEssentialCycle | cmd/schedulerd/scheduler/txgen.cc:252-254 | as written, false means there is an After cycle of essential objects only |
| Plans.PassIdleIffAcyclic | cmd/schedulerd/scheduler/txgen.cc:240-257 | a pass returns true without deleting anything if and only if the After graph is acyclic |
| Plans.PassLeavesAcyclicIff | cmd/schedulerd/scheduler/txgen.cc:240-257 | when the single pass returns true, the result is acyclic if and only if searching again from the objects that led to a removal finds nothing |
| Plans.PrunedSameEssentialCycles | cmd/schedulerd/scheduler/txgen.cc:240-257 | pruning neither breaks nor makes a cycle of essential objects, so a pass given one cannot leave the After graph acyclic |
| OneWayRound.OnePassIsEnoughIf | cmd/schedulerd/scheduler/txgen.cc:240-257 | if every object on a cycle has only one After edge that leads to a cycle, true from a pass in any order means acyclic |
| SinglePass.OnePassIsNotEnough | cmd/schedulerd/scheduler/txgen.cc:243-256 | a graph whose submitted transaction the pass answers with true, leaving a cycle |
| SinglePass.TwoWays | cmd/schedulerd/scheduler/txgen.cc:243-256 | in that graph an object on a cycle has two After edges that lead to one |
| SinglePass.TwoWaysCanBeFine | cmd/schedulerd/scheduler/txgen.cc:240-257 | that condition is not necessary: a transaction with two ways on which the pass, in any order, leaves no cycle |
| TransactionGenerator.Transaction.VerifyPass | cmd/schedulerd/scheduler/txgen.cc:240-257 | the method is one pass over the objects, in whatever order the map holds them; what it removes it removes to break a cycle it found; it fails only on a transaction that had a cycle of essential objects from the start |
| Merging.InvalidIffOneStops | cmd/schedulerd/scheduler/txgen.cc:259-285 | a merge is invalid exactly when one side is a stop and the other is not; non-stops are closed under it; it is symmetric |
| Merging.MatrixInWords | cmd/schedulerd/scheduler/txgen.cc:259-285 | the merged type of any two different types that are not stops, said as precedences between them |
| MergeTheorems.MergeGroupIsQuotient | cmd/schedulerd/scheduler/txgen.cc:309-359 | the loop on a group fails exactly when a goal-required stop and another goal-required job meet, and otherwise is the quotient onto the survivor |
| MergeTheorems.MergeAllIsQuotient | cmd/schedulerd/scheduler/txgen.cc:361-378 | over all groups, in any order: merging fails exactly on a conflict, and otherwise is the quotient that sends each kept job to its object's survivor |
| MergeTheorems.MergedRequirements | cmd/schedulerd/scheduler/txgen.cc:287-307 | a requirement is left exactly when both its ends are kept; it then runs between their survivors, with required and goal bits as they were |
| MergeTheorems.OneJobLeft | cmd/schedulerd/scheduler/txgen.cc:309-359 | one job is left per group, flagged exactly when some job of the group was |
| MergeTheorems.FlaggedIsKept | cmd/schedulerd/scheduler/txgen.cc:319-342 | no goal-required job is deleted as a conflict |
| MergeTheorems.StopSurvivesIffFlagged | cmd/schedulerd/scheduler/txgen.cc:319-342 | a stop among other jobs survives exactly when it is goal-required |
| MergeTheorems.OrderDoesNotMatter | cmd/schedulerd/scheduler/txgen.cc:309-359 | failure and which jobs are kept do not depend on the order of the list |
| MergeTheorems.MergingKeepsAfterGraph | cmd/schedulerd/scheduler/txgen.cc:361-378 | merging leaves the After graph as it was, so acyclicity survives |
| MergeTheorems.MergedTypeIsLost | cmd/schedulerd/scheduler/txgen.cc:348-354 | a restart and a start job, in this order, leave a start job although the matrix says restart |
| MergedTypes.SubmittedTypes | cmd/schedulerd/scheduler/txgen.cc:464-485 | which types of job a goal of each type can lead to |
| MergedTypes.LastHasMergedType | cmd/schedulerd/scheduler/txgen.cc:259-273 | of the lists these allow, with two or more jobs and no stop, only verify, start has the merged type in its last job |
| MergedTypes.TypeKeptIffVerifyThenStart | cmd/schedulerd/scheduler/txgen.cc:348-354 | of the jobs submitted on an object, where no stop wins and two or more others are left, the survivor has the type the matrix gives if and only if they are a verify and then a start job |
| MergedTypes.SubmittedObjectiveStaysIff | cmd/schedulerd/scheduler/txgen.cc:348-354 | where merging succeeds, the objective is still a job of the transaction if and only if it is a stop or, as submitted, no other job but a stop is on its object |
| MergedAway.ObjectiveMergedAway | cmd/schedulerd/scheduler/txgen.cc:348-354 | a graph on which the objective is merged away |
| TransactionGenerator.Transaction.MergeJobInto | cmd/schedulerd/scheduler/txgen.cc:287-307 | the job's requirements both ways, self-requirements included, become the other's; flags are joined; the indexes agree |
| TransactionGenerator.Transaction.MergeGroupOf | cmd/schedulerd/scheduler/txgen.cc:309-359 | the method is the loop on a group |
| TransactionGenerator.Transaction.MergeJobs | cmd/schedulerd/scheduler/txgen.cc:361-378 | succeeds exactly when no group conflicts, and then is the quotient, in whatever order the map holds the groups |
| Construction.PhasesGiveGoodOrder | cmd/schedulerd/scheduler/txgen.cc:7-17 | through all phases: at most one job per object, a flagged job on the goal's object, every job asked for by the goal, requirements between surviving jobs only |
| Construction.AcceptedByTheCode | cmd/schedulerd/scheduler/txgen.cc:7-17 | whatever the code accepts is in that order; it is acyclic if the submitted After graph is one way, is not if that has a cycle of essential objects, and is if and only if the recheck is idle |
| TransactionGenerator.Transaction.Generate | cmd/schedulerd/scheduler/txgen.cc:7-17 | the phases as the code makes them; a failure means a cycle of essential objects among those submitted, or a goal that requires an object both stopped and not |
| Cascading.CascadeTrims | cmd/schedulerd/scheduler/scheduler.h:183-185 | with flags passed on, the documented deletion of unflagged jobs loses no flagged job, and no job that is left loses one it requires |
| Documented.TrimKeepsSane | cmd/schedulerd/scheduler/scheduler.h:215-219 | through such deletions flags and goal bits stay exact |
| Documented.TrimKeepsEssentialCycles | cmd/schedulerd/scheduler/scheduler.h:187-201 | and a cycle of essential objects is neither broken nor made |
| Documented.MergeKeepsSound | cmd/schedulerd/scheduler/txgen.cc:287-307 | merging two jobs and redirecting the objective leaves every flag on a job the objective needs |
| Documented.MergeCarries | cmd/schedulerd/scheduler/txgen.cc:287-307 | such a merge keeps the correspondence with the submitted jobs: same requirements between images, needs met, flagged jobs and objective left |
| Documented.MergeTyped | cmd/schedulerd/scheduler/scheduler.h:158-162 | with the merged type stored, each job's type stays the one the matrix gives along the submitted jobs merged into it, in list order |
| DocumentedConstruction.EssentialCycleIff | cmd/schedulerd/scheduler/scheduler.h:187-201 | an unbreakable cycle is there if and only if the After edges between objects on which the goal requires jobs have a cycle |
| DocumentedConstruction.AcceptedAsDocumented | cmd/schedulerd/scheduler/txgen.cc:7-17 | documented rules, all at once: acyclic, one job per object, every required requirement of a job that is left is there between what its ends were merged into, nothing the goal requires is lost, flags and goal bits exact, each type the merged one, the objective the goal object's job; and the goal required no object both stopped and not |
| DocumentedGenerator.GetDelList | cmd/schedulerd/scheduler/scheduler.h:183-185 | the documented recursion ends and gathers exactly the job and, transitively, what requires it, each off its list |
| DocumentedGenerator.DeleteWithRequirers | cmd/schedulerd/scheduler/scheduler.h:215-219 | the method is the documented deletion, indexes agreeing |
| DocumentedGenerator.TryRemoveCycle | cmd/schedulerd/scheduler/scheduler.h:187-194 | the last unessential object of the path loses its jobs, with what requires them; no flagged job goes |
| DocumentedGenerator.VerifyAcyclic | cmd/schedulerd/scheduler/scheduler.h:195-201 | ends; every deletion on the way is of the last unessential object of a cycle just found, with what requires its jobs, so an acyclic transaction is left as it is; true means acyclic; false if and only if the transaction it was given had a cycle of essential objects |
| DocumentedGenerator.MergeGroupOf | cmd/schedulerd/scheduler/txgen.cc:309-359 | at most one job is left; each turn merges the first two jobs, or, if just one of them is a stop, deletes one of them with what requires it: the stop unless that is goal-required; so where there is no stop beside another job none is lost; failure means that the goal, through what it requires and what merging makes it require, wants the object stopped and not |
| DocumentedGenerator.MergeJobs | cmd/schedulerd/scheduler/txgen.cc:361-378 | the same over all objects, in any order: where no object has a stop beside another job it succeeds, none is lost, and each object keeps one job |
| Turns.LostAreDropped | cmd/schedulerd/scheduler/txgen.cc:319-354 | through any turns, a job is lost only as one of a stop and another job on an object, or as one that then required such a job through a chain |
| Turns.UnmixedLoseNobody | cmd/schedulerd/scheduler/txgen.cc:348-354 | turns on objects without a stop beside another job lose none and leave each object that had a job with one |
| DocumentedGenerator.Generate | cmd/schedulerd/scheduler/txgen.cc:7-17 | the whole documented construction, from any goal on any graph: what it accepts is as above, and came about by such removals and turns; if what is submitted has no ordering cycle and no stop beside another job it is accepted and every submitted job is left or merged; it fails as cyclic if and only if graph and goal say so, and it never accepts a contradictory goal |
| MergeOrder.OrderDecides | cmd/schedulerd/scheduler/txgen.cc:361-378 | a graph on which the documented merging fails if one object is merged first and succeeds if another is |
| Engine.JobRunnable | cmd/schedulerd/scheduler/scheduler.cc:93-117 | true exactly when the job is awaiting and every job on an object it follows is a stop job, a restart job, or has succeeded |
| Engine.SuccessReleases | cmd/schedulerd/scheduler/scheduler.cc:181-202 | a success makes ready, at most, jobs on objects that follow the job's object |
| Engine.ConversionReleasesNobody | cmd/schedulerd/scheduler/scheduler.cc:164-172 | a restart job that becomes a start job makes no other job ready |
| SyncEngine.WaitsForAnother | cmd/schedulerd/scheduler/scheduler.cc:93-117 | where no restart job is ordered after itself, at any point of the run, an awaiting job that may not run waits, already by the initial types, for a job that has yet to succeed |
| SyncEngine.Scheduler.JobRun | cmd/schedulerd/scheduler/scheduler.cc:70-82 | the recursion through the restarter ends; afterwards the job is not ready, no other has become ready, and nothing is running |
| SyncEngine.Scheduler.JobSucceeded | cmd/schedulerd/scheduler/scheduler.cc:153-205 | the same for a completion with success, with the conversion of restart jobs and the waking of followers |
| SyncEngine.Scheduler.Start | cmd/schedulerd/restarters/restarter.cc:3-9 | the restarter's `start` completes the job before it returns |
| SyncEngine.Scheduler.TxEnqueueLeaves | cmd/schedulerd/scheduler/scheduler.cc:119-140 | afterwards nothing is running, no job may run, and each job has a number of its own, the one it had if it had one |
| SyncEngine.Scheduler.TxEnqueue | cmd/schedulerd/scheduler/scheduler.cc:142-151 | every job succeeds if and only if the initial waits have no cycle; what succeeded was started once, a restart job twice, the second time as a start; at each start every job on an object that is followed had succeeded or was a stop or restart job |
| SyncEngine.InOrderMeans | cmd/schedulerd/scheduler/scheduler.cc:93-117 | told by the log alone: by the time of a start each job on an object that is followed, stops apart, had been started; a restart job twice or not at all |
| AsyncEngine.CompleteKeepsInvariant | cmd/schedulerd/scheduler/scheduler.cc:153-205 | a completion of any kind keeps: ids map to exactly the running jobs, each with an armed timer, and no awaiting job may run |
| AsyncEngine.CompletionStartsReady | cmd/schedulerd/scheduler/scheduler.cc:153-205 | a completion records the ending reported, a restart job that succeeded becoming an awaiting start job, then starts exactly the jobs that may run, and changes nothing else |
| AsyncEngine.InvariantThroughout | cmd/schedulerd/scheduler/scheduler.cc:84-140 | so after any interleaving of completions, failures and timeouts no wake-up is lost |
| AsyncEngine.FailureIsolated | cmd/schedulerd/scheduler/scheduler.cc:84-117 | in every continuation, no unstarted job that waits through a chain for one that ended badly is started, restarts turning into starts notwithstanding |
| AsyncEngine.QuietMeansSettled | cmd/schedulerd/scheduler/scheduler.cc:181-202 | if the After edges among jobs have no cycle, then when nothing is running each job succeeded, ended badly, or waits through a chain for one that did |
| AsyncEngine.StartsAreBounded | cmd/schedulerd/scheduler/scheduler.cc:70-82 | however the run goes, further starts number at most the awaiting jobs plus the unconverted restart jobs |
| AsyncEngine.UnmarkedStartsSameIff | cmd/schedulerd/scheduler/scheduler.cc:188-202 | the wake-up loop as written starts the jobs it should if and only if no entry of the list that is released occurs twice or is running already |
| AsyncEngine.StartedTwice | cmd/schedulerd/scheduler/scheduler.cc:188-202 | a follower with two After edges is started twice |
| CodeEngine.CleanStep | cmd/schedulerd/scheduler/scheduler.cc:153-205 | an event of the engine as written starts no job twice and none that is running if and only if the list of followers gives no cause to, and then does what the engine that marks jobs does |
| DoubleStarts.NeverStartedTwice | cmd/schedulerd/scheduler/scheduler.cc:70-82 | where no job is ordered after a stop or restart job, and each listed more than once after a job is ordered after a later one, no sequence of completions, failures and timeouts starts a job while it is running |
| DoubleStarts.UnsteadyStartsTwice | cmd/schedulerd/scheduler/scheduler.cc:188-202 | a job ordered after a stop or restart job is started again in some run |
| DoubleStarts.UncoveredStartsTwice | cmd/schedulerd/scheduler/scheduler.cc:188-202 | so is one listed more than once after the last job it waits for |
| DoubleStarts.NoDoubleStartIff | cmd/schedulerd/scheduler/scheduler.cc:70-82 | for transactions with an acyclic After graph, no run of the engine as written starts a job while it is running if and only if both conditions hold |
| AsyncScheduler.Scheduler.JobComplete | cmd/schedulerd/scheduler/scheduler.cc:153-205 | the method is the completion step of the state machine |
| AsyncScheduler.Scheduler.JobTimeoutCb | cmd/schedulerd/scheduler/scheduler.cc:84-91 | the method is the timeout step of the state machine |
| AsyncScheduler.Scheduler.TxEnqueueLeaves | cmd/schedulerd/scheduler/scheduler.cc:119-140 | gives every job a number of its own and establishes the invariant; what has been started waits for nothing |
| Enqueue.AcyclicTransactionRuns | cmd/schedulerd/scheduler/scheduler.cc:142-151 | a transaction whose After graph is acyclic has no circular waits |
| Enqueue.AcyclicTransactionSettles | cmd/schedulerd/scheduler/scheduler.cc:142-151 | nor can it keep the asynchronous engine from settling |
| Enqueue.TxEnqueue | cmd/schedulerd/scheduler/scheduler.cc:142-151 | as written: the jobs run are those of the accepted transaction, which is in good order; what succeeded was started as the type listed, a restart once more as a start; all succeed if and only if the initial waits have no cycle, and so if, as submitted, every object on a cycle has only one After edge that leads to a cycle; none starts before what it has to wait for |
| Enqueue.ConstructedServesGoal | cmd/schedulerd/scheduler/scheduler.cc:142-151 | the job left on the goal's object has the merged type of jobs of which the goal's is one |
| Enqueue.TxEnqueueDocumented | cmd/schedulerd/scheduler/scheduler.cc:142-151 | as documented: it fails as cyclic if and only if graph and goal say so; whatever is accepted serves the goal; its jobs, no more and no fewer, are all run to success, each once as its merged type and a restart once more as a start; none starts before what it has to wait for |

## Left out

- The JavaScript engine and its bindings, file access, the kqueue loop and the unit loader: a loader is any function
  from names to finite lists of declarations, a timer only whether it is armed.
- Logging, graph output and the names of types and states: output only.
- GraphScheduler.Scheduler.ObjectLoad: loading again an object that is loaded, or splitting its aliases, is modelled
  as the code does it, but agreement is claimed only for aliases that are unbound or bound to placeholders; the code
  marks the other case as open.
- GraphScheduler.Scheduler.DispatchLoadQueue: the loader's answer depends on the name alone; as each name is asked
  for once, only what the loader reads from the scheduler meanwhile is lost.
- TransactionGenerator.Transaction.JobSubmit: edge ends always resolve, which `Outline.OutlineIsFit` shows of graphs
  in agreement, so the missing object and the placeholder made meanwhile do not occur.
- Memory: a job is the pair of its object and type while a transaction is generated, a requirement the number of its
  allocation, and both live in maps of the transaction. The dangling pointer to an objective merged away is a pair no
  longer among the jobs. The job lists and sets keep the code's order where it matters and any order where the
  containers leave it open.
- The constructor of Transaction: its phases are the methods `Generate` of the class and of `DocumentedGenerator`, and
  its exceptions their outcomes.
- OneWayRound.OnePassIsEnoughIf: in one direction only; the other fails (`SinglePass.TwoWaysCanBeFine`).
- EarlyFlag.FlagsExactIfNeverMerelyWanted: in one direction only; the other fails (`EarlyFlag.RequiredFirst`).
- DoubleStarts.NoDoubleStartIff: for acyclic After graphs, as accepted transactions have them; what the code does after
  it has started a job again is not followed further.
- DocumentedGenerator.MergeGroupOf: failure in one direction only; `MergeOrder.OrderDecides` shows why.
- DocumentedGenerator.Generate: flags are passed on once submission is over and once two jobs are merged, not within
  one call of `job_submit` or `merge_job_into`; the jobs flagged are the same.
- SyncEngine.Scheduler.JobSucceeded: the completion with success, the only one the target restarter reports; the other
  results are in `AsyncScheduler.Scheduler.JobComplete`.
- SyncEngine.Scheduler.TxEnqueueLeaves: objects left without jobs are not in the map; the code looks at the front of
  their empty lists before it tests for emptiness.
- AsyncEngine.InvariantThroughout: jobs are marked as running when run, which the code leaves out; what follows from
  leaving it out is `DoubleStarts.NoDoubleStartIff`.
- Cancelling the dependents of a failed job and collecting jobs wanted only by a deleted one: the code marks both as
  to be done; dependents simply never start.
- More than one transaction: only the first in the queue is ever used.
- Before edges as a source of ordering, and the event-driven edges: no part of this code consults them.
- Stops waiting in reverse order: the code only releases the other side.
- Independence of the merged type from the order of merging: false of the matrix.
- Object states, and the restarter's `stop`, which the engine never calls.

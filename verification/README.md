# McMini, verified

McMini is a stateless model checker for C programs with threads. It runs a
program under its control, records every visible operation as a transition,
and uses dynamic partial order reduction (Flanagan and Godefroid, POPL 2005)
with sleep sets to decide which other interleavings to try. This project models
its engine, the object models the engine reasons over, and the protocol by
which it drives the traced program, and proves what they are there for.

Run `dafny verify dfyconfig.toml` to check everything.

## How the model is laid out

The engine is modelled twice. `Machines.dfy` defines one state of the search as
a value and each operation as a function or relation on such values (running a
thread, updating the backtrack sets, rewinding by undoing or by replaying). The
classes in `StackItems.dfy`, `McStack.dfy` and `Explorer.dfy` carry the
operations out in place, on arrays, tables and sets, with the loops of the
program, and are proved to do exactly what the values do. The properties are
proved of the values, over whole searches.

What the engine needs to know of transitions (thread, dependence,
co-enabledness, enabledness, effect, undo) is a record of functions in
`Programs.dfy` with the laws the engine relies on. `Transitions.dfy` gives the
mutex, thread and global-variable transitions and proves that they meet the
laws, so the general theorems hold of them.

- `ClockVectors`, `Chains`: clock vectors and the chains they stand for.
- `Machines`, `Obligations`, `Sleeping`, `Rewinding`, `Searches`, `Traces`,
  `Conclusions`: the engine on values, and its theorems.
- `Executions`, `Histories`, `Completeness`: the executions of the traced
  program, a search as a tree, and the proof that the search misses none.
- `Targets`, `Deadlocks`: the traced program as it answers the driver, the
  process its answers describe, and the deadlocks the driver finds.
- `StackItems`, `McStacks`, `Explorers`: the engine in place; termination.
- `Transitions`, `Effects`, `Precision`: the concrete transitions and their
  dependence relation, what a run of them comes to by its steps alone, and how
  fine the relation is.
- `WakePolicies`, `ConditionVariables`: the wake policy of condition variables,
  on values and in place. The reference is IEEE Std 1003.1-2017, System
  Interfaces, pthread_cond_signal() and pthread_cond_broadcast().
- `RwwLocks`, `RwLocks`, `Semaphores`: locks with two classes of writers, with
  one, and semaphores, each on values and in place.
- `Handshakes`: the scheduler and the traced threads as interleaved steps.
- `Livelocks`, `Limits`: the room on the transition stack.

## Where the code and its documentation differ

The model follows the code.

- Index 0 happens before everything, because a missing clock component reads as
  zero (src/MCStack.cpp:816). `Chains.ClocksAreExact` says so.
- The comments say a thread is in exactly one of a state's backtrack, done and
  sleep sets (include/MCStackItem.h:41-42). A thread that ran is in both done
  and sleep (src/MCStack.cpp:1175-1176). The discipline that does hold is in
  `Sleeping.Discipline`.
- Rewinding by undoing leaves each undone thread with the clock vector of its
  first undone transition (src/MCStack.cpp:1028-1030), not with that of its last
  kept one; `Rewinding.UndoRestoresClocksIff` says so exactly. The obligations
  are kept all the same: `Searches.UndoKeepsOwing` shows that among reversible
  transitions of well-defined calls such a vector never spoils a test that
  matters.
- A broadcast does not empty the wait queue, whatever its comment says
  (src/misc/cond/MCConditionVariableSingleGroupPolicy.cpp:10-16).
- A post and a wait, and two reader locks, are reported independent although
  one can enable the other; `Semaphores.PostEnablesPass` and
  `RwwLocks.ReaderEnablesNextReader` say exactly when.
- The relation calls a create and a join independent that are not when the
  target is already dead; `Transitions.RelationIsValid` says that is the only
  case, and creates of fresh threads exclude it.
- The relation calls initialising a mutex dependent on initialising or unlocking
  it, and co-enabled with locking or unlocking it, though no state shows why;
  `Precision.DependentIff` and `Precision.CoenabledIff` say that, with writes of
  one value, these are the only cases among mutexes and global variables.

## Assumptions

- A thread's answer is a function of the run, of what it is released at, and of
  how many threads and objects are known; it names its own next transition on
  objects that are known or told of, and there are never more than 20 threads
  (`Targets.LawfulTarget`).
- For undoing to restore objects, and to leave clock vectors that serve, the
  calls must be well defined: a mutex is initialised when undefined and unlocked
  when locked (`Transitions.Proper`). In particular mutexes are initialised
  explicitly.
- For completeness, what a thread does next depends neither on how much is
  known nor on the order of independent steps; every thread that can run was
  announced, and the objects told of are those of one program
  (`Targets.Truthful`); and whatever the program can do is well defined
  (`Executions.World.Deterministic`). `Deadlocks.Traceable` says it for the
  concrete transitions, of the answers alone.
- Execution depths and clock components are unbounded integers here; they are
  proved equal to counts and indices below 1500, so 32 bits never wrap. The
  semaphore count is kept in 32 bits.

## Model

| member | source | states |
|---|---|---|
| Searches.SearchMeetsObligations | src/MCStack.cpp:840-979 | in every search, by any mix of steps, branches, undoing and replaying, every thread's backtrack obligation is met at every prefix of the stack, although the update rescans the stack for the last runner only; the runs undone must consist of well-defined calls |
| Searches.StepKeepsOwing | src/MCStack.cpp:840-933 | running any thread and updating the backtrack sets keeps all obligations of all threads |
| Searches.ObligationOfTopMet | src/MCStack.cpp:840-979 | after the update every thread's obligation at the new top is met, including threads created in the step |
| Searches.ReplayKeepsOwing | src/MCStack.cpp:1260-1273 | rewinding by replaying keeps all obligations and restores exact clock vectors |
| Searches.CutKeepsAllOwed | src/MCStack.cpp:1242-1346 | either way of rewinding keeps the obligations of the kept prefixes |
| Searches.UndoneTestMisses | src/MCStack.cpp:1275-1289 | for transitions of any kind, at the first step after undoing: the clock test of an undone thread differs from the test by chains if and only if, in the undone run, a step of the new runner was chained to that thread's first undone step |
| Searches.StaleClockReaches | src/MCStack.cpp:1020-1031 | the clock vector left behind by an undone step reaches an index if and only if a chain of the undone run leads from there to the step |
| Searches.SearchKeepsCore | src/MCStack.cpp:1033-1346 | in every search: the two stacks agree, pending transitions round-trip, clocks are exact, the four sets of each state are disciplined, sleepers are justified, done threads were run, depths and irreversible states are counted right |
| Searches.SearchIsSound | src/MCStack.cpp:1242-1346 | in every search of well-defined calls the live objects are those of the run on the stack, and every transition on the stack was enabled when it ran |
| Searches.SearchBranchesAreEnabled | src/mcmini_private.cpp:279-293 | every thread taken from a backtrack set is enabled in the state it is run from, which the driver does not check |
| Searches.RewindUndoesRuns | src/MCStack.cpp:1291-1336 | however many steps were run from a state, rewinding to it restores the stack, what every thread was about to do, and the objects |
| Searches.RewindKeepsCore | src/MCStack.cpp:1242-1346 | popping a thread and rewinding keeps the core invariants, with that thread excused from the done-is-asleep rule until it runs |
| Searches.RewindKeepsSound | src/MCStack.cpp:1258-1289 | popping a thread and rewinding leaves the objects of the kept run, always after a replay, after undoing when the run was well defined |
| Searches.UpdateKeepsCore | src/MCStack.cpp:840-979 | the update of the backtrack sets keeps the core invariants |
| Searches.StepKeepsCore | src/MCStack.cpp:1040-1061 | a step keeps the core invariants, whatever the thread reports |
| Obligations.ClockTestsAreChainTests | src/MCStack.cpp:819-838 | for started threads the clock tests of the update decide the same as chains of dependent transitions |
| Obligations.UpdateMeetsTop | src/MCStack.cpp:840-933 | looking at the other threads against the top only, and at the runner down to its first conflict, meets the obligation of each |
| Obligations.UpdateOnlyAdds | src/MCStack.cpp:937-979 | the update takes nothing out and changes the backtrack sets only of the state the last transition departs from and of the one where the runner's last conflict is; every thread it adds is enabled and awake there and leads, by a chain, to a thread whose last conflict that state holds and whose call was not met yet, or nothing leads to that thread; and where something leads to each of them it adds no more threads than there are such calls |
| Searches.SearchIsSparing | src/MCStack.cpp:937-979 | the same of every move of every search that undoes well-defined runs only: what is in a backtrack set was called for when it was added |
| Obligations.ProcessedIsSparing | src/MCStack.cpp:950-976 | looking at one thread at one state adds nothing where the set already serves it, one candidate where there are any, and otherwise every thread awake and enabled |
| Obligations.StepKeepsThreadClocks | src/MCStack.cpp:1138-1189 | a step leaves every thread with the clock vector of its last transition |
| Conclusions.NothingIsOwed | src/MCStack.cpp:840-979 | in every search that undoes well-defined calls only, if a state with an empty backtrack set holds the last transition in conflict with a thread, everything enabled there was already run from it or an ancestor in an equivalent run |
| Searches.UndoKeepsOwing | src/MCStack.cpp:1274-1289 | rewinding by undoing a well-defined run keeps all obligations, and leaves clock vectors that serve for all tests to come |
| Searches.UndoKeepsSafe | src/MCStack.cpp:1020-1031 | after undoing, each thread's clock vector is exact, or its pending transition conflicts with nothing, or the vector knows no other thread's transition at or after any state undoing can reach |
| Searches.OrderedIsQuiet | src/MCStack.cpp:1020-1031 | in a well-defined run, an undoable step that depends on an earlier undoable step of another thread conflicts with nothing |
| Searches.ReplayingKeepsThreadClocks | src/MCStack.cpp:1007-1018 | in a search that only replays, every thread that has run carries the clock vector of its last transition |
| Obligations.TopTestIsChainTest | src/MCStack.cpp:890-907 | a thread that did not run makes the right test against the top transition, even with a clock vector left over from an undone run |
| Transitions.RewindIsLawful | src/MCTransition.cpp:33-39 | for mutexes, threads and global variables: in a run of reversible well-defined steps, one that depends on the first, by another thread, conflicts with nothing |
| Conclusions.ProgramMeetsObligations | src/MCStack.cpp:840-979 | for these transitions the obligations are met in every search that undoes well-defined calls only |
| Conclusions.FinishedSearchIsExhausted | src/mcmini_private.cpp:323-334 | at the end of a search every state with a conflict is done with: all that is enabled there was already run, in an equivalent run |
| Conclusions.ProgramIsExhausted | src/mcmini_private.cpp:323-334 | the same for programs of mutexes, threads and global variables |
| Completeness.EveryEndIsVisited | src/MCStack.cpp:840-979 | a search run to its end visits, in an order its trace allows, every execution that cannot go on, with the objects and pending transitions it leads to: no deadlock is missed |
| Completeness.EveryExecutionIsCovered | src/MCStack.cpp:840-979 | every execution of the traced program is performed by the search, up to the order of independent steps |
| Completeness.ProgramMissesNothing | include/MCTransition.h:413-427 | for deterministic programs of mutexes, threads and global variables with well-defined calls, any search run to its end that records what they do visits the end of every execution; what an end is, is told by Deadlocks.DeadlockIff |
| Deadlocks.DeadlockIff | src/transitions/mutex/MCMutexLock.cpp:118-139 | an execution cannot go on if and only if, by its steps alone, every thread has finished or was never created, waits for a mutex taken and not released, waits for a thread that has not finished, or is the main thread about to finish |
| Deadlocks.EveryDeadlockIsFound | src/mcmini_private.cpp:323-334 | a search run to its end has a deadlock of the same trace on its stack, for every deadlock the program can run into |
| Deadlocks.ChildrenAreTold | src/transitions/threads/MCThreadCreate.cpp:12-19 | where a report of a create makes the child known, every thread that can run is known, as only the main thread lives at the start |
| Deadlocks.AnsweredSearchFindsDeadlocks | src/mcmini_private.cpp:627-638 | every deadlock of the traced program is on the stack at some point of any search that goes by its answers and is run to its end |
| Deadlocks.BriefIsTraceable | src/mcmini_private.cpp:627-638 | what is asked of a traced program can be met |
| Targets.SearchIsTold | src/mcmini_private.cpp:627-638 | in every search that releases each thread at what it was about to do and records its answer, at every state on the stack every thread is about to do what it answered when it ran last, through any rewinding; every announced thread is known, and the objects are the program's |
| Targets.AnsweredIsFollowed | src/mcmini_private.cpp:627-638 | so it is a search of the process the answers describe: pending transitions, objects and runnable threads of every machine are those of that process |
| Targets.TracedIsDeterministic | include/MCTransition.h:413-427 | that process is deterministic where answers do not depend on the order of independent steps |
| Completeness.Reach | src/MCStack.cpp:1159-1176 | whatever can be executed from a state, without starting with a thread asleep there, is covered while the state is on the stack |
| Completeness.Reversal | src/MCStack.cpp:937-979 | where a step conflicts with what a thread is left about to do, a thread that leads to it, or every awake thread, is run from that state too |
| Completeness.LastConflictOfRealized | src/MCStack.cpp:819-838 | a step stays the last one in conflict with a thread as long as only steps ordered before the thread, or harmless to it, follow |
| Completeness.LoneSearchIsFull | src/mcmini_private.cpp:323-334 | the hypotheses on searches run to their end can be met |
| Histories.LifeFacts | src/MCStackItem.cpp:31-40 | while a state is on the stack, asleep in it are exactly those asleep at first and those run from it, and everything that could run from it is cached as enabled |
| Histories.BacktrackIsRun | src/mcmini_private.cpp:325-333 | a thread in a backtrack set is run from that state before the state is left |
| Histories.ChildFacts | src/MCStack.cpp:1159-1176 | a step from a state is its thread's pending transition, and asleep after it are only threads asleep before, or run earlier, and independent of it |
| Histories.FollowsFacts | src/MCStack.cpp:1242-1346 | the stack always holds an execution of the traced program, of well-defined calls, with the objects it leads to |
| Executions.CoveredMaximal | include/MCTransition.h:413-427 | what covers an execution that cannot go on is an execution of the same trace with the same end |
| Executions.ConeExists | include/MCTransition.h:413-427 | every execution holds a part that runs on its own, leads step by step to a given thread, and leaves it with the same pending transition |
| Executions.MoveFront | include/MCTransition.h:421-427 | a step independent of those before it can be taken first, with the same objects and pending transitions at the end |
| Chains.ClocksAreExact | src/MCStack.cpp:810-817 | happens-before by clock vectors holds if and only if the index is 0 or there is a chain of pairwise dependent transitions; so it is false for i > j |
| Chains.MaxClockIsMaximum | src/MCStack.cpp:1191-1211 | the computed maximum bounds every dependent clock and each component comes from one, a missing one being zero |
| ClockVectors.JoinIsLeastUpperBound | src/MCClockVector.cpp:5-27 | the join of two clock vectors is their least upper bound, missing components being zero |
| ClockVectors.Max | src/MCClockVector.cpp:5-27 | the two loops compute that join |
| Sleeping.StepKeepsSleepJustified | src/MCStack.cpp:1159-1176 | every sleeping thread was run from an ancestor state and is independent of every step since; a step keeps this |
| Sleeping.StepKeepsDiscipline | src/MCStackItem.cpp:5-65 | backtrack within enabled and disjoint from done and sleep, done within sleep but for a just-popped thread, state 0 never with a backtrack thread; a step keeps this |
| Sleeping.UpdateKeepsDiscipline | src/MCStack.cpp:950-976 | the update keeps the set discipline |
| Sleeping.BranchKeepsDiscipline | src/MCStackItem.cpp:42-57 | popping and rewinding keeps it |
| Sleeping.StepKeepsDoneExplored | src/MCStackItem.cpp:12-17 | every thread done at a state was run from that state; a step keeps this |
| Sleeping.StepKeepsEnabledSound | src/MCStack.cpp:1164-1174 | threads cached as enabled at a state are enabled there; a step keeps this |
| Rewinding.UndoAgreesWithReplay | src/MCStack.cpp:1242-1346 | where undoing is allowed it gives the same objects, depths, pending transitions and stacks as resetting and replaying; only the clock vectors of threads may differ |
| Rewinding.CanReverseIff | src/MCStack.cpp:1033-1038 | undoing is allowed if and only if every transition above the state is reversible |
| Rewinding.UndoRestoresClocksIff | src/MCStack.cpp:1020-1031 | undoing leaves the right clock vectors if and only if nothing was undone |
| Rewinding.NextAtAfterCut | src/MCStack.cpp:1291-1322 | after a rewind, what was pending at every earlier state is what it was before |
| Rewinding.UndoIsReplay | src/MCStack.cpp:1285-1289 | undoing reversible, well-defined transitions one by one reaches the objects of the shorter run |
| Rewinding.KeepsIrreversiblePrefix | include/misc/MCSortedStack.hpp:36-40 | popping the indices above a state leaves exactly the irreversible states of the kept run |
| Traces.LinearisationsAgree | include/MCTransition.h:413-427 | all linearisations of one dependence order are executable alike and reach the same state |
| Traces.AdjacentExchange | include/MCTransition.h:421-427 | exchanging two adjacent independent transitions keeps a run executable and its final state |
| Traces.SleepingThreadIsRedundant | src/MCStack.cpp:1159-1170 | running a sleeping thread would repeat, up to equivalence, a run explored before |
| Transitions.RelationIsValid | src/MCTransition.cpp:33-39 | for mutex, thread and global-variable transitions reported independent: neither enables or disables the other and they commute, if and only if they are not a create and a join, both enabled, of one already dead thread; what the transitions do is told by Effects.RunsIff |
| Effects.MutexAfter | src/objects/MCMutex.cpp:29-76 | after any run of ready steps a mutex is unlocked if and only if no thread locked or trylocked it since it was last initialised or unlocked (or at all, where it was unlocked at first); locked if and only if some lock, or trylock that found it unlocked, has not been followed by an unlock; undefined if and only if it was and has not been initialised |
| Effects.MutualExclusion | src/transitions/mutex/MCMutexLock.cpp:118-139 | between two steps that take one mutex, by a lock or by a trylock that finds it unlocked, it is unlocked |
| Effects.ThreadAfter | src/transitions/threads/MCThreadCreate.cpp:50-54 | after any run a thread is alive if and only if it was at first or has been created, and has not finished; dead if and only if it was or has finished |
| Effects.JoinFollowsFinish | src/transitions/threads/MCThreadJoin.cpp:49-64 | a join runs only after its target has finished |
| Effects.GlobalAfter | src/transitions/misc/MCGlobalVariableWrite.cpp:52-56 | the value of a global variable after any run is the one written last, or the first one |
| Effects.EnabledAfter | src/MCTransition.cpp:56-62 | after any run a transition is enabled if and only if, by the steps of the run, its thread lives and what it waits for has come: a lock its mutex free, a join its target finished; and likewise for well-defined calls |
| Effects.RunsIff | src/MCTransition.cpp:56-62 | which sequences of transitions are runs is told by their steps alone |
| Precision.DependentIff | src/MCTransition.cpp:33-39 | mutex and global-variable transitions of two threads are reported dependent if and only if in some state one changes what the other does, learns, or whether it can run, or they are two of initialise and unlock other than two unlocks, or two writes of one value |
| Precision.IndependentLearnAlike | src/MCTransition.cpp:33-39 | transitions reported independent do not change what the other learns, the outcome of a trylock or the value read, either |
| Precision.CoenabledIff | src/MCTransition.cpp:41-47 | they are reported co-enabled if and only if some state has both ready, or one initialises a mutex that the other locks or unlocks |
| Precision.ThreadsDependIff | src/MCTransition.cpp:64-128 | where a transition of threads takes part, dependent and not co-enabled are exactly those where one creates or joins the other's thread |
| Transitions.ProperCallsAreIndependent | include/MCTransition.h:413-427 | for creates of fresh threads the relation is valid without exception |
| Transitions.CreateOfDeadThreadIsNotIndependent | src/transitions/threads/MCThreadCreate.cpp:79-88 | the exception is real: a create of a dead thread disables a join reported independent of it |
| Transitions.RunsOfOneTraceAgree | src/MCTransition.cpp:97-128 | for these transitions all orders of a run that keep dependent transitions in order are executable alike and reach the same objects |
| Transitions.RelationIsLawful | src/MCTransition.cpp:64-128 | the concrete relation is symmetric, makes a thread's own transitions dependent and never co-enabled, and a thread's start never both dependent and co-enabled with another transition |
| Transitions.UndoIsExactIffProper | include/MCTransition.h:342-347 | undoing a reversible transition restores the state if and only if the call was well defined |
| Transitions.StoreIsLawful | include/MCObjectStore.h:67-89 | a transition neither reads nor writes objects registered after it was built |
| Transitions.ExchangeIsLawful | include/MCTransition.h:413-427 | independent ready transitions stay ready and commute in every state |
| StackItems.StackItem.PopThreadToBacktrackOn | src/MCStackItem.cpp:42-57 | takes the least backtrack thread and marks it done |
| StackItems.StackItem.ThreadIsInSleepSet | src/MCStackItem.cpp:31-40 | true exactly for sleeping threads |
| StackItems.SortedStack.Push | include/misc/MCSortedStack.hpp:13-21 | a push below the top is refused and the stack stays ascending |
| StackItems.SortedStack.PopGreaterThan | include/misc/MCSortedStack.hpp:36-40 | pops exactly the entries above the bound |
| StackItems.KeepUpToIsExact | include/misc/MCSortedStack.hpp:36-40 | on an ascending stack what is left is exactly the entries up to the bound |
| McStacks.McStack.SimulateRunningTransition | src/MCStack.cpp:1040-1061 | the stacks, thread data, tables and objects after running a thread are those of the machine's step |
| McStacks.McStack.GrowStateStackRunningTransition | src/MCStack.cpp:1138-1189 | the new state's clock vector and inherited sleep set, and the departing state's cached enabled threads, sleeper and done thread |
| McStacks.McStack.TransitionStackMaxClockVector | src/MCStack.cpp:1191-1211 | the maximum over all dependent transitions on the stack, with the transition stack one ahead |
| McStacks.McStack.InheritSleepSet | src/MCStack.cpp:1159-1170 | exactly the sleepers independent of the transition are handed down |
| McStacks.McStack.ThreadsRaceAfterDepth | src/MCStack.cpp:827-838 | whether the thread ran after the index, before something the other thread already ran |
| McStacks.McStack.DynamicallyUpdateBacktrackSetsHelper | src/MCStack.cpp:937-979 | one state's backtrack set after looking at one thread, and whether that was a conflict: unchanged where the thread has no call on the set, grown by exactly one candidate where there are any, and otherwise by all that are awake and enabled |
| McStacks.McStack.DynamicallyUpdateBacktrackSets | src/MCStack.cpp:840-933 | the whole update: others against the top, the runner down to its last conflict, no other state changed; and, by chains alone, no state is given more threads than its callers need |
| McStacks.McStack.GetDeepestDPORBranchPoint | src/MCStack.cpp:317-325 | the deepest state with a backtrack thread |
| McStacks.McStack.GetFirstEnabledTransition | src/MCStack.cpp:335-372 | the least schedulable thread awake at the top; none only if there is none or the limit is reached |
| McStacks.McStack.GetCurrentlyEnabledThreads | src/MCStack.cpp:420-441 | exactly the threads whose pending transition is enabled |
| McStacks.McStack.ReflectStateAtTransitionIndex | src/MCStack.cpp:1241-1346 | rewinds every field as the machine does, by undoing or replaying as the irreversible states decide |
| McStacks.McStack.ReplayTo | src/MCStack.cpp:1258-1273 | objects, depths and clock vectors after a reset and a replay |
| McStacks.McStack.UndoTo | src/MCStack.cpp:1274-1289 | the same after undoing from the top |
| McStacks.McStack.ClosestIndices | src/MCStack.cpp:1302-1308 | the downward scan ends with each thread's first step after the index |
| McStacks.McStack.RestoreNextTransitions | src/MCStack.cpp:1302-1322 | the table of pending transitions is that of the state |
| McStacks.McStack.PopThreadToBacktrackOnAt | src/mcmini_private.cpp:288-289 | the least thread leaves the backtrack set of that state only |
| McStacks.McStack.constructor | src/mcmini_private.cpp:268-276 | the engine before the first transition, with one state and the main thread about to start |
| Explorers.Explorer.DoModelChecking | src/mcmini_private.cpp:323-334 | the search ends; with the limit below the 1500 slots it always completes, with every branch run to its end and no thread left to backtrack on; and if it undid well-defined calls only, every state with a conflict is done with |
| Explorers.Explorer.MissesNothing | src/mcmini_private.cpp:323-334 | a finished search that no limit cut short has visited the end of every execution of the traced program, which is the process described by the answers the driver read |
| Explorers.FindsEveryDeadlock | src/mcmini_private.cpp:323-334 | for programs of mutexes, threads and global variables: such a search had every deadlock on its stack, deadlocks being told by the steps of the execution alone |
| Explorers.Explorer.ExploreBranch | src/mcmini_private.cpp:279-321 | one branch extends the search and strictly lowers the termination measure; the stack is never rewound below state 0 and never overrun |
| Explorers.Explorer.SearchDporBranchWithThread | src/mcmini_private.cpp:588-779 | every step of the inner loop is a move of the search, by the traced program's answer to the thread's pending transition, and it stops only when the limit on transitions is reached or every schedulable thread is asleep, or to give up the whole search when the stack is full |
| Explorers.Explorer.RunThread | src/mcmini_private.cpp:627-638 | one step of the driver: the thread is released at the transition it was about to do, after the run on the stack, and its answer to that is what the stack steps with before it is updated |
| Explorers.DeeperIsLess | src/mcmini_private.cpp:323-334 | one more thread done at a state, and nothing undone below it, lowers the lexicographic measure whatever happens above |
| Searches.TopHasNoBacktrack | src/MCStack.cpp:1131-1136 | the last state of a search has an empty backtrack set, so a branch never grows the stack beyond its old height |
| Explorers.BranchGoesDeeper | src/mcmini_private.cpp:279-293 | a branch adds a done thread at its state and leaves the done sets below alone |
| Explorers.RunStaysDeeper | src/MCStack.cpp:1138-1189 | running on never touches done sets below the top |
| WakePolicies.FirstFitIsOptimal | src/misc/cond/MCConditionVariableDefaultPolicy.cpp:46-77 | distinct waiters can leave in a given order if and only if the signals sent while they waited can be shared out among those no broadcast freed |
| WakePolicies.AnyOrderWillDo | src/misc/cond/MCConditionVariableDefaultPolicy.cpp:46-77 | whether a set of waiters can leave does not depend on the order |
| WakePolicies.HistoriesAreOrderly | src/misc/cond/MCConditionVariableArbitraryPolicy.cpp:14-21 | in every history: a thread waits once, eligible threads wait, the groups are an ascending chain of prefixes of the queue, and tags name the signals that made them |
| WakePolicies.WakeKeepsOrder | src/misc/cond/MCConditionVariableSingleGroupPolicy.cpp:20-34 | a wake-up keeps that order |
| WakePolicies.SignalsWakeAtMostOne | src/misc/cond/MCConditionVariableDefaultPolicy.cpp:53-69 | over any history two wake-ups never consume the same signal |
| WakePolicies.CauseFollowsWait | src/misc/cond/MCConditionVariableDefaultPolicy.cpp:46-77 | a thread woken by a signal or a broadcast began its present wait before it |
| WakePolicies.BroadcastFreesAll | src/misc/cond/MCConditionVariableSingleGroupPolicy.cpp:7-18 | after a broadcast everyone who waited can leave, and still can until it does |
| WakePolicies.SignalsAreKept | src/misc/cond/MCConditionVariableArbitraryPolicy.cpp:14-21 | until some thread takes a signal, everyone who waited when it was sent can leave for as long as they wait |
| WakePolicies.MatchingSurvives | src/misc/cond/MCConditionVariableDefaultPolicy.cpp:56-69 | if the signals can be shared out they still can after the first thread consumed its first signal |
| WakePolicies.MatchingExtends | src/misc/cond/MCConditionVariableDefaultPolicy.cpp:56-69 | and conversely |
| WakePolicies.RemoveFirstOfDistinct | src/misc/cond/MCWakeGroup.cpp:12-16 | on a queue where threads wait once, erasing the first occurrence is erasing all |
| ConditionVariables.ArbitraryPolicy.WakeThread | src/misc/cond/MCConditionVariableDefaultPolicy.cpp:46-77 | the policy after a wake-up; the assert that there is a signal to consume cannot fail for a thread that can leave |
| ConditionVariables.ArbitraryPolicy.ReceiveBroadcastMessage | src/misc/cond/MCConditionVariableSingleGroupPolicy.cpp:7-18 | the policy after a broadcast: everyone in a group or in the queue is eligible, and the queue stays |
| ConditionVariables.ArbitraryPolicy.ReceiveSignalMessage | src/misc/cond/MCConditionVariableArbitraryPolicy.cpp:14-21 | the policy after a signal, which is lost when nobody waits |
| ConditionVariables.ArbitraryPolicy.ThreadCanExit | src/misc/cond/MCConditionVariableDefaultPolicy.cpp:30-44 | true exactly for threads that are eligible or in a group |
| ConditionVariables.ArbitraryPolicy.AddWaiter | src/misc/cond/MCConditionVariableSingleGroupPolicy.cpp:36-40 | the thread waits last |
| RwwLocks.HistoriesAreConsistent | src/objects/MCRWWLock.cpp:72-226 | for all four preferences, in every history: at most one writer of either class and none with readers, threads wait once, the acquire queue is as long as the class queues together, and without a preference an interleaving of them; who the holders are, is told by RwwLocks.HoldersAreAdmitted |
| RwwLocks.HoldersAreAdmitted | src/objects/MCRWWLock.cpp:142-226 | by the events alone: each thread holds the lock as often as it was admitted more than it unlocked, and as the kind it was last admitted as |
| RwwLocks.OnlyReadersShare | src/objects/MCRWWLock.cpp:206-226 | between a thread's admission and its own unlock, a thread is admitted only where both are readers |
| RwwLocks.AdmittedStillHolds | src/objects/MCRWWLock.cpp:206-226 | from its admission until it unlocks a thread holds the lock, whoever else unlocks |
| RwwLocks.AdmittedIff | src/objects/MCRWWLock.cpp:72-128 | by the events alone: a thread is admitted if and only if it is the next of its kind (without a preference, the next of all), no thread of another, preferred kind waits, no writer is inside, and no reader either if it is to write |
| RwwLocks.AssertsNeverFail | src/objects/MCRWWLock.cpp:142-226 | in every reachable state every step the wrappers let happen passes the asserts of the lock |
| RwwLocks.NoPreferenceIsFifo | src/objects/MCRWWLock.cpp:85-87 | without a preference threads are admitted exactly in the order they came |
| RwwLocks.KindsAreFifo | src/objects/MCRWWLock.cpp:142-204 | for every preference threads of one kind are admitted in the order they came |
| RwwLocks.FreeLockAdmitsSomeone | src/objects/MCRWWLock.cpp:72-128 | when the lock is free and some thread waits, some waiting thread is admitted, for all four preferences |
| RwwLocks.AcquireKeepsConsistent | src/objects/MCRWWLock.cpp:142-183 | whoever is admitted passes the asserts and leaves the lock consistent |
| RwwLocks.AcquireGivesOne | src/objects/MCRWWLock.cpp:142-183 | acquiring gives one holding to that thread, as one of its kind, and nothing to others |
| RwwLocks.EnqueueKeepsConsistent | src/objects/MCRWWLock.cpp:185-204 | enqueuing keeps the lock consistent |
| RwwLocks.UnlockKeepsConsistent | src/objects/MCRWWLock.cpp:206-226 | unlocking takes one holding of that thread away, leaves all others what they hold, and keeps the lock consistent |
| RwwLocks.HolderMayUnlock | src/objects/MCRWWLock.cpp:206-226 | a thread passes the asserts of unlock if and only if it holds the lock |
| RwwLocks.IndependentMeansDiamond | src/transitions/rwwlock/MCRWWLockReaderLock.cpp:89-104 | lock transitions independent by the relation and enabled together stay enabled after each other and commute |
| RwwLocks.OneReaderAtATime | src/transitions/rwwlock/MCRWWLockReaderLock.cpp:89-104 | two reader locks of different threads on one lock are never enabled together |
| RwwLocks.ReaderEnablesNextReader | src/transitions/rwwlock/MCRWWLockReaderLock.cpp:89-104 | of two waiting readers, whose locks are independent by the relation, one enables the other if and only if the other thread is next in the queue |
| RwwLocks.RwwLock.CanAcquireAsReader | src/objects/MCRWWLock.cpp:72-90 | the test for a waiting reader |
| RwwLocks.RwwLock.CanAcquireAsWriter1 | src/objects/MCRWWLock.cpp:92-109 | the test for a waiting writer of the first class |
| RwwLocks.RwwLock.CanAcquireAsWriter2 | src/objects/MCRWWLock.cpp:111-128 | the test for a waiting writer of the second class |
| RwwLocks.RwwLock.ReaderLock | src/objects/MCRWWLock.cpp:142-155 | an admitted reader locks: every assert holds and the lock stays consistent |
| RwwLocks.RwwLock.Writer1Lock | src/objects/MCRWWLock.cpp:157-169 | an admitted writer of the first class locks likewise |
| RwwLocks.RwwLock.Writer2Lock | src/objects/MCRWWLock.cpp:171-183 | an admitted writer of the second class locks likewise |
| RwwLocks.RwwLock.UnlockBy | src/objects/MCRWWLock.cpp:206-226 | a holder unlocks: every assert holds, it holds once less, every other thread as often as before, and the lock stays consistent |
| RwLocks.EmbeddingAgrees | src/objects/MCRWLock.cpp:42-154 | every test, assert and operation of the two-class lock is that of the larger lock with its second writer class unused |
| RwLocks.HistoriesEmbed | src/objects/MCRWLock.cpp:42-154 | every history of the two-class lock is a history of the larger one |
| RwLocks.HistoriesAreConsistent | src/objects/MCRWLock.cpp:42-154 | in every reachable state a writer excludes readers, the acquire queue is as long as the class queues together, and the asserts never stop a step the wrappers let happen; who the holders are, is told by RwLocks.HoldersAreAdmitted |
| RwLocks.HoldersAreAdmitted | src/objects/MCRWLock.cpp:93-154 | by the events alone: each thread holds the lock as often as it was admitted more than it unlocked, as a writer or a reader as it was last admitted |
| RwLocks.OnlyReadersShare | src/objects/MCRWLock.cpp:136-154 | between a thread's admission and its own unlock, a thread is admitted only where both are readers |
| RwLocks.AdmittedIff | src/objects/MCRWLock.cpp:42-67 | by the events alone: a thread is admitted if and only if it is the next of its class (without a preference, the next of all), no thread of the preferred other class waits, no writer is inside, and no reader either if it is to write |
| RwLocks.FreeLockAdmitsSomeone | src/objects/MCRWLock.cpp:42-67 | in every reachable state where the lock is free and some thread waits, some waiting thread is admitted, for all three preferences |
| RwLocks.NoPreferenceIsFifo | src/objects/MCRWLock.cpp:49-51 | without a preference threads are admitted exactly in the order they came |
| RwLocks.KindsAreFifo | src/objects/MCRWLock.cpp:93-134 | within a class threads are admitted in the order they came |
| RwLocks.IndependentMeansDiamond | src/transitions/rwlock/MCRWLockReaderLock.cpp:139-153 | transitions of the two-class lock independent by the relation and enabled together stay enabled after each other and commute |
| RwLocks.ReaderEnablesNextReader | src/transitions/rwlock/MCRWLockReaderLock.cpp:139-153 | of two waiting readers, whose locks are independent by the relation, one enables the other if and only if the other thread is next in the queue |
| RwLocks.RwLock.ReaderLock | src/objects/MCRWLock.cpp:93-106 | an admitted reader locks: every assert holds and the lock stays consistent |
| RwLocks.RwLock.WriterLock | src/objects/MCRWLock.cpp:108-120 | an admitted writer locks likewise |
| RwLocks.RwLock.UnlockBy | src/objects/MCRWLock.cpp:136-154 | a holder unlocks: every assert holds, it holds once less, every other thread as often as before, and the lock stays consistent |
| Semaphores.IndependentMeansDiamond | src/transitions/semaphore/MCSemWait.cpp:52-87 | transitions on one semaphore reported independent and enabled together stay enabled after each other and commute, if and only if they are not a post and a pass at the largest 32-bit count |
| Semaphores.PassesAreFifo | src/objects/MCSemaphore.cpp:28-52 | waits complete in the order they were enqueued |
| Semaphores.CountIsConserved | src/objects/MCSemaphore.cpp:98-108 | the count is the initial count plus posts less completed waits, modulo 2 to the 32 |
| Semaphores.CountIsExact | src/objects/MCSemaphore.cpp:98-108 | and exactly that as long as it fits 32 bits |
| Semaphores.PassesIff | src/objects/MCSemaphore.cpp:28-52 | by the events alone: who can pass is the first to have entered that has not passed, while initial count plus posts less passes, in 32 bits, is not zero |
| Semaphores.PostEnablesPass | src/transitions/semaphore/MCSemPost.cpp:64-73 | a post enables a wait, reported independent of it, if and only if the count was zero and the thread is first |
| Semaphores.AbsentThreadPassesEmptyQueue | src/objects/MCSemaphore.cpp:28-40 | the sleep-position test admits a thread that never enqueued if and only if nobody waits |
| Semaphores.SemaphoreObject.ThreadCanExit | src/objects/MCSemaphore.cpp:47-52 | the test for a waiting thread |
| Semaphores.SemaphoreObject.ApplyWait | src/transitions/semaphore/MCSemWait.cpp:52-57 | the semaphore after a completed wait |
| Semaphores.SemaphoreObject.ApplyPost | src/objects/MCSemaphore.cpp:98-102 | the semaphore after a post, in 32 bits |
| Semaphores.SemaphoreObject.ApplyEnqueue | src/objects/MCSemaphore.cpp:80-84 | the semaphore after an enqueue |
| Handshakes.SemaphoresAreBinary | src/mc_shared_sem.c:6-50 | in every interleaving every semaphore holds 0 or 1 |
| Handshakes.WriterWasWoken | src/transitions/MCTransitionsShared.cpp:38-46 | the mailbox is written only by the thread the scheduler last woke, for the first time in its turn and before it posts |
| Handshakes.NoWriteBeforeNextWake | src/mcmini_private.cpp:525-535 | after a thread's post nobody writes the mailbox until the scheduler wakes a thread again |
| Handshakes.ReadSeesTheWrite | src/mcmini_private.cpp:525-535 | what the scheduler reads is what the thread it woke wrote since |
| Handshakes.OneWriteOnePost | src/transitions/MCTransitionsShared.cpp:6-36 | a turn holds exactly one write and one post, both by the woken thread, thread creation and finish included |
| Handshakes.RecordIsRight | src/transitions/wrappers/MCThreadTransitionWrappers.cpp:22-49 | whenever the scheduler chooses, it knows exactly the threads that have been born, it has given up exactly those that are gone, and all others wait for it |
| Handshakes.SpawnedIsKnown | src/transitions/threads/MCThreadCreate.cpp:12-19 | by the steps alone: whenever the scheduler chooses, it knows the main thread and those some thread has spawned, and has given up those that have posted their end |
| Handshakes.WhoCanBeWoken | src/mcmini_private.cpp:525-535 | so it can wake exactly the threads that have been born and are not gone, except the main thread once its routine has returned |
| Handshakes.PendingIsLastAnnounced | src/transitions/MCTransitionsShared.cpp:38-46 | the operation the scheduler holds as a thread's next one is the last that thread announced |
| Handshakes.StepKeepsAgreed | src/transitions/wrappers/MCThreadTransitionWrappers.cpp:22-77 | the inductive invariant of the handshake, kept by every step of every party; in particular a thread that has been born is known unless its creation is what the woken thread is announcing |
| Handshakes.TurnsProgress | src/mcmini_private.cpp:525-535 | a turn is never stuck, and each of its steps brings its end nearer |
| Handshakes.TurnsEnd | src/mcmini_private.cpp:525-535 | however the steps interleave, a turn ends within eight steps |
| Livelocks.IsInLivelock | src/MCStack.cpp:618-744 | on the stack and the traced program themselves: at most one cycle for each thread, each of at most the limit (or one) transitions, and exactly so many if nothing blocks; the stack is continued by the threads named, each released at what it was about to do; a verdict means every enabled thread ran; early stops included |
| Livelocks.ContinuedRun | src/MCStack.cpp:646-725 | the test leaves the run below it alone, and every step it adds is its thread's, at what the thread last answered |
| Livelocks.RunCycle | src/MCStack.cpp:646-725 | one cycle takes between one and the limit of transitions, by threads that become explored |
| Livelocks.LastEnabled | src/MCStack.cpp:635-644 | the first cycle starts with the last enabled thread, not the first |
| Livelocks.LivelockFits | src/mcmini_private.cpp:838-879 | on top of any run of a search with the limit for livelock testing, whatever the settings, the test has the room its precondition demands |
| Livelocks.SearchWithin | src/mcmini_private.cpp:838-879 | a search with its limit taken from any settings completes within the 1500 slots |
| Livelocks.LivelockFitsIff | src/mcmini_private.cpp:838-852 | the check fits the slots on top of the longest run if and only if the cycles of all threads take at most the room set aside; at 20 threads and 5 transitions they take all of it |

## Left out

- Livelocks.IsInLivelock: does not model how an early stop or causal relatedness is decided, which may be any function here, nor what a livelock verdict means, which is a heuristic.
- Execution points of threads: pushed and popped, never read by the engine.
- The 1,000,000 slots of the state stack, which the 1500 slots of the transition stack never let it fill; the state stack is a sequence.
- The object store as arrays with an address map: registering an object appends to two sequences, and the reset that copies each initial object is one assignment.
- MCMutex, MCThread and the transition classes as objects updated in place: their states are values in the sequence of objects, so sharing of one object by several transitions, and the re-pointing of copies at live objects, are not captured.
- The outcome of a trylock is read from the mutex when it runs, not cached in the transition.
- Lazy initialisation of mutexes and condition variables when they are first met, which flips an object after its initial state was copied.
- Semaphores, condition variables and reader/writer locks as transitions of the concrete program: the relation omits enabling pairs among them, so they do not meet the law that independent transitions can be exchanged.
- Spurious wake-ups of condition variables and semaphores: their counts are zero from construction and nothing raises them.
- The binding of a condition variable to its mutex, and its dependence on mutex operations.
- Completeness for programs with semaphores, condition variables or reader/writer locks, and for searches cut short by a limit on transitions.
- Barriers, the GLibc and Ordered wake policies, `getNextFairTransition`, progress transitions, the trace-sequence mode, data-race reports.
- The livelock check during a search: the search theorems are about the engine with the check off, which is the default.
- Exit and abort in the handshake: they end the traced process.
- Forking, shared memory, signals, environment parsing, timing and printing.

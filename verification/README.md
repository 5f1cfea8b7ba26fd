# Verified models of conker's stream, iter and pool

Three concurrent components are modelled as state machines and proved correct for every
interleaving, every number of goroutines and every limit n of at least 1.

- **`stream.Stream`** (`StreamProtocol`, `StreamFold`, `StreamInvariant`, `StreamHistory`,
  `StreamTheorems`, `StreamLiveness`, `StreamHalt`, `StreamParallel`, class `Streams.Stream`): any
  number of `GoCtx` and `Go` callers, a producer for each slot, the dispatcher with its two loops, and
  any number of `Wait` calls. Every run refines a left-to-right fold over what the producers ended with,
  in slot order, and every run ends.
- **The concurrent iteration of package `iter`** (`IterProtocol`, `IterInvariant`, `IterHistory`,
  `IterTheorems`, `IterLiveness`, `IterParallel`, class `Iterations.Iteration`): a dispatcher, its calls
  and the consumer. One machine with a mode covers four functions, which share their dispatcher:

  | | ordered | not ordered |
  |---|---|---|
  | not collecting errors | `mapSeq` | `forEachSeq` |
  | collecting errors | `MapSeqErr` | `ForEachSeqErr` |

- **`pool.Pool` and `pool.ResultPool`** (`PoolProtocol`, `PoolInvariant`, `PoolTheorems`,
  `PoolHistory`, `PoolLiveness`, `PoolDeadlock`, `PoolRuns`, `PoolExact`, `PoolErrorOrder`, class
  `Pools.Pool`): a tree of tasks that submit their children through `Go`, `GoCtx` or `TryGo`, with
  `Wait`, `Errors` and `Reset`. Node 0 of the tree is the goroutine that owns the pool. The trees on which a pool can deadlock are characterised exactly when
  no context of a `GoCtx` submission is done from the start, and when `TryGo` is not used.

`Discrepancies` holds runs on which the code departs from its documentation, `Counting` sums over
goroutines (tokens, wait-group counters, termination measures), and `Sorting` the in-place sort with
the uniqueness of its result.

## How to read the models

A protocol module defines a `State`, the atomic `Action`s, when each is `Enabled` and what each does
(`Apply`). One action is one lock section, channel operation, compare-and-swap, wait-group operation
or context operation. A run is a `Feasible` sequence of actions, an arbitrary interleaving; `Exec` is
the state it leads to. A history module says what a run, read as a list of actions, contains: how the
user functions ended, in what order, and whether the loop body broke; and proves that the state keeps
exact account of it, so the theorems speak of what user code did, not of what the state holds. A send on or a close of a closed channel and a negative counter set `fault`.
User functions are arbitrary: the outcome is chosen when the function ends. Contexts may be cancelled
at any step. Values, errors and panics are opaque tokens; 0 stands for the zero value of a result.

The classes hold the fields of the Go objects and of the goroutines that share them. Every method is
one atomic section and is proved to take exactly one protocol step. `Step` chooses among them and
keeps the invariant, and `Drive` lets an arbitrary scheduler act on the object. The table lists the
methods that do more than one assignment to a step's own fields; the others are covered by `Step`.

`Inv` is the invariant of a protocol. It holds initially and every action keeps it, so a theorem that
requires `Inv(s)` holds in every reachable state.

## Assumptions

- User code ends, by returning or by panicking; the input of an iteration is finite and does not
  panic, and the consumer's loop body does not panic.
- Stream producers and callbacks do not call `Go` or `Wait`.
- `Reset` is called only after `Wait` has returned, and only tasks and the goroutine that calls `Wait`
  submit to a pool.
- A task may skip any of its children and may submit them in any order; a child refused by `TryGo`
  may be dropped or run inline. An inline panic or error is part of its submitter's arbitrary outcome.
- Each task of a tree is submitted in one way only, fixed in advance.

## Where code and documentation differ

- `stream/stream.go:217` says that a panic halts the dispatcher immediately. The code halts when the
  dispatcher reaches the slot of the panicking producer: `PanickedButCalled` is a run in which an
  earlier callback still runs. In which states a callback can still begin after a panic is stated
  exactly by `OneMoreCallbackExactly`, and which callbacks have run in the end by `WaitMeaning`.
- `pool/pool.go:82-87` ties the recursive deadlock to the recursion depth. What decides is how many
  tasks can wait at once (`DeadlockExactly`): a flat tree of n tasks with one child each can deadlock
  at any limit n (`NBlockersCanDeadlock`), and a chain of only children cannot deadlock a pool with
  two or more slots, however deep it is (`ChainCompletes`).
- `iter/iter.go:119-120` and `iter/iter.go:341-343` say that cancelling stops dispatch. One more element
  can be started (`CancelledButStarted`), never two (`AtMostOneMoreStart`), and some run does so if and
  only if the dispatcher has passed its last check (`OneMoreStartExactly`).

## What the documentation leaves open

`pool/pool.go:605-608` gives `Errors` the order of the results, and `pool/pool.go:555-560` promises no
order for the error that `Wait` joins, which lists errors as they were recorded. The two always agree as
multisets (`ErrorsConserved`). Their orders can differ if and only if the pool has two slots or more, the
tree at least two tasks, and `Wait` is called (`OrdersDifferExactly`).

## Model

| member | source | states |
|---|---|---|
| StreamFold.FoldMeaning | stream/stream.go:117-145 | The fold without the fold: exactly the callbacks run that no earlier panic stops, in slot order; the producer cell ends with the panic of the earliest panicking producer, the callback cell with that of the one callback that stopped the run. |
| StreamFold.FoldAgree | stream/stream.go:127-129 | The fold depends only on how the callbacks that it runs end. |
| StreamInvariant.InitEstablishes | stream/stream.go:86-94 | A new stream satisfies the invariant. |
| StreamInvariant.StepKeeps | stream/stream.go:112-257 | Every action of every goroutine keeps the invariant: sem equals the tokens held and never exceeds n, both wait groups equal their live members, slots and queue match, and the dispatcher's record is the fold over the handled slots. |
| StreamTheorems.RunKeeps | stream/stream.go:112-257 | The invariant holds all along every run. |
| StreamHistory.RunWrites | stream/stream.go:190-198 | A slot keeps what it holds, and otherwise gets what its producer ends with, in every run. |
| StreamHistory.ProduceIsKept | stream/stream.go:190-198 | Whatever a producer ends with at some point of a run (a callback, nil, or a panic) is what its slot holds from then on, unchanged; the slot was empty before. |
| StreamHistory.RunRecords | stream/stream.go:127-129 | How the callbacks ended, in the order in which they were begun, is what the run's callbacks ended with. |
| StreamTheorems.SlotsHoldOutcomes | stream/stream.go:182-198 | In every reachable state each slot holds what its producer ended with, and nothing if it has not ended. |
| StreamTheorems.WaitRefinesFold | stream/stream.go:229-257 | When the first Wait returns or panics, every producer has ended, the callbacks run and the panic raised are those of the sequential fold over what the producers ended with in the run; no producer is in flight, sem is empty, and every slot was received exactly once. |
| StreamTheorems.WaitMeaning | stream/stream.go:213-257 | The same in plain terms, over what the producers and callbacks of the run ended with: a callback runs exactly if its producer returned one and nothing earlier stopped the sequence, a nil callback never; in slot order; and the earliest producer panic outranks the callback panic, even if it is met while draining. |
| StreamDiscrepancies.PanickedButCalled | stream/stream.go:213-219 | An input for the documented claim: a producer has panicked before any callback ran, and the callback of an earlier slot is run afterwards. |
| StreamHalt.OneMoreCallbackExactly | stream/stream.go:117-132 | Once some slot holds a producer panic, some run begins another callback if and only if the dispatcher is in its first loop and a slot ahead of it, with no panic in between, holds a callback or is still to be written. |
| StreamHalt.PendingCanCall | stream/stream.go:117-132 | Such a slot's callback, or one before it, can be begun: the producers in between are spawned and end, and the dispatcher passes on. |
| StreamHalt.PanicsAhead | stream/stream.go:118-126 | While the dispatcher is in its first loop, every panic lies ahead of it. |
| StreamHalt.NoMoreCallsEver | stream/stream.go:120-145 | Once the first loop is left, or only empty slots lie before a panic, no callback begins in any run. |
| StreamTheorems.WaitIsDeterministic | stream/stream.go:213-215 | Runs with equal slot outcomes run the same callbacks and raise the same panic, whatever their limits and interleavings. |
| StreamTheorems.QuietAfterWait | stream/stream.go:238-249 | After Wait no token is held, no call is pending, every producer is gone and every slot is handled. |
| StreamTheorems.CallbacksInOrder | stream/stream.go:118-131 | In every reachable state the callbacks begun are in slot order, each once, each of a received slot. |
| StreamTheorems.NoSendOnClosed | stream/stream.go:165-183 | No run reaches a runtime failure; a call about to send finds submitted made and open, and Wait is still joining submitters. |
| StreamHistory.RefusedOnlyAfterWait | stream/stream.go:165-168 | In every reachable state a call has been refused only if Wait has been called. |
| StreamHistory.NoneAdmittedAfterWait | stream/stream.go:165-168 | A call that has not passed the admission section when Wait has is refused in every run, and never gets a slot. |
| StreamTheorems.NoLostGo | stream/stream.go:176-211 | An admitted call that has returned owns exactly one slot if it came through Go, or through GoCtx with a context that is not done. |
| StreamTheorems.SubmissionOrder | stream/stream.go:182-183 | If one call has sent before another, its slot precedes the other's for good. |
| StreamTheorems.LaterCallGetsLaterSlot | stream/stream.go:182-183 | A call that has not sent yet gets a slot behind all slots already sent. |
| StreamTheorems.SlotStays | stream/stream.go:182-183 | A call keeps its slot. |
| StreamTheorems.Backlog | stream/stream.go:113-145 | At most n producers run at once; the producers started exceed the slots the dispatcher has finished with by at most n + 1. |
| StreamParallel.ParallelExactly | stream/stream.go:176-199 | The limit is reached: k producers run at once in some run if and only if k is at most n and at most the number of calls. |
| StreamLiveness.StuckMeansReturned | stream/stream.go:134-146 | Deadlock freedom: nobody can move if and only if every GoCtx, producer and Wait has returned, also after panics with callers blocked on submitted. |
| StreamLiveness.CancelledCallReturns | stream/stream.go:176-180 | A GoCtx call waiting for a slot with a done context can return by its own two steps, without a slot. |
| StreamLiveness.StepWorks | stream/stream.go:112-257 | Every action decreases a measure over the submissions, producers, slots and Wait calls still to come. |
| StreamLiveness.RunsEnd | stream/stream.go:112-257 | A run is no longer than the measure of its first state. |
| StreamLiveness.EveryRunMeetsTheFold | stream/stream.go:213-257 | With Wait called at least once, every run is finite and ends with everyone returned, and with the callbacks and the panic of the fold over what the producers ended with. |
| Streams.Stream.constructor | stream/stream.go:86-110 | A new stream with its limit is an initial state. |
| Streams.Stream.Admit | stream/stream.go:160-171 | The admission section: refused once waited is set, else counted in submitWg. |
| Streams.Stream.Send | stream/stream.go:182-183 | Appends a fresh slot to submitted; a closed channel is a fault. |
| Streams.Stream.Receive | stream/stream.go:118-138 | The range takes the next slot, in order, or ends when submitted is closed and empty. |
| Streams.Stream.Take | stream/stream.go:119-144 | Reads the awaited slot: the first loop stops at a panic and calls a callback, the drain keeps only panics, and the first producer panic stays. |
| Streams.Stream.CallWait | stream/stream.go:230-236 | Only the first Wait goes on. |
| Streams.Stream.CloseSubmitted | stream/stream.go:244-248 | Cancels at once if nothing was submitted, else closes submitted; a second close is a fault. |
| Streams.Stream.Step | stream/stream.go:159-257 | Every atomic section takes exactly its protocol step and keeps the invariant. |
| Streams.Stream.Drive | stream/stream.go:112-257 | Under any scheduler the object's history is a run, its slots hold what the producers ended with, and a Wait that has ended has met the fold. |
| IterInvariant.InitEstablishes | iter/iter.go:182-200 | A new iteration satisfies the invariant. |
| IterInvariant.StepKeeps | iter/iter.go:182-282 | Every action keeps the invariant: token and wait-group counts, channel contents, the panic cell, the recorded errors, what has been yielded, and the dispatch bounds. |
| IterTheorems.RunKeeps | iter/iter.go:182-282 | The invariant holds all along every run. |
| IterHistory.RunResults | iter/iter.go:170-176 | A call keeps the outcome it has, and otherwise gets what fn returns for its element, in every run. |
| IterHistory.FinishIsKept | iter/iter.go:585-602 | Whatever fn returns at some point of a run is what its call holds from then on, unchanged; the call was still running before. |
| IterHistory.RunCell | iter/iter.go:248-251 | The panic cell holds the first panic of the run, with its index, and nothing if fn has not panicked. |
| IterTheorems.CallsHoldResults | iter/iter.go:246-275 | In every reachable state each call holds what fn returned for its element; broke and outside say whether the loop body broke and the context was cancelled from outside. |
| IterInvariant.ClearedBound | iter/iter.go:223-233 | When the check after the token sees no stop, one more start still leaves at most n starts beyond the successes. |
| IterInvariant.RecordErrs | iter/iter.go:593-596 | Appending under mu records the error of a failed call once, with its index. |
| IterTheorems.YieldsAreAPrefix | iter/iter.go:259-280 | In every reachable state the values yielded are what fn returned for the first elements, in input order, and every element for which fn panicked comes after them. |
| IterTheorems.LimitHolds | iter/iter.go:219-252 | At most n calls run at once. |
| IterParallel.ParallelExactly | iter/iter.go:182-252 | The limit is reached, in all four functions: k calls of fn run at once in some run if and only if k is at most n and at most the number of elements; none does if the context is cancelled from the start. |
| IterTheorems.FailFastBound | iter/iter.go:204-252 | When a failure stops dispatch, the elements started exceed the successful calls by at most n, in all four functions. |
| IterTheorems.LookaheadBound | iter/iter.go:199-244 | Started elements exceed the slots the consumer has finished with, the one being yielded not counted, by at most n + 1, and the slots it has received by at most n. |
| IterTheorems.BreakBound | iter/iter.go:239-275 | In every run in which the loop body breaks, with j values handed out by then, at most j + n + 1 elements are started in all. |
| IterTheorems.BreakStopsYields | iter/iter.go:269-278 | When the loop body breaks, no further value is handed out, however the run goes on. |
| IterTheorems.BreakCancels | iter/iter.go:269-275 | In every reachable state a break that has been handled has cancelled the context of the calls in flight, and so has the end of the range. |
| IterTheorems.PanicStopsYields | iter/iter.go:260-268 | Once fn has panicked no further value is handed out, not even one computed before the panic. |
| IterTheorems.SignalStopsDispatch | iter/iter.go:209-244 | Once done is closed, the context is cancelled or a panic is recorded, only the element that has passed its last check can still be started. |
| IterTheorems.AtMostOneMoreStart | iter/iter.go:204-244 | After done closes, the context is cancelled or a panic is recorded, at most one more element is started, however the run goes on. |
| IterTheorems.NoTokenAfterSignal | iter/iter.go:209-229 | A dispatcher that has not passed its first check when a stop signal comes up never takes a token again. |
| IterTheorems.EndJoinsEverything | iter/iter.go:256-280 | At the end the dispatcher has exited, fn has ended for every started element, all tokens are back, no channel was closed twice, and the first panic of the run is raised if fn panicked at all. |
| IterTheorems.UndisturbedCompletes | iter/iter.go:219-253 | In a run without break, outside cancellation or a failure that counts, every element is processed, and the ordered functions hand out what fn returned for all of them. |
| IterTheorems.FailuresMeaning | iter/iter.go:593-596 | The failure list is strictly increasing in the index and holds exactly the failed calls. |
| IterTheorems.EndErrs | iter/iter.go:613-618 | Sorted recorded errors are the failure list, whatever the completion order. |
| IterTheorems.CollectedResult | iter/iter.go:540-619 | The results are what fn returned for the dispatched prefix, zero where it failed; the errors are those with which fn failed, each once, by increasing index; and every element is dispatched unless the context was cancelled from outside or by an error. |
| IterLiveness.ReleaseNeverBlocks | iter/iter.go:230-247 | A receive from sem by a call or by the dispatcher always finds a token. |
| IterLiveness.StuckMeansEnded | iter/iter.go:202-281 | Deadlock freedom: nobody can move if and only if the range, or the call, has ended. |
| IterLiveness.StepWorks | iter/iter.go:202-281 | Every action decreases a measure over the elements, calls, slots and consumer steps still to come. |
| IterLiveness.RunsEnd | iter/iter.go:202-281 | A run is no longer than the measure of its first state. |
| IterLiveness.EveryRunEnds | iter/iter.go:551-611 | Every run is finite, and one that cannot go on has ended, for every break, panic, error and cancellation. |
| IterLiveness.LeavesAloneExactly | iter/iter.go:223-244 | Once done is closed or the context cancelled, the dispatcher can leave by its own steps alone if and only if it does not face a full ordered at a send that overlooks the signal: mapSeq's send watches done but not the context. |
| IterLiveness.PastChecksCanStart | iter/iter.go:230-252 | An element that has passed its last check can be started, also when ordered is full and the consumer first has to make room. |
| IterLiveness.OneMoreStartExactly | iter/iter.go:230-252 | After a stop signal some run starts another element if and only if the dispatcher has passed its last check: it is about to spawn or to send into ordered, or to look at the panic cell, which is empty. |
| IterDiscrepancies.CancelledButStarted | iter/iter.go:341-343 | A run in which the context is cancelled while no element has been started, and one is started afterwards. |
| Iterations.Iteration.constructor | iter/iter.go:184-200 | A new iteration is an initial state. |
| Iterations.Iteration.Poll | iter/iter.go:209-217 | The select of the stop check, before and after the token. |
| Iterations.Iteration.Record | iter/iter.go:593-602 | The section under mu, and whether the call must cancel. |
| Iterations.Iteration.Exit | iter/iter.go:247-247 | Closes the slot's done, or counts the call off the wait group. |
| Iterations.Iteration.AwaitSlot | iter/iter.go:261-275 | The slot is done: appended, dropped after a stop, or examined. |
| Iterations.Iteration.CheckPanic | iter/iter.go:262-269 | A panic in the cell stops the yields; otherwise the value is yielded. |
| Iterations.Iteration.Conclude | iter/iter.go:613-618 | Sorts the errors by index, re-panics if the cell is set, and cancels. |
| Iterations.Iteration.Step | iter/iter.go:182-282 | Every atomic section takes exactly its protocol step and keeps the invariant. |
| Iterations.Iteration.Drive | iter/iter.go:182-282 | Under any scheduler the object's history is a run, its calls hold what fn returned, and what it hands out is as proved of runs. |
| Sorting.SortCorrect | iter/iter.go:613-613 | Sorting permutes and orders. |
| Sorting.SortIncreasing | iter/iter.go:613-613 | With distinct keys the sorted sequence is strictly increasing. |
| Sorting.IncreasingUnique | pool/pool.go:567-571 | There is only one strictly increasing arrangement, so the sort algorithm does not matter. |
| Sorting.SortByKey | pool/pool.go:567-571 | The in-place sort computes it. |
| Sorting.SortedCopy | pool/pool.go:617-621 | The sort of a cloned slice. |
| PoolInvariant.InitEstablishes | pool/pool.go:69-77 | A new pool satisfies the invariant. |
| PoolInvariant.StepKeeps | pool/pool.go:243-363 | Every action keeps the invariant: token and wait-group counts, each submitter busy with exactly its child, distinct increasing indices, both logs exact, and the cause. |
| PoolTheorems.RunKeeps | pool/pool.go:243-363 | The invariant holds all along every run. |
| PoolTheorems.LimitHolds | pool/pool.go:294-299 | At most n spawned tasks run at once, and no counter fails. |
| PoolTheorems.WaitCoversEverything | pool/pool.go:348-363 | When Wait has returned, every task submitted at any depth has ended or was rejected, all tokens are back, errs has exactly one entry per failed or panicked task, results one per spawned task, in index order if ordered. Wait answers all these errors in the order recorded, with WithFirstError the first of them and none exactly if no task failed; and for every result the value that its task's function returned, in the order of the results. |
| PoolTheorems.ValuesInIndexOrder | pool/pool.go:567-577 | In ordered mode the value of the task with the smaller claimed index stands before that of the other. |
| PoolHistory.RunOutcomes | pool/pool.go:318-334 | A task keeps the outcome it has, and otherwise gets what its function returns, in every run. |
| PoolHistory.FinishIsKept | pool/pool.go:536-552 | Whatever a task's function returns at some point of a run, spawned or inline, is its outcome for good, unchanged; it had none before. |
| PoolHistory.RunErrs | pool/pool.go:336-345 | errs holds the errors in the order in which their sections under mu ran. |
| PoolHistory.RunResults | pool/pool.go:547-549 | Without ordering results stay in the order of completion. |
| PoolHistory.AnsweredErrors | pool/pool.go:353-363 | The error of Wait over the run itself: all the errors that the tasks returned, in the order recorded, or with WithFirstError the first. |
| PoolHistory.AnsweredValues | pool/pool.go:561-578 | The values of Wait over the run itself: what the tasks' functions returned; unordered, in the order of completion. |
| PoolTheorems.RunKeepsClaims | pool/pool.go:530-535 | Along a run a claimed index never changes and a later claim is larger. |
| PoolTheorems.IndexOrder | pool/pool.go:530-535 | Index order is submission order. |
| PoolTheorems.ResultErrsMeaning | pool/pool.go:623-629 | The errors taken from the results are distinct and exactly those of results with an error. |
| PoolTheorems.ErrorsConserved | pool/pool.go:318-346 | After Wait the errors of the results and the inner pool's errs are the same multiset. |
| PoolTheorems.ErrorsInIndexOrder | pool/pool.go:611-630 | Ordered Errors is that multiset arranged by claimed index. |
| PoolErrorOrder.OrdersDifferExactly | pool/pool.go:555-630 | For every tree, ordered or not, some run ends with Errors and the errors that Wait joins in different orders if and only if the limit is at least 2, there are at least two tasks, and Wait is called. |
| PoolErrorOrder.TwoCanDiffer | pool/pool.go:318-346 | The run, for any such tree: two tasks fail, and the second is the first to record its error. |
| PoolErrorOrder.RunSolo | pool/pool.go:294-346 | With one slot tasks are spawned, end and record in the order of their indices, along every run. |
| PoolErrorOrder.SoloAgrees | pool/pool.go:318-346 | So with one slot the two orders agree after every run. |
| PoolTheorems.CauseIsFirstError | pool/pool.go:336-345 | In a batch without outside cancellation the context is done if and only if the pool cancels on errors and errs is not empty, with the first entry as cause; any error cause is the first entry. |
| PoolTheorems.CauseIsFinal | pool/pool.go:339-343 | The first cause stays, an outside one included. |
| PoolTheorems.WaitReturnsTheCause | pool/pool.go:353-363 | With WithFirstError, Wait returns the cause that tasks saw. |
| PoolTheorems.StartedOnce | pool/pool.go:266-299 | No task is started twice, on its own goroutine or inline, and none runs without having been started. |
| PoolHistory.RefusedForAReason | pool/pool.go:243-277 | In every reachable state a task that was refused, even if its submitter then ran it, was submitted by TryGo at a moment when all n slots were taken, or by GoCtx with a context that was done while it asked; Go is never refused. |
| PoolTheorems.ResetStartsAfresh | pool/pool.go:372-377 | A Reset pool is in an initial state for another tree, with its configuration kept and indices and logs starting over. |
| PoolLiveness.StuckMeansDoneOrDeadlocked | pool/pool.go:243-254 | Nobody can move if and only if everything has finished, or all n tokens are held and every running node waits for one, for a child that it runs inline, or, as the owner, in Wait. |
| PoolLiveness.DeadlockCensus | pool/pool.go:82-87 | In a deadlock exactly n tasks hold tokens and exactly n wait to submit a child, one more if the owner runs a task inline. |
| PoolLiveness.DeadlockNeedsBlockers | pool/pool.go:82-87 | A deadlock needs n different tasks that submit through Go or GoCtx. |
| PoolLiveness.StepWorks | pool/pool.go:243-363 | Every action decreases a measure over the tasks and Wait calls still to come. |
| PoolLiveness.RunsEnd | pool/pool.go:243-363 | A run is no longer than the measure of its first state. |
| PoolLiveness.FewBlockersComplete | pool/pool.go:82-87 | Every run is finite and ends finished or deadlocked; with fewer than n tasks that submit through Go or GoCtx it ends finished. |
| PoolLiveness.FewNonLeavesComplete | pool/pool.go:82-87 | A tree with fewer than n tasks that have children always completes. |
| PoolLiveness.TryGoAlwaysCompletes | pool/pool.go:84-98 | When tasks submit children by TryGo only, every tree completes, for every limit. |
| PoolLiveness.FallbackRejectsNone | pool/pool.go:84-98 | Unless a caller drops a refused task or a GoCtx gives up, no task is ever left rejected. |
| PoolLiveness.FallbackRunsEveryTask | pool/pool.go:84-98 | With the inline fallback, when Wait has returned or everything has finished, every task that was reached has run to its end and was started exactly once, spawned or inline. |
| PoolLiveness.TryGoRunsEveryTask | pool/pool.go:84-98 | The documented pattern: with children submitted by TryGo and refused ones run inline, every run ends, for every limit, with every task that was reached having run exactly once. |
| PoolDeadlock.DeadlockNeedsChoice | pool/pool.go:82-87 | However tasks are submitted, a run that deadlocks shows n tasks, each with a child that it submits through Go or a live GoCtx, none of which is such a child or descends from one. |
| PoolDeadlock.PlanDeadlocks | pool/pool.go:243-254 | From every state of the plan for such tasks, some run fills the pool and goes on to the deadlock. |
| PoolDeadlock.FullDeadlocks | pool/pool.go:266-277 | In a full pool refused children are run inline down to a task that waits, until nobody can move. |
| PoolDeadlock.ChoiceDeadlocks | pool/pool.go:243-277 | From the start of a pool with such tasks, some run deadlocks, TryGo or not, unless a task that has to run for them is submitted through GoCtx with a context that is done from the start. |
| PoolDeadlock.NBlockersCanDeadlock | pool/pool.go:82-87 | The bound is sharp: for every n a tree with exactly n blocking submitters deadlocks. |
| PoolDeadlock.ChainCompletes | pool/pool.go:82-87 | A chain of only children, however deep, completes in a pool with two or more slots. |
| PoolDeadlock.ExpiredChoice | pool/pool.go:246-250 | Such a context can rule the deadlock out: a tree that has such tasks, and no run of which deadlocks. |
| PoolExact.DeadlockExactly | pool/pool.go:82-98 | For every tree the condition is necessary, and sufficient if it is met without done contexts or with a task that can be the last to start. So it is exact for all trees without done contexts, TryGo included; and with a last task it is exact for all trees without TryGo, whatever the contexts. |
| PoolExact.LastChoiceDeadlocks | pool/pool.go:243-254 | Whatever the contexts and ways of submission, n tasks of which one is submitted by the owner or another of them, and has none of them below it, can be run into a deadlock. |
| PoolExact.CutFits | pool/pool.go:243-254 | While all but the last of them are being started, running tasks stand for different ones of them, so a slot is free for every submission, done context or not. |
| PoolExact.DeadlockNeedsLast | pool/pool.go:243-254 | Without TryGo every run that deadlocks shows such tasks, and the last of them to start was submitted by the owner or by another of them. |
| Pools.Pool.constructor | pool/pool.go:69-77 | A new pool is an initial state. |
| Pools.Pool.Finish | pool/pool.go:536-552 | The function ends and its result is logged with its index. |
| Pools.Pool.Record | pool/pool.go:336-345 | Appends the error and cancels with it in one section; the first cause stays. |
| Pools.Pool.CancelPool | pool/pool.go:355-355 | Cancels; a context that is done keeps its cause. |
| Pools.Pool.ReadResults | pool/pool.go:561-578 | Sorts the results if ordered, and returns the errors and the values. |
| Pools.Pool.ValuesOf | pool/pool.go:573-577 | Copies the value of every result, in the order of the results. |
| Pools.Pool.Errors | pool/pool.go:611-630 | Returns the errors of the results in the order that Wait would return them, and changes nothing. |
| Pools.Pool.Reset | pool/pool.go:589-603 | Clears errors, results and index and derives a new context; after a Wait the object is in an initial state again. |
| Pools.Pool.Step | pool/pool.go:243-363 | Every atomic section takes exactly its protocol step and keeps the invariant. |
| Pools.Pool.Drive | pool/pool.go:243-363 | Under any scheduler the object's history is a run; a Wait that has returned has covered everything, answers the recorded errors, or the first, and the values that the tasks returned, and the two error logs agree. |

## Left out

- PoolExact.DeadlockExactly: for a tree with both `TryGo` submissions and `GoCtx` contexts that are done from the start, it gives a necessary and two sufficient conditions, which need not meet; what is possible there depends on other tasks filling the pool at the right moments.
- Package `daemon`, `conker.WaitGroup` and `OnceErr`: thin layers over the pool, `sync` and the catcher.
- Panic values and stack traces, `ElemError.Error`, `errors.Join`, `errors.Is` and `errors.As`: a panic is a token kept once.
- `WithTaskTimeout` and deadlines: cancellation may happen at any step instead.
- The adapters `Map`, `MapSeq2`, `MapMap`, `ForEachMap`, `MapErr` and their context forms, and `WithCapacity`: they only delegate or preallocate.
- Option builders, the panics on zero values and on late configuration, and the default limit.
- Fairness of the scheduler (none is needed), the Go memory model below atomic sections, and `runtime.Goexit`.
- Panics raised by the input sequence or by the consumer's loop body.
- Submitting to a stream from its own producers or callbacks, which `stream/stream.go:30-34` rules out.
- Several goroutines outside the pool that submit to it while `Wait` runs, or several concurrent `Wait` calls on a pool.
- A Wait of a stream that is not the first one: it returns at once, without waiting.
- Update of slices in place: a slice that only grows is a sequence field that is reassigned; only sorting works on an array.

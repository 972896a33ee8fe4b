# alive: the lifecycle coordinator, modelled in Dafny

The Go package `alive` coordinates graceful shutdown. An `Alive` value is
Running, Stopping or Finished. It counts in-flight tasks with a
`sync.WaitGroup`. It broadcasts two level-triggered signals, "stop requested"
and "finished", through single-slot buffered channels. `pull` on such a channel
takes the token and puts it back, so any number of observers see it.

This project models the coordinator as an immutable record. The concurrency is
abstracted away: the model treats each public call as one atomic step. In Go
only `Stop` and the part of `finish` after its `WaitTasks` (alive.go:111-122)
run under the mutex; `Add`, `Done`, `pull`, `Wait` and `finish` as a whole are
sequences of separate actions. The drain watcher
(`go self.finish()`) is a separately scheduled step. A blocking call is a
precondition on its step: `<-ch` needs a token and `WaitTasks` needs a zero
counter.

- `signal.dfy`, module `Signal`: a buffered `chan struct{}` as a token count
  and a capacity; `push` fills the buffer without blocking; `pull` receives
  and then pushes again.
- `lifecycle.dfy`, module `Lifecycle`: the state codes and `stateString`; the
  `Alive` record; the three failure kinds; `NewAlive`, `Add`, `Done`, the
  `Is*` queries, `Stop`, `finish`, the two pulls and `String`.
- `schedule.dfy`, module `Schedule`: the steps of all goroutines (`Op`), one
  `Step`, a `Run` over any sequence of steps, and the lemmas that hold for
  every sequence. These are the invariant, monotonic state, at most one
  watcher, task accounting and non-consuming observation.

A panic is a value in the model, and there are three kinds:
- `NotRunning` is caller misuse: `Add` after `Stop`.
- `BugState(state, site)` is an internal bug. It carries the arguments of
  `formatBugState`: an unknown state code, or `Done` in Finished. (With
  `Add`'s race, described under "## Left out", correct use can also reach
  `Done` in Finished.)
- `NegativeCounter` is the `sync.WaitGroup` panic when the counter would go
  below zero.

The state word is kept as a raw `uint32`, so the unknown-state branches exist
in the model. The lemmas prove that reachable records never take them.

The model follows alive.go:
- `Add` after `Stop` panics (alive.go:58).
- `Add` accepts any `int` delta, including zero and negative values.
- `Done` with a zero counter is `sync.WaitGroup`'s own panic, the failure
  `NegativeCounter`.

## Model

| member | source | states |
|---|---|---|
| Signal.MakeChan | alive.go:45-46 | a freshly made buffered channel (capacity at least 1) holds no token |
| Signal.Push | alive.go:77-86 | push never blocks and always leaves the buffer full, keeping its capacity; a full buffer is left as it was |
| Signal.Pull | alive.go:88-91 | pull needs a token (the receive blocks otherwise) and leaves the buffer full |
| Signal.PushIdempotent | alive.go:77-86 | pushing twice is the same as pushing once |
| Signal.PushFires | alive.go:77-86 | after a push into a channel of capacity at least 1, a receive no longer blocks |
| Signal.PullRestores | alive.go:88-91 | pulling a fired buffer that is full gives it back unchanged: observing does not consume the signal |
| Signal.PullSingleSlot | alive.go:88-91 | on a capacity-1 channel, every observation of a fired signal leaves it as it was |
| Signal.PushThenPull | alive.go:77-91 | once pushed, a signal can always be pulled, and the pull leaves it as the push did |
| Lifecycle.StateString | alive.go:16-26 | the name is "unknown!" exactly for codes other than the three states |
| Lifecycle.StateStringInjective | alive.go:16-26 | the three state names are distinct, so a name identifies its state |
| Lifecycle.NewAlive | alive.go:42-49 | the coordinator starts Running with zero tasks, both signals unfired, no watcher, and consistent |
| Lifecycle.CounterAdd | alive.go:55 | the task counter moves by delta and panics instead of going negative |
| Lifecycle.Add | alive.go:51-61 | Add succeeds exactly in Running when the counter stays non-negative, and then changes only the counter; in Stopping or Finished it is the NotRunning misuse; an unknown state is an internal bug tagged "Add" |
| Lifecycle.Done | alive.go:63-71 | Done in Running or Stopping decrements the counter and changes nothing else, or panics on a zero counter; in Finished or an unknown state it is an internal bug tagged "Done" |
| Lifecycle.Stop | alive.go:93-107 | from Running: Stopping, stop signal buffer full, one more watcher launched, tasks and finish signal untouched; from Stopping or Finished: the record unchanged; otherwise an internal bug tagged "Stop" |
| Lifecycle.Finish | alive.go:109-123 | after the tasks drain: from Stopping, Finished with the finish signal buffer full; from Finished, unchanged; from Running or an unknown state, an internal bug tagged "finish"; the watcher is no longer pending |
| Lifecycle.PullStop | alive.go:125-132 | an observer of the stop signal leaves it fired and leaves a consistent record unchanged |
| Lifecycle.PullFinish | alive.go:148-151 | Wait's pull of the finish signal leaves it fired and leaves a consistent record unchanged |
| Lifecycle.String | alive.go:153-157 | the string is "state=" followed by the state's name |
| Lifecycle.IsRunning | alive.go:73 | the state-code test that holds exactly when the state's name is "running"; ExactlyOneState gives its relation to the other two |
| Lifecycle.IsStopping | alive.go:74 | the state-code test that holds exactly when the state's name is "stopping"; ExactlyOneState gives its relation to the other two |
| Lifecycle.IsFinished | alive.go:75 | the state-code test that holds exactly when the state's name is "finished"; ExactlyOneState gives its relation to the other two |
| Lifecycle.ExactlyOneState | alive.go:73-75 | in a consistent record exactly one of IsRunning, IsStopping and IsFinished holds, each matching its string form |
| Lifecycle.StopIdempotent | alive.go:103-104 | on any of the three states, stopping twice equals stopping once, and a stopped record is left unchanged |
| Lifecycle.AddUndo | alive.go:51-61 | Add(delta) followed by Add(-delta) restores the record |
| Lifecycle.DoneUndoesAdd | alive.go:63-71 | in Running, Done undoes Add(1) |
| Lifecycle.FinishAfterStop | alive.go:113-121 | from a consistent stopping record with no tasks, finish succeeds, stays consistent, and leaves both signals fired |
| Schedule.Step | alive.go:51-123 | no step moves backward: state, fired signals and launched watchers only grow; a step blocks exactly when its channel is empty, tasks are pending, or no watcher is pending |
| Schedule.Run | alive.go:93-123 | over any sequence of steps, the state never goes backward and a fired signal stays fired |
| Schedule.StepTransitions | alive.go:98-119 | the only state changes are Stop taking Running to Stopping and the watcher taking Stopping to Finished |
| Schedule.StepConsistent | alive.go:93-123 | every step that happens preserves consistency |
| Schedule.RunConsistent | alive.go:93-123 | every run that does not panic or block preserves consistency |
| Schedule.Reachable | alive.go:42-123 | after any run from NewAlive: stop fired iff not Running, finish fired iff Finished, finish never without stop, Finished implies zero tasks, at most one watcher launched |
| Schedule.StepFailures | alive.go:51-123 | in a consistent record the only internal-bug panic is Done in Finished, and NotRunning is raised exactly by Add after a stop |
| Schedule.RunBugOnlyDoneAfterFinish | alive.go:51-123 | along any run from a consistent record, an internal-bug panic can only be Done on a finished coordinator |
| Schedule.RunCountsTasks | alive.go:51-71 | the counter equals the starting count plus the units added minus the Done calls |
| Schedule.WaitTasksIffBalanced | alive.go:144-146 | from NewAlive, WaitTasks returns exactly when every registered unit has been completed |
| Schedule.ObservableIff | alive.go:125-151 | in a consistent record the stop signal can be observed iff a stop was requested, and Wait returns iff Finished |
| Schedule.ObserveStopLeavesRecord | alive.go:88-91 | observing the stop signal after a stop leaves the coordinator unchanged |
| Schedule.ObserversDoNotConsume | alive.go:125-132 | any number of stop observers in a row all succeed and leave the coordinator unchanged |
| Schedule.LateObserver | alive.go:125-132 | an observer that starts after a stop, whatever ran in between, still sees it |
| Schedule.NoSecondWatcher | alive.go:98-104 | once stopped, no later step launches another drain watcher |
| Schedule.AddAfterStop | alive.go:57-58 | after any stop, Add fails with NotRunning however many tasks remain |
| Schedule.DoubleStop | alive.go:93-107 | two Stop calls reach the same record as one |
| Schedule.WaitRepeatable | alive.go:148-151 | Wait on a finished coordinator returns and changes nothing |
| Schedule.TasksScenario | alive_test.go:26-45 | Add(1) then Stop gives Stopping with "state=stopping"; then Done, the watcher and Wait give Finished with "state=finished" |
| Schedule.StopWaitScenario | alive_test.go:10-24 | stop-wait-stop and stop-stop-wait both end Finished, with one watcher |
| Schedule.AddAfterStopScenario | alive.go:57-58 | Stop followed by Add(1) panics with NotRunning |

## Left out

- Goroutines, the mutex and the atomics. Each public call is one atomic step and the drain watcher is a separately scheduled step. In the source, `Add` loads the state atomically but calls `wg.Add` outside the mutex, so a `Stop` between the two lets a task register after the stop. If the drain watcher has already passed its `WaitTasks`, the coordinator reaches Finished with that task pending. `Wait` returns before the task ends, and the task's `Done` panics with `BugState(2, "Done")` although the caller used the API correctly. The single-step model does not show that interleaving: `Schedule.Reachable`'s "Finished implies zero tasks" and `Schedule.AddAfterStop` hold only because each call is one step, and "`Done` in Finished is an internal bug" holds only in that model.
- Schedule.Reachable: "Finished implies zero tasks" covers only runs in which each call is one step. `Add`'s race, described above, breaks it in the source.
- Schedule.AddAfterStop: covers only runs in which each call is one step. An `Add` whose state load came before the `Stop` still registers its task.
- A Go caller can `recover()` the `NotRunning` panic of `Add` and keep using the coordinator. `Run` ends at the first failure instead. The panic at alive.go:58 comes before `wg.Add`, so the record is unchanged, and a recovered run equals the same run without that `Add`.
- `pull` and `Wait` are single steps. In the source the buffer is empty between the receive and the push-back, so concurrent observers wait for each other, and the signal/state invariant `Consistent` holds only between steps. `Done` likewise reads the state and then calls `wg.Done` outside the mutex. `finish` is one step too: its `WaitTasks` (alive.go:110) runs before the lock, and the `DrainWatcher` step fuses the two.
- The `StopChan` and `WaitChan` forwarding goroutines and their per-caller unbuffered channels. Only their `pull` of the shared channel is modelled, by the ObserveStop and AwaitFinish steps. Delivery to the per-caller channel is not modelled. In the source that channel is unbuffered and the forwarder `push`es into it, so only a receiver already blocked on it when the forwarder runs gets the token; a later receiver (the second `<-stopch` at alive_test.go:64) blocks forever. So ObserversDoNotConsume and LateObserver hold for the forwarder's `pull(chStop)`, not for a `StopChan` caller.
- Unbuffered channels: `Signal.Buffer` and `Signal.MakeChan` describe buffered channels only (capacity at least 1, the core uses 1).
- Blocking, liveness and timing. A blocked call is a step that is not enabled (`Blocked`); the model proves no progress guarantee.
- `sync.WaitGroup` internals. The counter is an unbounded natural number. Its 32-bit representation inside the WaitGroup, and the "Add called concurrently with Wait" misuse panic, are not modelled.
- Lifecycle.CounterAdd: does not model the int32 wrap-around of the WaitGroup counter for huge deltas, because the counter is a natural number.
- The text of `formatBugState`, which is built with `fmt.Sprintf`. The failure carries its arguments, the state code and the call site, instead.
- alive_test.go's benchmarks, and its use of `Add` as a function returning `bool`. The Go source has `Add` return nothing and panic after `Stop`; the model follows the source.

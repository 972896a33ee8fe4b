/**
 The `Alive` coordinator as an immutable record, with one pure function per
 operation. The model abstracts each call into one atomic step, although in
 Go only `Stop` and the part of `finish` after its `WaitTasks` run under the
 mutex. A call
 either yields the next record or a panic, and the panic is one of three
 distinct failures.
 */
module Lifecycle {
  import opened Signal

  /** Go's `uint32`, the type of the state word. */
  newtype u32 = x: int | 0 <= x < 0x1_0000_0000

  const StateRunning: u32 := 0
  const StateStopping: u32 := 1
  const StateFinished: u32 := 2

  /** The name of a state code; codes outside the three states are "unknown!". */
  function StateString(s: u32): (name: string)
    ensures name == "unknown!" <==> s > StateFinished
  {
    if s == StateRunning then "running"
    else if s == StateStopping then "stopping"
    else if s == StateFinished then "finished"
    else "unknown!"
  }

  /** Why a call panics. */
  datatype Failure =
    /** Caller misuse: `Add` after `Stop`. */
    | NotRunning
    /** Internal bug: the state word held `state` at call site `site`
        (the arguments of `formatBugState`). */
    | BugState(state: u32, site: string)
    /** `sync.WaitGroup`'s own panic: the counter would go negative. */
    | NegativeCounter

  datatype Result<T> = Ok(value: T) | Panic(failure: Failure)

  /** The coordinator. `tasks` is the `sync.WaitGroup` count; `watcherPending`
      stands for a `go self.finish()` that has not yet run, and
      `watchersLaunched` counts the `go self.finish()` statements executed. */
  datatype Alive = Alive(
    state: u32,
    tasks: nat,
    chStop: Buffer,
    chFinish: Buffer,
    watcherPending: bool,
    watchersLaunched: nat)

  /** The consistency every reachable record keeps: the state is one of the
      three, each signal is fired exactly when its transition has happened,
      a finished coordinator has no pending task, and one drain watcher has
      been launched, and is still pending, exactly while stopping. */
  predicate Consistent(a: Alive) {
    && a.state <= StateFinished
    && a.chStop.cap == 1 && a.chFinish.cap == 1
    && (Fired(a.chStop) <==> a.state != StateRunning)
    && (Fired(a.chFinish) <==> a.state == StateFinished)
    && (a.state == StateFinished ==> a.tasks == 0)
    && (a.watcherPending <==> a.state == StateStopping)
    && a.watchersLaunched == (if a.state == StateRunning then 0 else 1)
  }

  /** `NewAlive`: Running, no task, both single-slot signals unfired, no watcher. */
  function NewAlive(): (r: Alive)
    ensures Consistent(r)
    ensures r.state == StateRunning && r.tasks == 0
    ensures !Fired(r.chStop) && !Fired(r.chFinish)
    ensures r.watchersLaunched == 0
  {
    Alive(StateRunning, 0, MakeChan(1), MakeChan(1), false, 0)
  }

  /** `sync.WaitGroup.Add`: the counter moves by `delta`, and panics rather
      than go below zero. */
  function CounterAdd(n: nat, delta: int): (r: Result<nat>)
    ensures r.Ok? <==> n + delta >= 0
    ensures r.Ok? ==> r.value == n + delta
    ensures r.Panic? ==> r.failure == NegativeCounter
  {
    if n + delta < 0 then Panic(NegativeCounter) else Ok(n + delta)
  }

  /** `Add(delta)`: register tasks, legal only while running. */
  function Add(a: Alive, delta: int): (r: Result<Alive>)
    ensures r.Ok? <==> a.state == StateRunning && a.tasks + delta >= 0
    ensures r.Ok? ==> r.value == a.(tasks := a.tasks + delta)
    ensures r == Panic(NotRunning) <==> a.state == StateStopping || a.state == StateFinished
    ensures r == Panic(NegativeCounter) <==> a.state == StateRunning && a.tasks + delta < 0
    ensures r.Panic? && r.failure.BugState? <==> a.state > StateFinished
    ensures r.Panic? && r.failure.BugState? ==> r.failure == BugState(a.state, "Add")
  {
    if a.state == StateRunning then
      match CounterAdd(a.tasks, delta)
      case Ok(n) => Ok(a.(tasks := n))
      case Panic(f) => Panic(f)
    else if a.state == StateStopping || a.state == StateFinished then
      Panic(NotRunning)
    else
      Panic(BugState(a.state, "Add"))
  }

  /** `Done`: complete one task, legal while running or stopping. */
  function Done(a: Alive): (r: Result<Alive>)
    ensures r.Ok? <==> (a.state == StateRunning || a.state == StateStopping) && a.tasks >= 1
    ensures r.Ok? ==> r.value.tasks + 1 == a.tasks && r.value == a.(tasks := r.value.tasks)
    ensures r == Panic(NegativeCounter) <==> a.state <= StateStopping && a.tasks == 0
    ensures r.Panic? && r.failure.BugState? <==> a.state >= StateFinished
    ensures r.Panic? && r.failure.BugState? ==> r.failure == BugState(a.state, "Done")
  {
    if a.state == StateRunning || a.state == StateStopping then
      match CounterAdd(a.tasks, -1)
      case Ok(n) => Ok(a.(tasks := n))
      case Panic(f) => Panic(f)
    else
      Panic(BugState(a.state, "Done"))
  }

  /** `IsRunning`: the state word reads Running, the state `String` calls "running". */
  function IsRunning(a: Alive): (r: bool)
    ensures r <==> StateString(a.state) == "running"
  {
    a.state == StateRunning
  }

  /** `IsStopping`: the state word reads Stopping, the state `String` calls "stopping". */
  function IsStopping(a: Alive): (r: bool)
    ensures r <==> StateString(a.state) == "stopping"
  {
    a.state == StateStopping
  }

  /** `IsFinished`: the state word reads Finished, the state `String` calls "finished". */
  function IsFinished(a: Alive): (r: bool)
    ensures r <==> StateString(a.state) == "finished"
  {
    a.state == StateFinished
  }

  /** `Stop`: from Running, move to Stopping, fire the stop signal and launch
      the drain watcher; from Stopping or Finished, do nothing at all. */
  function Stop(a: Alive): (r: Result<Alive>)
    ensures r.Ok? <==> a.state <= StateFinished
    ensures r.Panic? ==> r.failure == BugState(a.state, "Stop")
    ensures r.Ok? && a.state != StateRunning ==> r.value == a
    ensures r.Ok? && a.state == StateRunning ==>
      && r.value.state == StateStopping
      && r.value.chStop.cap == a.chStop.cap
      && r.value.chStop.len == a.chStop.cap
      && r.value.watcherPending
      && r.value.watchersLaunched == a.watchersLaunched + 1
      && r.value.tasks == a.tasks && r.value.chFinish == a.chFinish
  {
    if a.state == StateRunning then
      Ok(a.(state := StateStopping, chStop := Push(a.chStop),
            watcherPending := true, watchersLaunched := a.watchersLaunched + 1))
    else if a.state == StateStopping || a.state == StateFinished then
      Ok(a)
    else
      Panic(BugState(a.state, "Stop"))
  }

  /** `WaitTasks` returns: the task counter is zero. */
  predicate TasksDrained(a: Alive) {
    a.tasks == 0
  }

  /** The body of the drain watcher after its `WaitTasks` has returned (hence
      the precondition): from Stopping, move to Finished and fire the finish
      signal; from Finished, do nothing. Either way the watcher exits. */
  function Finish(a: Alive): (r: Result<Alive>)
    requires TasksDrained(a)
    ensures r.Ok? <==> a.state == StateStopping || a.state == StateFinished
    ensures r.Panic? ==> r.failure == BugState(a.state, "finish")
    ensures r.Ok? ==> !r.value.watcherPending && r.value.state == StateFinished && r.value.tasks == 0
    ensures r.Ok? && a.state == StateFinished ==> r.value == a.(watcherPending := false)
    ensures r.Ok? && a.state == StateStopping ==>
      && r.value.chFinish.cap == a.chFinish.cap
      && r.value.chFinish.len == a.chFinish.cap
      && r.value.chStop == a.chStop
      && r.value.watchersLaunched == a.watchersLaunched
  {
    if a.state == StateFinished then
      Ok(a.(watcherPending := false))
    else if a.state == StateStopping then
      Ok(a.(state := StateFinished, chFinish := Push(a.chFinish), watcherPending := false))
    else
      Panic(BugState(a.state, "finish"))
  }

  /** An observer of the stop signal (`pull(chStop)` in `StopChan`'s
      forwarding goroutine) does not block. */
  predicate StopObservable(a: Alive) {
    Fired(a.chStop)
  }

  /** `Wait` (and `WaitChan`'s forwarding goroutine) does not block: no task
      is pending and the finish signal can be pulled. */
  predicate WaitReturns(a: Alive) {
    TasksDrained(a) && Fired(a.chFinish)
  }

  /** `pull(self.chStop)`: an observer takes the stop token and puts it back,
      so observing a consistent coordinator leaves it exactly as it was. */
  function PullStop(a: Alive): (r: Alive)
    requires StopObservable(a)
    ensures Fired(r.chStop) && r.chStop.cap == a.chStop.cap
    ensures Consistent(a) ==> r == a
  {
    PullRestores(a.chStop);
    a.(chStop := Pull(a.chStop))
  }

  /** `pull(self.chFinish)`, after `WaitTasks`: as for `PullStop`, the finish
      token is put back, so a consistent coordinator is left as it was. */
  function PullFinish(a: Alive): (r: Alive)
    requires WaitReturns(a)
    ensures Fired(r.chFinish) && r.chFinish.cap == a.chFinish.cap
    ensures Consistent(a) ==> r == a
  {
    PullRestores(a.chFinish);
    a.(chFinish := Pull(a.chFinish))
  }

  /** `String`: "state=" followed by the name of the state. */
  function String(a: Alive): (s: string)
    ensures |s| > 6 && s[..6] == "state="
    ensures s[6..] == StateString(a.state)
  {
    "state=" + StateString(a.state)
  }

  /** The three state names are distinct, so the name identifies the state. */
  lemma StateStringInjective(s: u32, t: u32)
    requires s <= StateFinished && t <= StateFinished
    ensures StateString(s) == StateString(t) <==> s == t
  {
  }

  /** In a consistent record exactly one of `IsRunning`, `IsStopping` and
      `IsFinished` holds, and `String` reports the same state. */
  lemma ExactlyOneState(a: Alive)
    requires Consistent(a)
    ensures IsRunning(a) || IsStopping(a) || IsFinished(a)
    ensures !(IsRunning(a) && IsStopping(a)) && !(IsRunning(a) && IsFinished(a))
    ensures !(IsStopping(a) && IsFinished(a))
    ensures IsRunning(a) <==> String(a) == "state=running"
    ensures IsStopping(a) <==> String(a) == "state=stopping"
    ensures IsFinished(a) <==> String(a) == "state=finished"
  {
    assert String(a)[6..] == StateString(a.state);
  }

  /** `Stop` is idempotent: on any of the three states, stopping twice leaves
      the same record as stopping once, and stopping a stopped record changes
      nothing. */
  lemma StopIdempotent(a: Alive)
    requires a.state <= StateFinished
    ensures Stop(a).Ok? && Stop(Stop(a).value) == Stop(a)
    ensures a.state != StateRunning ==> Stop(a) == Ok(a)
  {
  }

  /** Adding `delta` tasks and then `-delta` restores the record. */
  lemma AddUndo(a: Alive, delta: int)
    requires Add(a, delta).Ok?
    ensures Add(Add(a, delta).value, -delta) == Ok(a)
  {
  }

  /** `Done` undoes `Add(1)` while running. */
  lemma DoneUndoesAdd(a: Alive)
    requires a.state == StateRunning
    ensures Add(a, 1).Ok? && Done(Add(a, 1).value) == Ok(a)
  {
  }

  /** Draining can fire the finish signal only after the stop signal: from a
      consistent stopping record `Finish` leaves both fired, with no pending
      task and no pending watcher. */
  lemma FinishAfterStop(a: Alive)
    requires Consistent(a) && a.state == StateStopping && TasksDrained(a)
    ensures Finish(a).Ok?
    ensures Consistent(Finish(a).value)
    ensures Fired(Finish(a).value.chStop) && Fired(Finish(a).value.chFinish)
  {
  }
}

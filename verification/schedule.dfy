/**
 Interleavings of the coordinator's atomic steps. A step is a public call, the
 scheduled run of the drain watcher, or an observer pulling a signal. A step
 that would block (a receive from an empty channel, `WaitTasks` with tasks
 pending, a watcher that was never launched) is `Blocked`: a scheduler never
 picks it. The lemmas quantify over every sequence of steps.
 */
module Schedule {
  import opened Signal
  import opened Lifecycle

  /** One atomic step of some goroutine. */
  datatype Op =
    /** `Add(delta)` */
    | AddTasks(delta: int)
    /** `Done()` */
    | DoneTask
    /** `Stop()` */
    | RequestStop
    /** the `go self.finish()` goroutine runs to completion */
    | DrainWatcher
    /** `pull(chStop)`, as `StopChan`'s forwarding goroutine does */
    | ObserveStop
    /** `Wait()`: `WaitTasks()`, then `pull(chFinish)` (also `WaitChan`'s goroutine) */
    | AwaitFinish

  datatype Outcome = Next(after: Alive) | Fail(failure: Failure) | Blocked

  function Lift(r: Result<Alive>): (o: Outcome)
    ensures !o.Blocked?
  {
    match r
    case Ok(b) => Next(b)
    case Panic(f) => Fail(f)
  }

  /** No step moves the coordinator backward: the state code never decreases,
      a fired signal stays fired, channel capacities never change and launched
      watchers stay counted. */
  predicate Progress(a: Alive, b: Alive) {
    && a.state <= b.state
    && a.chStop.cap == b.chStop.cap && a.chFinish.cap == b.chFinish.cap
    && (Fired(a.chStop) ==> Fired(b.chStop))
    && (Fired(a.chFinish) ==> Fired(b.chFinish))
    && a.watchersLaunched <= b.watchersLaunched
  }

  function Step(a: Alive, op: Op): (o: Outcome)
    ensures o.Next? ==> Progress(a, o.after)
    ensures o.Blocked? <==>
      || (op.DrainWatcher? && !(a.watcherPending && TasksDrained(a)))
      || (op.ObserveStop? && !StopObservable(a))
      || (op.AwaitFinish? && !WaitReturns(a))
  {
    match op
    case AddTasks(delta) => Lift(Add(a, delta))
    case DoneTask => Lift(Done(a))
    case RequestStop => Lift(Stop(a))
    case DrainWatcher =>
      if a.watcherPending && TasksDrained(a) then Lift(Finish(a)) else Blocked
    case ObserveStop =>
      if StopObservable(a) then Next(PullStop(a)) else Blocked
    case AwaitFinish =>
      if WaitReturns(a) then Next(PullFinish(a)) else Blocked
  }

  /** Run the steps in order; the first panic or block ends the run. */
  function Run(a: Alive, ops: seq<Op>): (o: Outcome)
    ensures o.Next? ==> Progress(a, o.after)
    decreases |ops|
  {
    if |ops| == 0 then Next(a)
    else
      match Step(a, ops[0])
      case Next(b) => Run(b, ops[1..])
      case other => other
  }

  /** Only two transitions exist: `Stop` takes Running to Stopping and the
      drain watcher takes Stopping to Finished. */
  lemma StepTransitions(a: Alive, op: Op)
    requires Step(a, op).Next? && Step(a, op).after.state != a.state
    ensures
      || (op == RequestStop && a.state == StateRunning && Step(a, op).after.state == StateStopping)
      || (op == DrainWatcher && a.state == StateStopping && Step(a, op).after.state == StateFinished)
  {
  }

  /** Every step that happens keeps the record consistent. */
  lemma StepConsistent(a: Alive, op: Op)
    requires Consistent(a)
    ensures Step(a, op).Next? ==> Consistent(Step(a, op).after)
  {
    match op
    case RequestStop => if a.state == StateRunning { PushFires(a.chStop); }
    case DrainWatcher => if a.state == StateStopping { PushFires(a.chFinish); }
    case _ =>
  }

  /** Every run that does not panic or block keeps the record consistent. */
  lemma {:induction false} RunConsistent(a: Alive, ops: seq<Op>)
    requires Consistent(a) && Run(a, ops).Next?
    ensures Consistent(Run(a, ops).after)
    decreases |ops|
  {
    if |ops| > 0 {
      StepConsistent(a, ops[0]);
      RunConsistent(Step(a, ops[0]).after, ops[1..]);
    }
  }

  /** What holds after every reachable sequence of steps from `NewAlive`:
      the signals mirror the state, finish is never fired without stop, a
      finished coordinator has no pending task, and at most one drain
      watcher was ever launched. */
  lemma Reachable(ops: seq<Op>)
    requires Run(NewAlive(), ops).Next?
    ensures var b := Run(NewAlive(), ops).after;
      && Consistent(b)
      && (Fired(b.chStop) <==> b.state != StateRunning)
      && (Fired(b.chFinish) <==> b.state == StateFinished)
      && (Fired(b.chFinish) ==> Fired(b.chStop))
      && (b.state == StateFinished ==> b.tasks == 0)
      && b.watchersLaunched <= 1
  {
    RunConsistent(NewAlive(), ops);
  }

  /** In a consistent record the only internal-bug panic a step can raise is
      `Done` in Finished; `NotRunning` is raised exactly by `Add` after a stop. */
  lemma StepFailures(a: Alive, op: Op)
    requires Consistent(a)
    ensures Step(a, op).Fail? && Step(a, op).failure.BugState? <==>
      op == DoneTask && a.state == StateFinished
    ensures Step(a, op).Fail? && Step(a, op).failure.BugState? ==>
      Step(a, op).failure == BugState(StateFinished, "Done")
    ensures Step(a, op) == Fail(NotRunning) <==> op.AddTasks? && a.state != StateRunning
  {
  }

  /** A run from a consistent record panics with an internal bug only through
      `Done` on a finished coordinator; `Add`, `Stop` and the drain watcher
      never see an unknown state. */
  lemma {:induction false} RunBugOnlyDoneAfterFinish(a: Alive, ops: seq<Op>)
    requires Consistent(a) && Run(a, ops).Fail? && Run(a, ops).failure.BugState?
    ensures Run(a, ops).failure == BugState(StateFinished, "Done")
    decreases |ops|
  {
    StepFailures(a, ops[0]);
    if Step(a, ops[0]).Next? {
      StepConsistent(a, ops[0]);
      RunBugOnlyDoneAfterFinish(Step(a, ops[0]).after, ops[1..]);
    }
  }

  /** The sum of the deltas of every `Add` step in the sequence. For a run
      that neither panics nor blocks, every `Add` in it succeeded, so this is
      the number of units the run registered. */
  function Registered(ops: seq<Op>): int
  {
    if |ops| == 0 then 0
    else (if ops[0].AddTasks? then ops[0].delta else 0) + Registered(ops[1..])
  }

  /** The number of `Done` steps of a run. */
  function Completed(ops: seq<Op>): nat
  {
    if |ops| == 0 then 0
    else (if ops[0] == DoneTask then 1 else 0) + Completed(ops[1..])
  }

  /** The task counter is what was registered minus what was completed. */
  lemma {:induction false} RunCountsTasks(a: Alive, ops: seq<Op>)
    requires Run(a, ops).Next?
    ensures Run(a, ops).after.tasks == a.tasks + Registered(ops) - Completed(ops)
    decreases |ops|
  {
    if |ops| > 0 {
      RunCountsTasks(Step(a, ops[0]).after, ops[1..]);
    }
  }

  /** From `NewAlive`, `WaitTasks` returns exactly when every registered unit
      has been completed. */
  lemma WaitTasksIffBalanced(ops: seq<Op>)
    requires Run(NewAlive(), ops).Next?
    ensures TasksDrained(Run(NewAlive(), ops).after) <==> Registered(ops) == Completed(ops)
  {
    RunCountsTasks(NewAlive(), ops);
  }

  /** In a consistent record, the stop signal can be observed exactly when a
      stop has been requested, and `Wait` returns exactly when finished. */
  lemma ObservableIff(a: Alive)
    requires Consistent(a)
    ensures Step(a, ObserveStop).Next? <==> a.state != StateRunning
    ensures Step(a, AwaitFinish).Next? <==> a.state == StateFinished
  {
    ObserveStopEnabled(a);
    AwaitFinishEnabled(a);
  }

  /** The stop observer runs exactly when the stop channel holds a token. */
  lemma ObserveStopEnabled(a: Alive)
    ensures Step(a, ObserveStop).Next? <==> StopObservable(a)
  {
  }

  /** `Wait` returns exactly when no task is pending and the finish channel holds a token. */
  lemma AwaitFinishEnabled(a: Alive)
    ensures Step(a, AwaitFinish).Next? <==> WaitReturns(a)
  {
  }

  /** `n` observers of the stop signal, `n` steps. */
  function Observers(n: nat): (ops: seq<Op>)
    ensures |ops| == n && forall i :: 0 <= i < n ==> ops[i] == ObserveStop
  {
    seq(n, _ => ObserveStop)
  }

  /** Observing never consumes the signal: after a stop, any number of
      observers each see it and leave the coordinator exactly as it was. */
  lemma {:induction false} ObserversDoNotConsume(a: Alive, n: nat)
    requires Consistent(a) && a.state != StateRunning
    ensures Run(a, Observers(n)) == Next(a)
    decreases n
  {
    if n > 0 {
      var ops := Observers(n);
      ObserveStopLeavesRecord(a);
      assert ops[1..] == Observers(n - 1);
      ObserversDoNotConsume(a, n - 1);
    }
  }

  /** One observation of a fired stop signal leaves the record as it was. */
  lemma ObserveStopLeavesRecord(b: Alive)
    requires Consistent(b) && b.state != StateRunning
    ensures Step(b, ObserveStop) == Next(b)
  {
  }

  /** No observer misses a stop that happened before it started observing:
      whatever runs after the stop, the stop signal can still be pulled. */
  lemma LateObserver(a: Alive, ops: seq<Op>)
    requires Consistent(a) && a.state != StateRunning && Run(a, ops).Next?
    ensures Step(Run(a, ops).after, ObserveStop) == Next(Run(a, ops).after)
  {
    RunConsistent(a, ops);
    ObserveStopLeavesRecord(Run(a, ops).after);
  }

  /** After a stop, no further step launches a drain watcher. */
  lemma {:induction false} NoSecondWatcher(a: Alive, ops: seq<Op>)
    requires Consistent(a) && a.state != StateRunning && Run(a, ops).Next?
    ensures Run(a, ops).after.watchersLaunched == a.watchersLaunched
    decreases |ops|
  {
    if |ops| > 0 {
      StepConsistent(a, ops[0]);
      NoSecondWatcher(Step(a, ops[0]).after, ops[1..]);
    }
  }

  /** `Add` after any stop fails with `NotRunning`, however many tasks remain. */
  lemma AddAfterStop(ops: seq<Op>, delta: int)
    requires Run(NewAlive(), ops).Next? && Run(NewAlive(), ops).after.state != StateRunning
    ensures Step(Run(NewAlive(), ops).after, AddTasks(delta)) == Fail(NotRunning)
  {
    Reachable(ops);
  }

  /** Two `Stop` calls reach the same record as one. */
  lemma DoubleStop(a: Alive)
    requires Consistent(a)
    ensures Run(a, [RequestStop, RequestStop]) == Run(a, [RequestStop])
  {
    StopIdempotent(a);
    assert [RequestStop, RequestStop][1..] == [RequestStop];
  }

  /** A task registered before the stop: the coordinator is stopping while the
      task runs, and once it is done the watcher finishes and `Wait` returns
      with the string form "state=finished". */
  lemma TasksScenario()
    ensures var r := Run(NewAlive(), [AddTasks(1), RequestStop]);
      && r.Next? && IsStopping(r.after) && String(r.after) == "state=stopping"
    ensures var r := Run(NewAlive(), [AddTasks(1), RequestStop, DoneTask, DrainWatcher, AwaitFinish]);
      && r.Next? && IsFinished(r.after) && String(r.after) == "state=finished"
  {
  }

  /** `Wait` on a finished coordinator returns and changes nothing, so it can
      be called again and again. */
  lemma WaitRepeatable(a: Alive)
    requires Consistent(a) && a.state == StateFinished
    ensures Step(a, AwaitFinish) == Next(a)
  {
  }

  /** Stop, wait, stop again; and stop twice, then wait: both finish. */
  lemma StopWaitScenario()
    ensures var r := Run(NewAlive(), [RequestStop, DrainWatcher, AwaitFinish, RequestStop]);
      r.Next? && IsFinished(r.after) && r.after.watchersLaunched == 1
    ensures var r := Run(NewAlive(), [RequestStop, RequestStop, DrainWatcher, AwaitFinish]);
      r.Next? && IsFinished(r.after) && r.after.watchersLaunched == 1
  {
  }

  /** A `Stop` followed by `Add(1)` panics with the misuse failure. */
  lemma AddAfterStopScenario()
    ensures Run(NewAlive(), [RequestStop, AddTasks(1)]) == Fail(NotRunning)
  {
  }
}

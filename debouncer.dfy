/**
 * The per-key debounce scheduler (Debouncer.java): a single-thread scheduled
 * executor plus a map from key to the one delayed task pending under that key.
 *
 * Time is abstract (a clock in milliseconds that only moves forward by Tick), and the
 * worker thread's life is made of explicit steps: a task starts when it is due, not
 * cancelled, the executor is not shut down and the single worker is idle; it finishes
 * later, and finishing (normally or by an exception, through the `finally`) removes
 * whatever entry is mapped under that task's key.
 */
module Debouncing {
  import opened Wrappers

  /** Where a scheduled task is: in the executor's queue, on the worker, or done. */
  datatype Phase = Waiting | Running | Completed

  /** One ScheduledFuture: the key it was scheduled under, the runnable, when it is due. */
  datatype Task<R> = Task(key: string, runnable: R, due: int, cancelled: bool, phase: Phase)

  /**
   * The scheduler's state. Task ids are positions in `tasks`, which holds every task
   * ever handed to the executor; `delayedMap` maps a key to a task id;
   * `terminated` records that shutdownNow has been called.
   */
  datatype Sched<R> = Sched(now: int, tasks: seq<Task<R>>, delayedMap: map<string, nat>, terminated: bool)

  /** A task that may still run: queued and not cancelled. */
  predicate Live<R>(t: Task<R>) {
    t.phase == Waiting && !t.cancelled
  }

  /**
   * What every reachable state satisfies: the map points at existing tasks of the
   * same key that have not completed, and the single worker runs at most one task.
   */
  predicate Wf<R>(s: Sched<R>) {
    && (forall k :: k in s.delayedMap ==> s.delayedMap[k] < |s.tasks|)
    && (forall k :: k in s.delayedMap ==>
          s.tasks[s.delayedMap[k]].key == k && s.tasks[s.delayedMap[k]].phase != Completed)
    && (forall i, j :: 0 <= i < j < |s.tasks| && s.tasks[i].phase == Running ==> s.tasks[j].phase != Running)
  }

  predicate NoneRunning<R>(s: Sched<R>) {
    forall i :: 0 <= i < |s.tasks| ==> s.tasks[i].phase != Running
  }

  /** The state of a freshly constructed Debouncer. */
  function Init<R>(): (s: Sched<R>)
    ensures Wf(s) && NoneRunning(s) && s.delayedMap == map[]
    ensures s.tasks == [] && !s.terminated && s.now == 0
  {
    Sched(0, [], map[], false)
  }

  /** Future.cancel(true): it succeeds unless that task has already completed. */
  function CancelFuture<R>(ts: seq<Task<R>>, id: nat): (r: seq<Task<R>>)
    requires id < |ts|
    ensures |r| == |ts| && r[id].cancelled == (ts[id].cancelled || ts[id].phase != Completed)
    ensures r[id] == ts[id].(cancelled := r[id].cancelled)
    ensures forall i :: 0 <= i < |ts| && i != id ==> r[i] == ts[i]
  {
    ts[id := ts[id].(cancelled := ts[id].cancelled || ts[id].phase != Completed)]
  }

  /**
   * debounce(key, runnable, delay): schedule the wrapper on the executor, put it in
   * the map under key, and cancel the future the map held before. Once the executor
   * is shut down, schedule() throws RejectedExecutionException before the map is
   * touched, so the state is unchanged.
   */
  function AfterDebounce<R>(s: Sched<R>, key: string, runnable: R, delay: nat): (s': Sched<R>)
    requires Wf(s)
    ensures Wf(s')
    ensures s.terminated ==> s' == s
    ensures !s.terminated ==>
      && |s'.tasks| == |s.tasks| + 1
      && s'.tasks[|s.tasks|] == Task(key, runnable, s.now + delay, false, Waiting)
      && key in s'.delayedMap && s'.delayedMap[key] == |s.tasks|
    ensures !s.terminated && key in s.delayedMap ==> s'.tasks[s.delayedMap[key]].cancelled
    ensures forall k :: k != key ==>
      (k in s'.delayedMap <==> k in s.delayedMap) && (k in s.delayedMap ==> s'.delayedMap[k] == s.delayedMap[k])
    ensures forall i :: 0 <= i < |s.tasks| ==>
      s'.tasks[i] == if key in s.delayedMap && i == s.delayedMap[key] && !s.terminated
                     then s.tasks[i].(cancelled := true) else s.tasks[i]
    ensures s'.now == s.now && s'.terminated == s.terminated
  {
    if s.terminated then s
    else
      var id := |s.tasks|;
      var ts := s.tasks + [Task(key, runnable, s.now + delay, false, Waiting)];
      var ts' := if key in s.delayedMap then CancelFuture(ts, s.delayedMap[key]) else ts;
      s.(tasks := ts', delayedMap := s.delayedMap[key := id])
  }

  /** The executor may start a task that is due, not cancelled, while its one worker is idle. */
  predicate CanStart<R>(s: Sched<R>, id: nat) {
    && !s.terminated
    && id < |s.tasks|
    && Live(s.tasks[id])
    && s.tasks[id].due <= s.now
    && NoneRunning(s)
  }

  /** The worker picks a task up and begins `runnable.run()`. */
  function AfterStart<R>(s: Sched<R>, id: nat): (s': Sched<R>)
    requires Wf(s) && CanStart(s, id)
    ensures Wf(s') && |s'.tasks| == |s.tasks|
    ensures s'.tasks[id] == s.tasks[id].(phase := Running)
    ensures forall i :: 0 <= i < |s.tasks| && i != id ==> s'.tasks[i].phase != Running
    ensures forall i :: 0 <= i < |s.tasks| && i != id ==> s'.tasks[i] == s.tasks[i]
    ensures s'.delayedMap == s.delayedMap
    ensures s'.now == s.now && s'.terminated == s.terminated
  {
    s.(tasks := s.tasks[id := s.tasks[id].(phase := Running)])
  }

  predicate CanFinish<R>(s: Sched<R>, id: nat) {
    id < |s.tasks| && s.tasks[id].phase == Running
  }

  /**
   * `runnable.run()` returns or throws; either way the `finally` removes the map's
   * entry for that task's key, whichever task that entry names.
   */
  function AfterFinish<R>(s: Sched<R>, id: nat): (s': Sched<R>)
    requires Wf(s) && CanFinish(s, id)
    ensures Wf(s') && NoneRunning(s') && |s'.tasks| == |s.tasks|
    ensures s'.tasks[id] == s.tasks[id].(phase := Completed)
    ensures forall i :: 0 <= i < |s.tasks| && i != id ==> s'.tasks[i] == s.tasks[i]
    ensures s.tasks[id].key !in s'.delayedMap
    ensures forall k :: k != s.tasks[id].key ==>
      (k in s'.delayedMap <==> k in s.delayedMap) && (k in s.delayedMap ==> s'.delayedMap[k] == s.delayedMap[k])
    ensures s'.now == s.now && s'.terminated == s.terminated
  {
    s.(tasks := s.tasks[id := s.tasks[id].(phase := Completed)],
       delayedMap := s.delayedMap - {s.tasks[id].key})
  }

  /** shutdownNow: queued tasks are dropped; the map is left as it was. */
  function AfterShutdown<R>(s: Sched<R>): (s': Sched<R>)
    requires Wf(s)
    ensures Wf(s') && s'.terminated
    ensures s'.tasks == s.tasks && s'.delayedMap == s.delayedMap && s'.now == s.now
  {
    s.(terminated := true)
  }

  /** The clock moves forward. */
  function AfterTick<R>(s: Sched<R>, dt: nat): (s': Sched<R>)
    requires Wf(s)
    ensures Wf(s') && s'.now == s.now + dt
    ensures s'.tasks == s.tasks && s'.delayedMap == s.delayedMap && s'.terminated == s.terminated
  {
    s.(now := s.now + dt)
  }

  // ------------------------------------------------------------ runs of steps

  datatype Step<R> =
    | DebounceStep(key: string, runnable: R, delay: nat)
    | StartStep(id: nat)
    | FinishStep(id: nat)
    | ShutdownStep
    | TickStep(dt: nat)

  predicate Enabled<R>(s: Sched<R>, step: Step<R>) {
    match step
    case StartStep(id) => CanStart(s, id)
    case FinishStep(id) => CanFinish(s, id)
    case _ => true
  }

  function Next<R>(s: Sched<R>, step: Step<R>): (s': Sched<R>)
    requires Wf(s) && Enabled(s, step)
    ensures Wf(s') && |s'.tasks| >= |s.tasks|
  {
    match step
    case DebounceStep(key, r, delay) => AfterDebounce(s, key, r, delay)
    case StartStep(id) => AfterStart(s, id)
    case FinishStep(id) => AfterFinish(s, id)
    case ShutdownStep => AfterShutdown(s)
    case TickStep(dt) => AfterTick(s, dt)
  }

  /** The state after a sequence of steps, or None when some step is not enabled. */
  function Execute<R>(s: Sched<R>, steps: seq<Step<R>>): (r: Option<Sched<R>>)
    requires Wf(s)
    ensures r.Some? ==> Wf(r.value) && |r.value.tasks| >= |s.tasks|
    decreases |steps|
  {
    if steps == [] then Some(s)
    else if !Enabled(s, steps[0]) then None
    else Execute(Next(s, steps[0]), steps[1..])
  }

  /** Running an enabled step first, then the rest. */
  lemma ExecuteCons<R>(s: Sched<R>, step: Step<R>, rest: seq<Step<R>>)
    requires Wf(s) && Enabled(s, step)
    ensures Execute(s, [step] + rest) == Execute(Next(s, step), rest)
  {
    assert ([step] + rest)[1..] == rest;
  }

  lemma ExecuteOne<R>(s: Sched<R>, step: Step<R>)
    requires Wf(s) && Enabled(s, step)
    ensures Execute(s, [step]) == Some(Next(s, step))
  {
    ExecuteCons(s, step, []);
    assert [step] + [] == [step];
  }

  function Rank(p: Phase): nat {
    match p
    case Waiting => 0
    case Running => 1
    case Completed => 2
  }

  /**
   * How one task may change between two states: its key, runnable and due time are
   * fixed, cancellation is never undone, the phase only moves forward, and a task that
   * is cancelled (or whose executor is shut down) while queued stays queued.
   */
  ghost predicate Evolves<R>(t: Task<R>, t': Task<R>, terminated: bool) {
    && t'.key == t.key && t'.runnable == t.runnable && t'.due == t.due
    && (t.cancelled ==> t'.cancelled)
    && Rank(t.phase) <= Rank(t'.phase)
    && (t.phase == Waiting && (t.cancelled || terminated) ==> t'.phase == Waiting)
  }

  /** s' can follow s: tasks are only added, each existing task evolves, shutdown is final. */
  ghost predicate Later<R>(s: Sched<R>, s': Sched<R>) {
    && |s.tasks| <= |s'.tasks|
    && (s.terminated ==> s'.terminated && |s'.tasks| == |s.tasks|)
    && forall i :: 0 <= i < |s.tasks| ==> Evolves(s.tasks[i], s'.tasks[i], s.terminated)
  }

  lemma NextIsLater<R>(s: Sched<R>, step: Step<R>)
    requires Wf(s) && Enabled(s, step)
    ensures Later(s, Next(s, step))
  {
  }

  lemma LaterTransitive<R>(s1: Sched<R>, s2: Sched<R>, s3: Sched<R>)
    requires Later(s1, s2) && Later(s2, s3)
    ensures Later(s1, s3)
  {
    forall i | 0 <= i < |s1.tasks|
      ensures Evolves(s1.tasks[i], s3.tasks[i], s1.terminated)
    {
      assert Evolves(s1.tasks[i], s2.tasks[i], s1.terminated);
      assert Evolves(s2.tasks[i], s3.tasks[i], s2.terminated);
    }
  }

  /** Every run of steps leads to a later state. */
  lemma {:induction false} ExecuteIsLater<R>(s: Sched<R>, steps: seq<Step<R>>)
    requires Wf(s) && Execute(s, steps).Some?
    ensures Later(s, Execute(s, steps).value)
    decreases |steps|
  {
    if steps != [] {
      var s1 := Next(s, steps[0]);
      NextIsLater(s, steps[0]);
      ExecuteIsLater(s1, steps[1..]);
      LaterTransitive(s, s1, Execute(s, steps).value);
    }
  }

  /** A cancelled task that has not started never starts, whatever happens next. */
  lemma CancelledNeverRuns<R>(s: Sched<R>, steps: seq<Step<R>>, id: nat)
    requires Wf(s) && Execute(s, steps).Some?
    requires id < |s.tasks| && s.tasks[id].phase == Waiting && s.tasks[id].cancelled
    ensures Execute(s, steps).value.tasks[id].phase == Waiting
  {
    ExecuteIsLater(s, steps);
    assert Evolves(s.tasks[id], Execute(s, steps).value.tasks[id], s.terminated);
  }

  /** After shutdown no queued task ever starts and no new task is accepted. */
  lemma ShutdownIsFinal<R>(s: Sched<R>, steps: seq<Step<R>>)
    requires Wf(s) && Execute(AfterShutdown(s), steps).Some?
    ensures var s' := Execute(AfterShutdown(s), steps).value;
      && s'.terminated && |s'.tasks| == |s.tasks|
      && forall i :: 0 <= i < |s.tasks| && s.tasks[i].phase == Waiting ==> s'.tasks[i].phase == Waiting
  {
    var s0 := AfterShutdown(s);
    ExecuteIsLater(s0, steps);
    var s' := Execute(s0, steps).value;
    forall i | 0 <= i < |s.tasks| && s.tasks[i].phase == Waiting
      ensures s'.tasks[i].phase == Waiting
    {
      assert Evolves(s0.tasks[i], s'.tasks[i], s0.terminated);
    }
  }

  /** A task runs at most once: once it has left the queue it never starts again. */
  lemma StartsAtMostOnce<R>(s: Sched<R>, steps: seq<Step<R>>, id: nat)
    requires Wf(s) && Execute(s, steps).Some?
    requires id < |s.tasks| && s.tasks[id].phase != Waiting
    ensures !CanStart(Execute(s, steps).value, id)
  {
    ExecuteIsLater(s, steps);
    assert Evolves(s.tasks[id], Execute(s, steps).value.tasks[id], s.terminated);
  }

  // ------------------------------------------------------------ coalescing

  /** debounce(key, rs[0], delay); ...; debounce(key, rs[|rs|-1], delay) with nothing in between. */
  function DebounceAll<R>(s: Sched<R>, key: string, rs: seq<R>, delay: nat): (s': Sched<R>)
    requires Wf(s)
    ensures Wf(s') && s'.terminated == s.terminated
    ensures !s.terminated ==> |s'.tasks| == |s.tasks| + |rs|
    decreases |rs|
  {
    if rs == [] then s
    else AfterDebounce(DebounceAll(s, key, rs[..|rs| - 1], delay), key, rs[|rs| - 1], delay)
  }

  /**
   * What a burst of debounces under one key leaves behind: the last runnable mapped and
   * live, every earlier one of the burst cancelled, and of the older tasks only the one
   * mapped under the key changed (it is cancelled).
   */
  ghost predicate Coalesced<R>(s: Sched<R>, s': Sched<R>, key: string, rs: seq<R>, delay: nat)
    requires |rs| > 0
  {
    && |s'.tasks| == |s.tasks| + |rs|
    && key in s'.delayedMap && s'.delayedMap[key] == |s'.tasks| - 1
    && s'.tasks[|s'.tasks| - 1] == Task(key, rs[|rs| - 1], s.now + delay, false, Waiting)
    && (forall i :: |s.tasks| <= i < |s'.tasks| - 1 ==>
          s'.tasks[i] == Task(key, rs[i - |s.tasks|], s.now + delay, true, Waiting))
    && (forall i :: 0 <= i < |s.tasks| ==>
          s'.tasks[i] == if key in s.delayedMap && i == s.delayedMap[key]
                         then s.tasks[i].(cancelled := true) else s.tasks[i])
    && !s'.terminated && s'.now == s.now
  }

  lemma {:induction false} Coalesce<R>(s: Sched<R>, key: string, rs: seq<R>, delay: nat)
    requires Wf(s) && !s.terminated && |rs| > 0
    ensures Coalesced(s, DebounceAll(s, key, rs, delay), key, rs, delay)
    decreases |rs|
  {
    var n := |rs|;
    if n > 1 {
      var init := rs[..n - 1];
      Coalesce(s, key, init, delay);
      CoalesceStep(s, DebounceAll(s, key, init, delay), key, rs, delay);
    } else {
      assert rs[..0] == [];
    }
  }

  /** One more debounce of the key extends what a burst leaves behind. */
  lemma CoalesceStep<R>(s: Sched<R>, p: Sched<R>, key: string, rs: seq<R>, delay: nat)
    requires Wf(s) && Wf(p) && |rs| > 1
    requires Coalesced(s, p, key, rs[..|rs| - 1], delay)
    ensures Coalesced(s, AfterDebounce(p, key, rs[|rs| - 1], delay), key, rs, delay)
  {
    var s' := AfterDebounce(p, key, rs[|rs| - 1], delay);
    assert !p.terminated && |p.tasks| == |s.tasks| + |rs| - 1;
    assert |s'.tasks| == |s.tasks| + |rs| && s'.delayedMap[key] == |s'.tasks| - 1;
    assert s'.tasks[|s'.tasks| - 1] == Task(key, rs[|rs| - 1], s.now + delay, false, Waiting);
    CoalesceStepBurst(s, p, key, rs, delay);
    CoalesceStepOlder(s, p, key, rs, delay);
  }

  /** The runnable mapped before the new debounce joins the cancelled part of the burst. */
  lemma CoalesceStepBurst<R>(s: Sched<R>, p: Sched<R>, key: string, rs: seq<R>, delay: nat)
    requires Wf(s) && Wf(p) && |rs| > 1
    requires Coalesced(s, p, key, rs[..|rs| - 1], delay)
    ensures var s' := AfterDebounce(p, key, rs[|rs| - 1], delay);
      forall i :: |s.tasks| <= i < |s'.tasks| - 1 ==>
        s'.tasks[i] == Task(key, rs[i - |s.tasks|], s.now + delay, true, Waiting)
  {
    var init := rs[..|rs| - 1];
    var s' := AfterDebounce(p, key, rs[|rs| - 1], delay);
    forall i | |s.tasks| <= i < |s'.tasks| - 1
      ensures s'.tasks[i] == Task(key, rs[i - |s.tasks|], s.now + delay, true, Waiting)
    {
      assert init[i - |s.tasks|] == rs[i - |s.tasks|];
      if i == |p.tasks| - 1 {
        assert s'.tasks[i] == p.tasks[i].(cancelled := true);
      } else {
        assert s'.tasks[i] == p.tasks[i];
      }
    }
  }

  /** Tasks older than the burst are untouched by its later debounces. */
  lemma CoalesceStepOlder<R>(s: Sched<R>, p: Sched<R>, key: string, rs: seq<R>, delay: nat)
    requires Wf(s) && Wf(p) && |rs| > 1
    requires Coalesced(s, p, key, rs[..|rs| - 1], delay)
    ensures var s' := AfterDebounce(p, key, rs[|rs| - 1], delay);
      forall i :: 0 <= i < |s.tasks| ==>
        s'.tasks[i] == if key in s.delayedMap && i == s.delayedMap[key]
                       then s.tasks[i].(cancelled := true) else s.tasks[i]
  {
    var s' := AfterDebounce(p, key, rs[|rs| - 1], delay);
    forall i | 0 <= i < |s.tasks|
      ensures s'.tasks[i] == if key in s.delayedMap && i == s.delayedMap[key]
                             then s.tasks[i].(cancelled := true) else s.tasks[i]
    {
      assert s'.tasks[i] == p.tasks[i];
    }
  }

  /**
   * Every live task is the one the map holds for its key. While this holds there is at
   * most one live task per key.
   */
  predicate Tracked<R>(s: Sched<R>) {
    forall i :: 0 <= i < |s.tasks| && Live(s.tasks[i]) ==>
      s.tasks[i].key in s.delayedMap && s.delayedMap[s.tasks[i].key] == i
  }

  lemma TrackedMeansOneLivePerKey<R>(s: Sched<R>, i: nat, j: nat)
    requires Tracked(s) && i < |s.tasks| && j < |s.tasks|
    requires Live(s.tasks[i]) && Live(s.tasks[j]) && s.tasks[i].key == s.tasks[j].key
    ensures i == j
  {
  }

  /**
   * A finish is harmless to tracking when no live task sits under its key, that is,
   * when nobody debounced that key while that task was running.
   */
  predicate QuietFinish<R>(s: Sched<R>, id: nat)
    requires Wf(s) && CanFinish(s, id)
  {
    var k := s.tasks[id].key;
    k !in s.delayedMap || !Live(s.tasks[s.delayedMap[k]])
  }

  lemma {:induction false} TrackedPreserved<R>(s: Sched<R>, step: Step<R>)
    requires Wf(s) && Tracked(s) && Enabled(s, step)
    requires step.FinishStep? ==> QuietFinish(s, step.id)
    ensures Tracked(Next(s, step))
  {
    var s' := Next(s, step);
    match step
    case DebounceStep(key, r, delay) =>
      forall i | 0 <= i < |s'.tasks| && Live(s'.tasks[i])
        ensures s'.tasks[i].key in s'.delayedMap && s'.delayedMap[s'.tasks[i].key] == i
      {
        if i < |s.tasks| {
          assert Live(s.tasks[i]);
        }
      }
    case StartStep(id) =>
      forall i | 0 <= i < |s'.tasks| && Live(s'.tasks[i])
        ensures s'.tasks[i].key in s'.delayedMap && s'.delayedMap[s'.tasks[i].key] == i
      {
        assert s'.tasks[i] == s.tasks[i];
      }
    case FinishStep(id) =>
      forall i | 0 <= i < |s'.tasks| && Live(s'.tasks[i])
        ensures s'.tasks[i].key in s'.delayedMap && s'.delayedMap[s'.tasks[i].key] == i
      {
        assert s'.tasks[i] == s.tasks[i];
        assert s.tasks[i].key != s.tasks[id].key;
      }
    case ShutdownStep =>
    case TickStep(dt) =>
  }

  /**
   * Removal by key loses track of a task: when a task finishes while a newer live task
   * of the same key is mapped, that newer task is live but no longer in the map, so the
   * next debounce of the key will not cancel it.
   */
  lemma FinishForgetsNewerTask<R>(s: Sched<R>, id: nat)
    requires Wf(s) && CanFinish(s, id) && !QuietFinish(s, id)
    ensures var s' := AfterFinish(s, id);
      var newer := s.delayedMap[s.tasks[id].key];
      && newer != id && Live(s'.tasks[newer])
      && s'.tasks[newer].key == s.tasks[id].key && s.tasks[id].key !in s'.delayedMap
      && !Tracked(s')
  {
    var s' := AfterFinish(s, id);
    var newer := s.delayedMap[s.tasks[id].key];
    assert s.tasks[id].phase == Running;
    assert s'.tasks[newer] == s.tasks[newer];
  }

  /**
   * The concrete run that shows it: debounce, start, debounce again while the first
   * runs, let it finish, debounce a third time. Two live tasks remain under one key,
   * and both will run.
   */
  lemma LostTrackScenario()
    ensures var steps := [DebounceStep("k", 1, 0), StartStep(0), DebounceStep("k", 2, 0),
                          FinishStep(0), DebounceStep("k", 3, 0)];
      var r := Execute(Init<int>(), steps);
      && r.Some? && |r.value.tasks| == 3
      && Live(r.value.tasks[1]) && Live(r.value.tasks[2])
      && r.value.tasks[1].key == r.value.tasks[2].key == "k"
  {
    var s0 := Init<int>();
    var s1 := AfterDebounce(s0, "k", 1, 0);
    assert CanStart(s1, 0);
    var s2 := AfterStart(s1, 0);
    var s3 := AfterDebounce(s2, "k", 2, 0);
    assert s3.tasks[0].phase == Running;
    var s4 := AfterFinish(s3, 0);
    var s5 := AfterDebounce(s4, "k", 3, 0);
    assert s5.tasks[1] == s4.tasks[1] == s3.tasks[1];
    ExecuteOne(s4, DebounceStep("k", 3, 0));
    ExecuteCons(s3, FinishStep(0), [DebounceStep("k", 3, 0)]);
    ExecuteCons(s2, DebounceStep("k", 2, 0), [FinishStep(0), DebounceStep("k", 3, 0)]);
    ExecuteCons(s1, StartStep(0), [DebounceStep("k", 2, 0), FinishStep(0), DebounceStep("k", 3, 0)]);
    ExecuteCons(s0, DebounceStep("k", 1, 0), [StartStep(0), DebounceStep("k", 2, 0), FinishStep(0), DebounceStep("k", 3, 0)]);
  }

  /**
   * After a burst of debounces under one key, the last runnable becomes startable once
   * its delay has elapsed (when the worker is idle), and no other task of the burst can
   * ever start.
   */
  lemma {:induction false} BurstRunsOnlyLast<R>(s: Sched<R>, key: string, rs: seq<R>, delay: nat,
                                                steps: seq<Step<R>>)
    requires Wf(s) && !s.terminated && |rs| > 0 && NoneRunning(s)
    requires Execute(DebounceAll(s, key, rs, delay), steps).Some?
    ensures var s' := DebounceAll(s, key, rs, delay);
      && CanStart(AfterTick(s', delay), |s'.tasks| - 1)
      && s'.tasks[|s'.tasks| - 1].runnable == rs[|rs| - 1]
      && forall i :: |s.tasks| <= i < |s'.tasks| - 1 ==>
           Execute(s', steps).value.tasks[i].phase == Waiting
  {
    var s' := DebounceAll(s, key, rs, delay);
    Coalesce(s, key, rs, delay);
    forall i | 0 <= i < |s'.tasks|
      ensures s'.tasks[i].phase != Running
    {
      if i < |s.tasks| { assert s.tasks[i].phase != Running; }
    }
    forall i | |s.tasks| <= i < |s'.tasks| - 1
      ensures Execute(s', steps).value.tasks[i].phase == Waiting
    {
      CancelledNeverRuns(s', steps, i);
    }
  }

  // ------------------------------------------------------------ the object

  /** Debouncer.java: the executor and the map, changed in place by its methods. */
  class Debouncer<R> {
    var now: int
    var tasks: seq<Task<R>>
    var delayedMap: map<string, nat>
    var terminated: bool

    function State(): Sched<R>
      reads this
    {
      Sched(now, tasks, delayedMap, terminated)
    }

    ghost predicate Valid()
      reads this
    {
      Wf(State())
    }

    constructor ()
      ensures Valid() && State() == Init()
    {
      now, tasks, delayedMap, terminated := 0, [], map[], false;
    }

    /** Debouncer.debounce; `accepted` is false where schedule() would throw. */
    method Debounce(key: string, runnable: R, delay: nat) returns (accepted: bool)
      requires Valid()
      modifies this
      ensures Valid()
      ensures accepted == !old(terminated)
      ensures State() == AfterDebounce(old(State()), key, runnable, delay)
    {
      if terminated {
        return false;
      }
      ghost var after := AfterDebounce(State(), key, runnable, delay);
      var future := |tasks|;
      var prev := if key in delayedMap then Some(delayedMap[key]) else None;
      var scheduled := tasks + [Task(key, runnable, now + delay, false, Waiting)];
      delayedMap := delayedMap[key := future];
      tasks := if prev.Some? then CancelFuture(scheduled, prev.value) else scheduled;
      assert tasks == after.tasks && delayedMap == after.delayedMap;
      assert State() == after;
      accepted := true;
    }

    /** The worker begins the wrapper of task `id`. */
    method StartTask(id: nat)
      requires Valid() && CanStart(State(), id)
      modifies this
      ensures Valid()
      ensures State() == AfterStart(old(State()), id)
    {
      tasks := tasks[id := tasks[id].(phase := Running)];
    }

    /** The wrapper's `finally`: the runnable is done, its key is removed from the map. */
    method FinishTask(id: nat)
      requires Valid() && CanFinish(State(), id)
      modifies this
      ensures Valid()
      ensures State() == AfterFinish(old(State()), id)
    {
      var key := tasks[id].key;
      tasks := tasks[id := tasks[id].(phase := Completed)];
      delayedMap := delayedMap - {key};
    }

    method Shutdown()
      requires Valid()
      modifies this
      ensures Valid()
      ensures State() == AfterShutdown(old(State()))
    {
      terminated := true;
    }

    method Tick(dt: nat)
      requires Valid()
      modifies this
      ensures Valid()
      ensures State() == AfterTick(old(State()), dt)
    {
      now := now + dt;
    }
  }
}

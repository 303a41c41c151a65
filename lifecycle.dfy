/**
 * One request's scheduling lifecycle, in the order `fastapi_tasks/dependencies.py`
 * runs it: the handler schedules, then `after_route` is started when the
 * endpoint's dependency resumes, then `after_response` when the request-scoped
 * dependency resumes.
 */
module Lifecycle {
  import opened Common
  import opened TaskGroups
  import opened Tasks

  /** Where a handler sends a task: `tasks`, `tasks.after_route` or `tasks.after_response`. */
  datatype Phase = Immediate | AfterRoute | AfterResponse

  /** The position of a phase in the lifecycle. */
  function Rank(p: Phase): nat
  {
    match p
    case Immediate => 0
    case AfterRoute => 1
    case AfterResponse => 2
  }

  /**
   * One scheduling call made by the handler: `target.schedule(func, ...)` when
   * `overrides` is None, `target.task(name=, shield=, on_error=).schedule(func, ...)`
   * with those call-site values otherwise.
   */
  datatype Step = Step(phase: Phase, overrides: Option<TaskConfig>, func: FuncId, args: seq<Value>, kwargs: map<string, Value>)

  /** The config a step's task receives under the given ambient config. */
  function Resolved(ambient: TaskConfig, overrides: Option<TaskConfig>): TaskConfig
  {
    match overrides
    case None => ambient
    case Some(o) => ambient.Merge(o)
  }

  /** The entries of `xs` whose step is in phase `p`, in call order. */
  function Phased<X>(xs: seq<X>, steps: seq<Step>, p: Phase): seq<X>
    requires |xs| == |steps|
  {
    if |xs| == 0 then []
    else
      var n := |xs| - 1;
      Phased(xs[..n], steps[..n], p) + (if steps[n].phase == p then [xs[n]] else [])
  }

  /** The order in which the lifecycle starts the tasks of `steps`. */
  function StartOrder<X>(xs: seq<X>, steps: seq<Step>): seq<X>
    requires |xs| == |steps|
  {
    Phased(xs, steps, Immediate) + Phased(xs, steps, AfterRoute) + Phased(xs, steps, AfterResponse)
  }

  /** Scheduling one more call extends its own phase by that call and leaves the other phases as they were. */
  lemma PhasedSnoc<X>(xs: seq<X>, x: X, steps: seq<Step>, step: Step, p: Phase)
    requires |xs| == |steps|
    ensures Phased(xs + [x], steps + [step], p) == Phased(xs, steps, p) + (if step.phase == p then [x] else [])
  {
    assert (xs + [x])[..|xs|] == xs;
    assert (steps + [step])[..|steps|] == steps;
  }

  /** The same as `PhasedSnoc`, counted as multisets. */
  lemma PhasedSnocMultiset<X>(xs: seq<X>, x: X, steps: seq<Step>, step: Step, p: Phase)
    requires |xs| == |steps|
    ensures multiset(Phased(xs + [x], steps + [step], p)) ==
            multiset(Phased(xs, steps, p)) + (if step.phase == p then multiset{x} else multiset{})
  {
    PhasedSnoc(xs, x, steps, step, p);
  }

  /** The multiset of the start order is the sum of the three phases' multisets. */
  lemma StartOrderMultiset<X>(xs: seq<X>, steps: seq<Step>)
    requires |xs| == |steps|
    ensures multiset(StartOrder(xs, steps)) ==
            multiset(Phased(xs, steps, Immediate)) + multiset(Phased(xs, steps, AfterRoute)) + multiset(Phased(xs, steps, AfterResponse))
  {
  }

  /** One more call adds exactly that call to the start order, counted as a multiset. */
  lemma StartOrderSnoc<X>(xs: seq<X>, x: X, steps: seq<Step>, step: Step)
    requires |xs| == |steps|
    ensures multiset(StartOrder(xs + [x], steps + [step])) == multiset(StartOrder(xs, steps)) + multiset{x}
  {
    StartOrderMultiset(xs, steps);
    StartOrderMultiset(xs + [x], steps + [step]);
    PhasedSnocMultiset(xs, x, steps, step, Immediate);
    PhasedSnocMultiset(xs, x, steps, step, AfterRoute);
    PhasedSnocMultiset(xs, x, steps, step, AfterResponse);
  }

  /** Every task is started exactly once: the start order is a permutation of the calls. */
  lemma {:induction false} StartOrderIsPermutation<X>(xs: seq<X>, steps: seq<Step>)
    requires |xs| == |steps|
    ensures multiset(StartOrder(xs, steps)) == multiset(xs)
  {
    if |xs| > 0 {
      var n := |xs| - 1;
      var init, x, before, step := xs[..n], xs[n], steps[..n], steps[n];
      assert xs == init + [x] && steps == before + [step];
      StartOrderIsPermutation(init, before);
      StartOrderSnoc(init, x, before, step);
    }
  }

  /** `0, 1, ..., n - 1`: the position of each scheduling call. */
  function Indices(n: nat): (r: seq<nat>)
    ensures |r| == n && forall i :: 0 <= i < n ==> r[i] == i
  {
    seq(n, i => i)
  }

  /** Strictly increasing positions. */
  ghost predicate Increasing(s: seq<nat>)
  {
    forall a, b :: 0 <= a < b < |s| ==> s[a] < s[b]
  }

  /** `s` holds exactly the positions of the calls in phase `p`. */
  ghost predicate PositionsOf(s: seq<nat>, steps: seq<Step>, p: Phase)
  {
    && (forall x :: x in s ==> x < |steps| && steps[x].phase == p)
    && (forall i :: 0 <= i < |steps| && steps[i].phase == p ==> i in s)
  }

  /**
   * The calls of one phase, by position: exactly the positions whose step is
   * in that phase, in increasing order.
   */
  lemma {:induction false} PhasedPositions(steps: seq<Step>, p: Phase)
    ensures PositionsOf(Phased<nat>(Indices(|steps|), steps, p), steps, p)
    ensures Increasing(Phased<nat>(Indices(|steps|), steps, p))
  {
    if |steps| > 0 {
      var n := |steps| - 1;
      var init := steps[..n];
      PhasedPositions(init, p);
      assert Indices(|steps|)[..n] == Indices(n);
      var prev := Phased<nat>(Indices(n), init, p);
      var s := Phased<nat>(Indices(|steps|), steps, p);
      assert s == prev + (if steps[n].phase == p then [n] else []);
      forall x | x in s
        ensures x < |steps| && steps[x].phase == p
      {
        if x in prev {
          assert init[x] == steps[x];
        }
      }
      forall i | 0 <= i < |steps| && steps[i].phase == p
        ensures i in s
      {
        if i < n {
          assert init[i] == steps[i];
        }
      }
      forall a, b | 0 <= a < b < |s|
        ensures s[a] < s[b]
      {
        assert s[a] == prev[a] && prev[a] in prev;
        if b < |prev| {
          assert s[b] == prev[b];
        }
      }
    }
  }

  /** The start order of the calls, by position. */
  function Order(steps: seq<Step>): seq<nat>
  {
    StartOrder<nat>(Indices(|steps|), steps)
  }

  /** Every call is started exactly once. */
  lemma OrderIsPermutation(steps: seq<Step>)
    ensures multiset(Order(steps)) == multiset(Indices(|steps|))
    ensures |Order(steps)| == |steps|
  {
    StartOrderIsPermutation<nat>(Indices(|steps|), steps);
    assert |Order(steps)| == |multiset(Order(steps))|;
  }

  /**
   * Positions sorted stably by phase: an earlier entry is in an earlier phase,
   * or in the same phase and an earlier call.
   */
  ghost predicate StableByPhase(o: seq<nat>, steps: seq<Step>)
  {
    && (forall a :: 0 <= a < |o| ==> o[a] < |steps|)
    && (forall a, b :: 0 <= a < b < |o| ==>
          || Rank(steps[o[a]].phase) < Rank(steps[o[b]].phase)
          || (steps[o[a]].phase == steps[o[b]].phase && o[a] < o[b]))
  }

  /** Every position in `o` is a call of a phase earlier than `p`. */
  ghost predicate AllBefore(o: seq<nat>, steps: seq<Step>, p: Phase)
  {
    forall x :: x in o ==> x < |steps| && Rank(steps[x].phase) < Rank(p)
  }

  /** Appending the calls of a later phase, in call order, keeps a start order stable. */
  lemma AppendPhase(o: seq<nat>, s: seq<nat>, steps: seq<Step>, p: Phase)
    requires StableByPhase(o, steps) && AllBefore(o, steps, p)
    requires PositionsOf(s, steps, p) && Increasing(s)
    ensures StableByPhase(o + s, steps)
  {
    var r := o + s;
    forall a | 0 <= a < |r|
      ensures r[a] < |steps|
    {
      if a >= |o| {
        assert r[a] == s[a - |o|] && s[a - |o|] in s;
      }
    }
    forall a, b | 0 <= a < b < |r|
      ensures || Rank(steps[r[a]].phase) < Rank(steps[r[b]].phase)
              || (steps[r[a]].phase == steps[r[b]].phase && r[a] < r[b])
    {
      if b < |o| {
        assert r[a] == o[a] && r[b] == o[b];
      } else if a < |o| {
        assert r[a] == o[a] && o[a] in o;
        assert r[b] == s[b - |o|] && s[b - |o|] in s;
      } else {
        assert r[a] == s[a - |o|] && s[a - |o|] in s;
        assert r[b] == s[b - |o|] && s[b - |o|] in s;
      }
    }
  }

  /** The positions of the calls in phase `p`, in call order. */
  function Positions(steps: seq<Step>, p: Phase): seq<nat>
  {
    Phased<nat>(Indices(|steps|), steps, p)
  }

  /** The immediate calls followed by the `after_route` calls are sorted by phase, and all precede `after_response`. */
  lemma ImmediateThenAfterRoute(steps: seq<Step>)
    ensures StableByPhase(Positions(steps, Immediate) + Positions(steps, AfterRoute), steps)
    ensures AllBefore(Positions(steps, Immediate) + Positions(steps, AfterRoute), steps, AfterResponse)
  {
    var s0, s1 := Positions(steps, Immediate), Positions(steps, AfterRoute);
    PhasedPositions(steps, Immediate);
    PhasedPositions(steps, AfterRoute);
    assert [] + s0 == s0;
    AppendPhase([], s0, steps, Immediate);
    AppendPhase(s0, s1, steps, AfterRoute);
    forall x | x in s0 + s1
      ensures x < |steps| && Rank(steps[x].phase) < Rank(AfterResponse)
    {
      if x in s0 { } else { assert x in s1; }
    }
  }

  /**
   * The start order sorts the calls stably by phase: immediate calls first,
   * then `after_route`, then `after_response`, and within one phase in the
   * order the handler made them.
   */
  lemma StartOrderSortsByPhase(steps: seq<Step>)
    ensures StableByPhase(Order(steps), steps)
  {
    var s01, s2 := Positions(steps, Immediate) + Positions(steps, AfterRoute), Positions(steps, AfterResponse);
    ImmediateThenAfterRoute(steps);
    PhasedPositions(steps, AfterResponse);
    AppendPhase(s01, s2, steps, AfterResponse);
    assert Order(steps) == s01 + s2;
  }

  /** `ys` is `xs` read at the positions `idx`, in that order. */
  ghost predicate Picks<X>(ys: seq<X>, xs: seq<X>, idx: seq<nat>)
  {
    && |ys| == |idx|
    && forall k :: 0 <= k < |idx| ==> idx[k] < |xs| && ys[k] == xs[idx[k]]
  }

  /** Reading at two runs of positions one after the other reads the two results one after the other. */
  lemma PicksAppend<X>(ys: seq<X>, zs: seq<X>, xs: seq<X>, iy: seq<nat>, iz: seq<nat>)
    requires Picks(ys, xs, iy) && Picks(zs, xs, iz)
    ensures Picks(ys + zs, xs, iy + iz)
  {
    forall k | 0 <= k < |iy + iz|
      ensures (iy + iz)[k] < |xs| && (ys + zs)[k] == xs[(iy + iz)[k]]
    {
      if k >= |iy| {
        assert (iy + iz)[k] == iz[k - |iy|] && (ys + zs)[k] == zs[k - |iy|];
      }
    }
  }

  /** One more call extends the positions of its own phase by its own position. */
  lemma PositionsSnoc(steps: seq<Step>, step: Step, p: Phase)
    ensures Positions(steps + [step], p) == Positions(steps, p) + (if step.phase == p then [|steps|] else [])
  {
    var n := |steps|;
    assert Indices(n + 1) == Indices(n) + [n];
    PhasedSnoc<nat>(Indices(n), n, steps, step, p);
  }

  /** The tasks of one phase are the tasks at that phase's call positions, whatever the tasks are. */
  lemma {:induction false} PhasedPicks<X>(xs: seq<X>, steps: seq<Step>, p: Phase)
    requires |xs| == |steps|
    ensures Picks(Phased(xs, steps, p), xs, Positions(steps, p))
  {
    if |xs| > 0 {
      var n := |xs| - 1;
      var init, x, before, step := xs[..n], xs[n], steps[..n], steps[n];
      assert xs == init + [x] && steps == before + [step];
      PhasedPicks(init, before, p);
      PhasedSnoc(init, x, before, step, p);
      PositionsSnoc(before, step, p);
      var ys, iy := Phased(init, before, p), Positions(before, p);
      forall k | 0 <= k < |iy|
        ensures iy[k] < |xs| && ys[k] == xs[iy[k]]
      {
        assert xs[iy[k]] == init[iy[k]];
      }
      if step.phase == p {
        PicksAppend(ys, [x], xs, iy, [n]);
      } else {
        assert Phased(xs, steps, p) == ys && Positions(steps, p) == iy;
      }
    } else {
      assert Positions(steps, p) == [];
    }
  }

  /**
   * The tasks in start order are the tasks at the positions `Order(steps)`,
   * which `StartOrderSortsByPhase` shows sorted stably by phase: every
   * immediate task starts before every `after_route` task, which starts
   * before every `after_response` task, and within a phase in call order.
   */
  lemma StartOrderFollowsOrder<X>(xs: seq<X>, steps: seq<Step>)
    requires |xs| == |steps|
    ensures Picks(StartOrder(xs, steps), xs, Order(steps))
    ensures StableByPhase(Order(steps), steps)
  {
    PhasedPicks(xs, steps, Immediate);
    PhasedPicks(xs, steps, AfterRoute);
    PhasedPicks(xs, steps, AfterResponse);
    var q0, q1, q2 := Phased(xs, steps, Immediate), Phased(xs, steps, AfterRoute), Phased(xs, steps, AfterResponse);
    var i0, i1, i2 := Positions(steps, Immediate), Positions(steps, AfterRoute), Positions(steps, AfterResponse);
    PicksAppend(q0, q1, xs, i0, i1);
    PicksAppend(q0 + q1, q2, xs, i0 + i1, i2);
    assert Order(steps) == i0 + i1 + i2;
    StartOrderSortsByPhase(steps);
  }

  /** `Phased` of three calls, spelled out. */
  lemma PhasedOfThree<X>(x0: X, x1: X, x2: X, t0: Step, t1: Step, t2: Step, p: Phase)
    ensures Phased([x0, x1, x2], [t0, t1, t2], p) ==
      (if t0.phase == p then [x0] else []) + (if t1.phase == p then [x1] else []) + (if t2.phase == p then [x2] else [])
  {
    assert [x0, x1, x2][..2] == [x0, x1] && [t0, t1, t2][..2] == [t0, t1];
    assert [x0, x1][..1] == [x0] && [t0, t1][..1] == [t0];
    assert [x0][..0] == [] && [t0][..0] == [];
    assert Phased([x0], [t0], p) == (if t0.phase == p then [x0] else []);
    assert Phased([x0, x1], [t0, t1], p) == Phased([x0], [t0], p) + (if t1.phase == p then [x1] else []);
  }

  /** `tests/test_tasks.py` `test_tasks_order`: one task per phase starts as A, B, C. */
  lemma TasksOrderScenario<X>(a: X, b: X, c: X, fa: FuncId, fb: FuncId, fc: FuncId)
    ensures StartOrder([a, b, c], [Step(Immediate, None, fa, [], map[]), Step(AfterRoute, None, fb, [], map[]),
                                   Step(AfterResponse, None, fc, [], map[])]) == [a, b, c]
  {
    var t0, t1, t2 := Step(Immediate, None, fa, [], map[]), Step(AfterRoute, None, fb, [], map[]), Step(AfterResponse, None, fc, [], map[]);
    PhasedOfThree(a, b, c, t0, t1, t2, Immediate);
    PhasedOfThree(a, b, c, t0, t1, t2, AfterRoute);
    PhasedOfThree(a, b, c, t0, t1, t2, AfterResponse);
  }

  /** The phase decides, not the call order: scheduling C, B, A still starts A, B, C. */
  lemma ReversedCallsScenario<X>(a: X, b: X, c: X, fa: FuncId, fb: FuncId, fc: FuncId)
    ensures StartOrder([c, b, a], [Step(AfterResponse, None, fc, [], map[]), Step(AfterRoute, None, fb, [], map[]),
                                   Step(Immediate, None, fa, [], map[])]) == [a, b, c]
  {
    var t0, t1, t2 := Step(AfterResponse, None, fc, [], map[]), Step(AfterRoute, None, fb, [], map[]), Step(Immediate, None, fa, [], map[]);
    PhasedOfThree(c, b, a, t0, t1, t2, Immediate);
    PhasedOfThree(c, b, a, t0, t1, t2, AfterRoute);
    PhasedOfThree(c, b, a, t0, t1, t2, AfterResponse);
  }

  /** Perform one of the handler's scheduling calls on the request's scheduler. */
  method Perform(scheduler: TasksScheduler, step: Step) returns (task: Task)
    requires scheduler.Valid()
    modifies scheduler.tg, scheduler.afterRoute, scheduler.afterResponse
    ensures fresh(task) && !task.started
    ensures task.func == step.func && task.args == step.args && task.kwargs == step.kwargs
    ensures task.config == Resolved(scheduler.config, step.overrides)
    ensures scheduler.tg.log == old(scheduler.tg.log) + (if step.phase == Immediate then [task] else [])
    ensures scheduler.afterRoute.scheduled == old(scheduler.afterRoute.scheduled) + (if step.phase == AfterRoute then [task] else [])
    ensures scheduler.afterResponse.scheduled == old(scheduler.afterResponse.scheduled) + (if step.phase == AfterResponse then [task] else [])
  {
    var def: PartialTaskDef;
    match step.phase {
      case Immediate =>
        if step.overrides.None? {
          task := scheduler.Schedule(step.func, step.args, step.kwargs);
        } else {
          var o := step.overrides.value;
          def := scheduler.TaskWith(o.name, o.shield, o.onError);
          task := def.Schedule(step.func, step.args, step.kwargs);
        }
      case AfterRoute =>
        if step.overrides.None? {
          task := scheduler.afterRoute.Schedule(step.func, step.args, step.kwargs);
        } else {
          var o := step.overrides.value;
          def := scheduler.afterRoute.TaskWith(o.name, o.shield, o.onError);
          task := def.Schedule(step.func, step.args, step.kwargs);
        }
      case AfterResponse =>
        if step.overrides.None? {
          task := scheduler.afterResponse.Schedule(step.func, step.args, step.kwargs);
        } else {
          var o := step.overrides.value;
          def := scheduler.afterResponse.TaskWith(o.name, o.shield, o.onError);
          task := def.Schedule(step.func, step.args, step.kwargs);
        }
    }
  }

  /** `task` is what `step` schedules under the ambient config. */
  ghost predicate Built(task: Task, step: Step, ambient: TaskConfig)
  {
    && task.func == step.func && task.args == step.args && task.kwargs == step.kwargs
    && task.config == Resolved(ambient, step.overrides)
  }

  /**
   * The three queues of the request hold, beyond what they held before the
   * handler ran (`log0`, `route0`, `response0`), exactly the tasks of `done`
   * in their phase, in call order.
   */
  ghost predicate Tracks(scheduler: TasksScheduler, log0: seq<Task>, route0: seq<Task>, response0: seq<Task>,
                         tasks: seq<Task>, done: seq<Step>)
    reads scheduler.tg, scheduler.afterRoute, scheduler.afterResponse
  {
    && |tasks| == |done|
    && scheduler.tg.log == log0 + Phased(tasks, done, Immediate)
    && scheduler.afterRoute.scheduled == route0 + Phased(tasks, done, AfterRoute)
    && scheduler.afterResponse.scheduled == response0 + Phased(tasks, done, AfterResponse)
  }

  /** One iteration of the handler body: perform `step` and account for its task. */
  method ScheduleNext(scheduler: TasksScheduler, step: Step, ghost log0: seq<Task>, ghost route0: seq<Task>,
                      ghost response0: seq<Task>, ghost tasks: seq<Task>, ghost done: seq<Step>)
    returns (task: Task)
    requires scheduler.Valid()
    requires Tracks(scheduler, log0, route0, response0, tasks, done)
    modifies scheduler.tg, scheduler.afterRoute, scheduler.afterResponse
    ensures fresh(task) && Built(task, step, scheduler.config)
    ensures Tracks(scheduler, log0, route0, response0, tasks + [task], done + [step])
  {
    task := Perform(scheduler, step);
    PhasedSnoc(tasks, task, done, step, Immediate);
    PhasedSnoc(tasks, task, done, step, AfterRoute);
    PhasedSnoc(tasks, task, done, step, AfterResponse);
  }

  /**
   * The handler body: perform its scheduling calls in order. Immediate tasks
   * are started as they are scheduled; the others wait in their batch.
   */
  method RunHandler(scheduler: TasksScheduler, steps: seq<Step>) returns (tasks: seq<Task>)
    requires scheduler.Valid()
    modifies scheduler.tg, scheduler.afterRoute, scheduler.afterResponse
    ensures |tasks| == |steps|
    ensures forall i :: 0 <= i < |steps| ==> fresh(tasks[i]) && Built(tasks[i], steps[i], scheduler.config)
    ensures scheduler.tg.log == old(scheduler.tg.log) + Phased(tasks, steps, Immediate)
    ensures scheduler.afterRoute.scheduled == old(scheduler.afterRoute.scheduled) + Phased(tasks, steps, AfterRoute)
    ensures scheduler.afterResponse.scheduled == old(scheduler.afterResponse.scheduled) + Phased(tasks, steps, AfterResponse)
  {
    ghost var log0, route0, response0 := scheduler.tg.log, scheduler.afterRoute.scheduled, scheduler.afterResponse.scheduled;
    tasks := [];
    var i := 0;
    while i < |steps|
      invariant 0 <= i <= |steps| && |tasks| == i
      invariant forall k :: 0 <= k < i ==> fresh(tasks[k]) && Built(tasks[k], steps[k], scheduler.config)
      invariant Tracks(scheduler, log0, route0, response0, tasks, steps[..i])
    {
      var task := ScheduleNext(scheduler, steps[i], log0, route0, response0, tasks, steps[..i]);
      assert steps[..i + 1] == steps[..i] + [steps[i]];
      tasks := tasks + [task];
      i := i + 1;
    }
    assert steps[..i] == steps;
  }

  /** Starting the three queues one after the other appends them in that order. */
  lemma AppendThree<X>(log0: seq<X>, a: seq<X>, b: seq<X>, c: seq<X>, log1: seq<X>, log2: seq<X>, log3: seq<X>)
    requires log1 == log0 + a && log2 == log1 + b && log3 == log2 + c
    ensures log3 == log0 + (a + b + c)
  {
  }

  /**
   * A request end to end: build the scheduler over the shared task group and
   * ambient config, run the handler's scheduling calls, release `after_route`,
   * then release `after_response`. The group's log gains exactly the request's
   * tasks, in `StartOrder`.
   */
  method HandleRequest(tg: TaskGroup<Task>, config: TaskConfig, steps: seq<Step>)
    returns (scheduler: TasksScheduler, tasks: seq<Task>)
    modifies tg
    ensures fresh(scheduler) && scheduler.tg == tg && scheduler.config == config
    ensures |tasks| == |steps|
    ensures forall i :: 0 <= i < |steps| ==> fresh(tasks[i]) && Built(tasks[i], steps[i], config)
    ensures tg.log == old(tg.log) + StartOrder(tasks, steps)
    ensures scheduler.afterRoute.scheduled == Phased(tasks, steps, AfterRoute)
    ensures scheduler.afterResponse.scheduled == Phased(tasks, steps, AfterResponse)
  {
    scheduler := new TasksScheduler(tg, config);
    tasks := RunHandler(scheduler, steps);
    ghost var now, route, response := Phased(tasks, steps, Immediate), Phased(tasks, steps, AfterRoute), Phased(tasks, steps, AfterResponse);
    assert [] + route == route && [] + response == response;
    ghost var handled := tg.log;
    // the handler has returned: dependencies.py:75
    scheduler.afterRoute.Start(scheduler);
    ghost var routed := tg.log;
    // the response has been sent: dependencies.py:61
    scheduler.afterResponse.Start(scheduler);
    AppendThree(old(tg.log), now, route, response, handled, routed, tg.log);
  }
}

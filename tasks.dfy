/**
 * The task configuration and scheduling model of `fastapi_tasks/tasks.py`.
 *
 * A `TaskConfig` is a value with a layered merge. A `Task` is an object whose
 * only mutable state is its `started` signal. A `TasksBatch` collects tasks in
 * place and starts them all when released; a `TasksScheduler` starts tasks at
 * once and owns the two batches `after_route` and `after_response`.
 */
module Tasks {
  import opened Common
  import opened TaskGroups

  // ---------------------------------------------------------------------------
  // TaskConfig
  // ---------------------------------------------------------------------------

  /** Each field is `None` when this layer leaves it to the layer below. */
  datatype TaskConfig = TaskConfig(name: Option<string>, shield: Option<bool>, onError: Option<HandlerId>)
  {
    /** `shielded` is Python's `bool(shield)`: `None` and `False` both read as false. */
    function Shielded(): (b: bool)
      ensures b <==> shield == Some(true)
    {
      match shield
      case None => false
      case Some(s) => s
    }

    /**
     * `merge` copies the receiver and then lets every field that `other` sets
     * overwrite the copy; neither operand changes.
     */
    function Merge(other: TaskConfig): (merged: TaskConfig)
      ensures other.name.Some? ==> merged.name == other.name
      ensures other.name.None? ==> merged.name == name
      ensures other.shield.Some? ==> merged.shield == other.shield
      ensures other.shield.None? ==> merged.shield == shield
      ensures other.onError.Some? ==> merged.onError == other.onError
      ensures other.onError.None? ==> merged.onError == onError
    {
      var copied := this;
      var withName := if other.name != None then copied.(name := other.name) else copied;
      var withShield := if other.shield != None then withName.(shield := other.shield) else withName;
      if other.onError != None then withShield.(onError := other.onError) else withShield
    }
  }

  /** `TaskConfig()`: nothing set. */
  const Empty := TaskConfig(None, None, None)

  /** `TaskConfig()` is a left and a right identity of `merge`. */
  lemma MergeIdentity(c: TaskConfig)
    ensures Empty.Merge(c) == c
    ensures c.Merge(Empty) == c
  {
  }

  /** Chained merges may be grouped either way. */
  lemma MergeAssociative(a: TaskConfig, b: TaskConfig, c: TaskConfig)
    ensures a.Merge(b).Merge(c) == a.Merge(b.Merge(c))
  {
  }

  /** Merging the same override twice changes nothing more. */
  lemma MergeIdempotent(a: TaskConfig, b: TaskConfig)
    ensures a.Merge(b).Merge(b) == a.Merge(b)
  {
  }

  /** Unset fields of the override keep the receiver's values; set ones win, an explicit `False` included. */
  lemma MergeOverrideScenario(h1: HandlerId, h2: HandlerId)
    ensures TaskConfig(Some("task1"), Some(true), Some(h1)).Merge(TaskConfig(None, Some(false), Some(h2)))
         == TaskConfig(Some("task1"), Some(false), Some(h2))
  {
  }

  // --- Merging a chain of layers: per field, the last value that is set wins ---

  /** The layers merged in order, starting from `TaskConfig()` (the app-wide config given to `add_tasks`, then the call-site `task(...)` values, ...). */
  function MergeAll(layers: seq<TaskConfig>): TaskConfig
  {
    if |layers| == 0 then Empty else MergeAll(layers[..|layers| - 1]).Merge(layers[|layers| - 1])
  }

  function Names(layers: seq<TaskConfig>): seq<Option<string>>
  {
    seq(|layers|, i requires 0 <= i < |layers| => layers[i].name)
  }

  function Shields(layers: seq<TaskConfig>): seq<Option<bool>>
  {
    seq(|layers|, i requires 0 <= i < |layers| => layers[i].shield)
  }

  function Handlers(layers: seq<TaskConfig>): seq<Option<HandlerId>>
  {
    seq(|layers|, i requires 0 <= i < |layers| => layers[i].onError)
  }

  /**
   * Reference definition of "last non-None": `r` is `None` exactly when no
   * entry is set, and otherwise the value of the last entry that is set.
   */
  ghost predicate LastNonNone<T>(s: seq<Option<T>>, r: Option<T>)
  {
    match r
    case None => forall i :: 0 <= i < |s| ==> s[i].None?
    case Some(v) => exists i :: 0 <= i < |s| && s[i] == Some(v) && forall j :: i < j < |s| ==> s[j].None?
  }

  /** At most one value is the last non-None entry of a sequence. */
  lemma LastNonNoneUnique<T>(s: seq<Option<T>>, r1: Option<T>, r2: Option<T>)
    requires LastNonNone(s, r1) && LastNonNone(s, r2)
    ensures r1 == r2
  {
    if r1.Some? && r2.Some? {
      var i1 :| 0 <= i1 < |s| && s[i1] == r1 && forall j :: i1 < j < |s| ==> s[j].None?;
      var i2 :| 0 <= i2 < |s| && s[i2] == r2 && forall j :: i2 < j < |s| ==> s[j].None?;
    }
  }

  /** The per-field step of `merge`: the override wins when it is set. */
  function Override<T>(base: Option<T>, over: Option<T>): Option<T>
  {
    if over.Some? then over else base
  }

  /** One field of a chain of layers, merged left to right. */
  function Fold<T>(s: seq<Option<T>>): Option<T>
  {
    if |s| == 0 then None else Override(Fold(s[..|s| - 1]), s[|s| - 1])
  }

  lemma {:induction false} FoldIsLastNonNone<T>(s: seq<Option<T>>)
    ensures LastNonNone(s, Fold(s))
  {
    if |s| > 0 {
      var n := |s| - 1;
      var init := s[..n];
      FoldIsLastNonNone(init);
      if s[n].Some? {
        assert Fold(s) == s[n];
        assert s[n] == Some(Fold(s).value);
      } else {
        assert Fold(s) == Fold(init);
        match Fold(init)
        case None =>
          assert forall i :: 0 <= i < n ==> init[i] == s[i];
        case Some(v) =>
          var i :| 0 <= i < |init| && init[i] == Some(v) && forall j :: i < j < |init| ==> init[j].None?;
          assert s[i] == Some(v);
          assert forall j :: i < j < |s| ==> s[j].None? by {
            forall j | i < j < |s| ensures s[j].None? {
              if j < n { assert s[j] == init[j]; }
            }
          }
      }
    }
  }

  /** Merging a chain acts on each field separately, as `Fold` of that field. */
  lemma {:induction false} MergeAllByField(layers: seq<TaskConfig>)
    ensures MergeAll(layers).name == Fold(Names(layers))
    ensures MergeAll(layers).shield == Fold(Shields(layers))
    ensures MergeAll(layers).onError == Fold(Handlers(layers))
  {
    if |layers| > 0 {
      var n := |layers| - 1;
      MergeAllByField(layers[..n]);
      assert Names(layers)[..n] == Names(layers[..n]);
      assert Shields(layers)[..n] == Shields(layers[..n]);
      assert Handlers(layers)[..n] == Handlers(layers[..n]);
    }
  }

  /**
   * Chained `merge`: every field of the result is the last non-None value of
   * that field among the layers, in order, and `None` only when no layer sets it.
   */
  lemma MergeChainLastNonNone(layers: seq<TaskConfig>)
    ensures LastNonNone(Names(layers), MergeAll(layers).name)
    ensures LastNonNone(Shields(layers), MergeAll(layers).shield)
    ensures LastNonNone(Handlers(layers), MergeAll(layers).onError)
  {
    MergeAllByField(layers);
    FoldIsLastNonNone(Names(layers));
    FoldIsLastNonNone(Shields(layers));
    FoldIsLastNonNone(Handlers(layers));
  }

  /** Three layers merged as `a.merge(b).merge(c)` are the chain `[a, b, c]`. */
  lemma ChainOfThree(a: TaskConfig, b: TaskConfig, c: TaskConfig)
    ensures MergeAll([a, b, c]) == a.Merge(b).Merge(c)
  {
    assert [a, b, c][..2] == [a, b];
    assert [a, b][..1] == [a];
    assert [a][..0] == [];
    MergeIdentity(a);
    assert MergeAll([a]) == a;
    assert MergeAll([a, b]) == a.Merge(b);
  }

  // ---------------------------------------------------------------------------
  // Task
  // ---------------------------------------------------------------------------

  /** One call of an `on_error` handler: `handler(task, error)`. */
  datatype HandlerCall = HandlerCall(handler: HandlerId, task: Task, error: Exception)

  /** How `Task.__call__` ends: it returns (the body's result, or None), or a handler's exception escapes. */
  datatype CallResult = Returned(value: Option<Value>) | Raised(error: Exception)

  class Task {
    const func: FuncId
    const args: seq<Value>
    const kwargs: map<string, Value>
    const config: TaskConfig
    /** The `started` event; it is only ever set. */
    var started: bool

    constructor (func: FuncId, args: seq<Value>, kwargs: map<string, Value>, config: TaskConfig)
      ensures this.func == func && this.args == args && this.kwargs == kwargs && this.config == config
      ensures !started
    {
      this.func := func;
      this.args := args;
      this.kwargs := kwargs;
      this.config := config;
      started := false;
    }

    /**
     * `__call__`, with the body's outcome and the handler's outcome as parameters.
     * `started` is set first. A body that returns gives its value and no handler
     * call. A body that raises gives None, and exactly one call of `on_error`
     * when one is configured; an exception raised by that handler is not caught.
     */
    method Call(body: Outcome, handlerOutcome: Outcome) returns (r: CallResult, calls: seq<HandlerCall>)
      modifies this
      ensures started
      ensures body.Ok? ==> r == Returned(Some(body.value)) && calls == []
      ensures body.Err? && config.onError.None? ==> r == Returned(None) && calls == []
      ensures body.Err? && config.onError.Some? ==>
        calls == [HandlerCall(config.onError.value, this, body.error)] &&
        r == (if handlerOutcome.Err? then Raised(handlerOutcome.error) else Returned(None))
    {
      started := true;
      calls := [];
      match body {
        case Ok(v) =>
          r := Returned(Some(v));
        case Err(e) =>
          if config.onError.Some? {
            calls := [HandlerCall(config.onError.value, this, e)];
            if handlerOutcome.Err? {
              r := Raised(handlerOutcome.error);
              return;
            }
          }
          r := Returned(None);
      }
    }

    /** `__start__`: hand this task to the scheduler's task group. */
    method Start(scheduler: TasksScheduler)
      modifies scheduler.tg
      ensures scheduler.tg.log == old(scheduler.tg.log) + [this]
    {
      scheduler.tg.StartSoon(this, config.name);
    }
  }

  // ---------------------------------------------------------------------------
  // Scheduling: the hook, the partial definition and the shared `schedule`
  // ---------------------------------------------------------------------------

  /** The `_on_task_schedule` a scheduling call ends in: a batch's append, or the scheduler's start. */
  datatype Hook = AppendTo(batch: TasksBatch) | StartIn(scheduler: TasksScheduler)
  {
    /** The one object the hook updates. */
    function Frame(): set<object>
    {
      match this
      case AppendTo(b) => {b}
      case StartIn(s) => {s.tg}
    }
  }

  /** Run the hook on a newly built task. */
  method Deliver(hook: Hook, task: Task)
    modifies hook.Frame()
    ensures hook.AppendTo? ==> hook.batch.scheduled == old(hook.batch.scheduled) + [task]
    ensures hook.StartIn? ==> hook.scheduler.tg.log == old(hook.scheduler.tg.log) + [task]
  {
    match hook
    case AppendTo(b) => b.OnTaskSchedule(task);
    case StartIn(s) => s.OnTaskSchedule(task);
  }

  /**
   * The body shared by `_ConfiguredTaskDefMixin.schedule` and `_PartialTaskDef.schedule`:
   * build a task with the given config and pass it to the hook exactly once.
   */
  method ScheduleWith(config: TaskConfig, hook: Hook, func: FuncId, args: seq<Value>, kwargs: map<string, Value>)
    returns (task: Task)
    modifies hook.Frame()
    ensures fresh(task) && !task.started
    ensures task.func == func && task.args == args && task.kwargs == kwargs && task.config == config
    ensures hook.AppendTo? ==> hook.batch.scheduled == old(hook.batch.scheduled) + [task]
    ensures hook.StartIn? ==> hook.scheduler.tg.log == old(hook.scheduler.tg.log) + [task]
  {
    task := new Task(func, args, kwargs, config);
    Deliver(hook, task);
  }

  /** `_PartialTaskDef`: a fixed config together with the hook of the object that made it. */
  datatype PartialTaskDef = PartialTaskDef(config: TaskConfig, onSchedule: Hook)
  {
    method Schedule(func: FuncId, args: seq<Value>, kwargs: map<string, Value>) returns (task: Task)
      modifies onSchedule.Frame()
      ensures fresh(task) && !task.started
      ensures task.func == func && task.args == args && task.kwargs == kwargs && task.config == config
      ensures onSchedule.AppendTo? ==> onSchedule.batch.scheduled == old(onSchedule.batch.scheduled) + [task]
      ensures onSchedule.StartIn? ==> onSchedule.scheduler.tg.log == old(onSchedule.scheduler.tg.log) + [task]
    {
      task := ScheduleWith(config, onSchedule, func, args, kwargs);
    }
  }

  // ---------------------------------------------------------------------------
  // TasksBatch and TasksScheduler
  // ---------------------------------------------------------------------------

  class TasksBatch {
    const config: TaskConfig
    /** Tasks scheduled into this batch, in call order; none of them is started until `Start`. */
    var scheduled: seq<Task>

    constructor (config: TaskConfig)
      ensures this.config == config && scheduled == []
    {
      this.config := config;
      scheduled := [];
    }

    /** `_on_task_schedule`: append in place. */
    method OnTaskSchedule(task: Task)
      modifies this
      ensures scheduled == old(scheduled) + [task]
    {
      scheduled := scheduled + [task];
    }

    /** `schedule`: append one task with the batch's config; start nothing. */
    method Schedule(func: FuncId, args: seq<Value>, kwargs: map<string, Value>) returns (task: Task)
      modifies this
      ensures fresh(task) && !task.started
      ensures task.func == func && task.args == args && task.kwargs == kwargs && task.config == config
      ensures scheduled == old(scheduled) + [task]
    {
      task := ScheduleWith(config, AppendTo(this), func, args, kwargs);
    }

    /**
     * `task(name=, shield=, on_error=)`: the call-site values override the
     * batch's config field by field; scheduling through the result appends here.
     */
    function TaskWith(name: Option<string>, shield: Option<bool>, onError: Option<HandlerId>): (def: PartialTaskDef)
      ensures def.onSchedule == AppendTo(this)
      ensures def.config.name == (if name.Some? then name else config.name)
      ensures def.config.shield == (if shield.Some? then shield else config.shield)
      ensures def.config.onError == (if onError.Some? then onError else config.onError)
    {
      PartialTaskDef(config.Merge(TaskConfig(name, shield, onError)), AppendTo(this))
    }

    /** `__start__`: start every scheduled task, in insertion order. The list itself is left as it is. */
    method Start(scheduler: TasksScheduler)
      modifies scheduler.tg
      ensures scheduler.tg.log == old(scheduler.tg.log) + scheduled
    {
      var i := 0;
      while i < |scheduled|
        invariant 0 <= i <= |scheduled|
        invariant scheduler.tg.log == old(scheduler.tg.log) + scheduled[..i]
      {
        scheduled[i].Start(scheduler);
        assert scheduled[..i + 1] == scheduled[..i] + [scheduled[i]];
        i := i + 1;
      }
    }
  }

  class TasksScheduler {
    const tg: TaskGroup<Task>
    const config: TaskConfig
    const afterResponse: TasksBatch
    const afterRoute: TasksBatch

    /** The batches `__post_init__` builds: two distinct batches that carry the scheduler's config. */
    ghost predicate Valid()
    {
      afterResponse != afterRoute && afterResponse.config == config && afterRoute.config == config
    }

    /** Built per request; both batches start empty and carry the scheduler's config. */
    constructor (tg: TaskGroup<Task>, config: TaskConfig)
      ensures Valid()
      ensures this.tg == tg && this.config == config
      ensures fresh(afterResponse) && fresh(afterRoute) && afterResponse != afterRoute
      ensures afterResponse.config == config && afterResponse.scheduled == []
      ensures afterRoute.config == config && afterRoute.scheduled == []
    {
      this.tg := tg;
      this.config := config;
      afterResponse := new TasksBatch(config);
      afterRoute := new TasksBatch(config);
    }

    /** `_on_task_schedule`: start the task now. */
    method OnTaskSchedule(task: Task)
      modifies tg
      ensures tg.log == old(tg.log) + [task]
    {
      task.Start(this);
    }

    /** `schedule`: start one task with the scheduler's config at once. */
    method Schedule(func: FuncId, args: seq<Value>, kwargs: map<string, Value>) returns (task: Task)
      modifies tg
      ensures fresh(task) && !task.started
      ensures task.func == func && task.args == args && task.kwargs == kwargs && task.config == config
      ensures tg.log == old(tg.log) + [task]
    {
      task := ScheduleWith(config, StartIn(this), func, args, kwargs);
    }

    /** `task(name=, shield=, on_error=)`: as for a batch, but scheduling through the result starts at once. */
    function TaskWith(name: Option<string>, shield: Option<bool>, onError: Option<HandlerId>): (def: PartialTaskDef)
      ensures def.onSchedule == StartIn(this)
      ensures def.config.name == (if name.Some? then name else config.name)
      ensures def.config.shield == (if shield.Some? then shield else config.shield)
      ensures def.config.onError == (if onError.Some? then onError else config.onError)
    {
      PartialTaskDef(config.Merge(TaskConfig(name, shield, onError)), StartIn(this))
    }
  }

  // ---------------------------------------------------------------------------
  // Configuration scenarios
  // ---------------------------------------------------------------------------

  /** An explicit `shield=False` beats an inherited `shield=True`, while the inherited handler stays. */
  lemma ExplicitFalseOverridesShield(global: TaskConfig)
    requires global.shield == Some(true) && global.onError.Some?
    ensures global.Merge(TaskConfig(None, Some(false), None)).Shielded() == false
    ensures global.Merge(TaskConfig(None, Some(false), None)).onError == global.onError
  {
  }

  /** A per-task handler replaces the global one; the unset name and shield are inherited. */
  lemma TaskHandlerReplacesGlobal(global: TaskConfig, handler: HandlerId)
    ensures global.Merge(TaskConfig(None, None, Some(handler))).onError == Some(handler)
    ensures global.Merge(TaskConfig(None, None, Some(handler))).shield == global.shield
    ensures global.Merge(TaskConfig(None, None, Some(handler))).name == global.name
  {
  }
}

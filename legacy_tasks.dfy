/**
 * The older task module `fastapi_tasks/_tasks.py`: no merge and no error
 * handler; batches are filled with `add` and started with `start`; `task(...)`
 * builds a brand-new config from its own arguments only.
 */
module LegacyTasks {
  import opened Common
  import opened TaskGroups

  datatype TaskConfig = TaskConfig(name: Option<string>, shield: Option<bool>)
  {
    /** `shield is not None and shield`. */
    function Shielded(): (b: bool)
      ensures b <==> shield == Some(true)
    {
      shield.Some? && shield.value
    }
  }

  /** `TaskConfig()`, the default a task gets when none is given. */
  const DefaultConfig := TaskConfig(None, None)

  class Task {
    const func: FuncId
    const args: seq<Value>
    const kwargs: map<string, Value>
    const config: TaskConfig
    var started: bool

    constructor (func: FuncId, args: seq<Value>, kwargs: map<string, Value>, config: TaskConfig)
      ensures this.func == func && this.args == args && this.kwargs == kwargs && this.config == config
      ensures !started
    {
      this.func := func;
      this.args := args;
      this.kwargs := kwargs;
      this.config := config;
      started := false;
    }

    /** `__call__`: set `started`, then run the body; whatever it returns or raises passes straight through. */
    method Call(body: Outcome) returns (r: Outcome)
      modifies this
      ensures started && r == body
    {
      started := true;
      r := body;
    }

    /** `start`: hand this task to the scheduler's task group. */
    method Start(scheduler: TasksScheduler)
      modifies scheduler.tg
      ensures scheduler.tg.log == old(scheduler.tg.log) + [this]
    {
      scheduler.tg.StartSoon(this, config.name);
    }
  }

  class TasksBatch {
    var scheduled: seq<Task>

    constructor ()
      ensures scheduled == []
    {
      scheduled := [];
    }

    /** `add`: append one task with the default config and return it; nothing is started. */
    method Add(func: FuncId, args: seq<Value>, kwargs: map<string, Value>) returns (task: Task)
      modifies this
      ensures fresh(task) && !task.started
      ensures task.func == func && task.args == args && task.kwargs == kwargs && task.config == DefaultConfig
      ensures scheduled == old(scheduled) + [task]
    {
      task := new Task(func, args, kwargs, DefaultConfig);
      scheduled := scheduled + [task];
    }

    /** `start`: start every scheduled task in list order; the list is left as it is. */
    method Start(scheduler: TasksScheduler)
      modifies scheduler.tg
      ensures scheduler.tg.log == old(scheduler.tg.log) + scheduled
    {
      var i := 0;
      while i < |scheduled|
        invariant 0 <= i <= |scheduled|
        invariant scheduler.tg.log == old(scheduler.tg.log) + scheduled[..i]
      {
        scheduled[i].Start(scheduler);
        assert scheduled[..i + 1] == scheduled[..i] + [scheduled[i]];
        i := i + 1;
      }
    }

    /** `task(name=, shield=)`: the decorator that appends a task configured with exactly these values. */
    function TaskWith(name: Option<string>, shield: Option<bool>): (d: BatchDecorator)
      ensures d.batch == this && d.config == TaskConfig(name, shield)
    {
      BatchDecorator(this, TaskConfig(name, shield))
    }
  }

  /** The closure `TasksBatch.task` returns. */
  datatype BatchDecorator = BatchDecorator(batch: TasksBatch, config: TaskConfig)
  {
    method Apply(func: FuncId, args: seq<Value>, kwargs: map<string, Value>) returns (task: Task)
      modifies batch
      ensures fresh(task) && !task.started
      ensures task.func == func && task.args == args && task.kwargs == kwargs && task.config == config
      ensures batch.scheduled == old(batch.scheduled) + [task]
    {
      task := new Task(func, args, kwargs, config);
      batch.scheduled := batch.scheduled + [task];
    }
  }

  class TasksScheduler {
    const tg: TaskGroup<Task>
    const afterRequest: TasksBatch
    const afterEndpoint: TasksBatch

    /** Both batches come from `default_factory`: new, distinct and empty. */
    constructor (tg: TaskGroup<Task>)
      ensures this.tg == tg
      ensures fresh(afterRequest) && fresh(afterEndpoint) && afterRequest != afterEndpoint
      ensures afterRequest.scheduled == [] && afterEndpoint.scheduled == []
    {
      this.tg := tg;
      afterRequest := new TasksBatch();
      afterEndpoint := new TasksBatch();
    }

    /** `start`: start one task with the default config at once; nothing is returned. */
    method Start(func: FuncId, args: seq<Value>, kwargs: map<string, Value>)
      modifies tg
      ensures |tg.log| == |old(tg.log)| + 1 && tg.log[..|old(tg.log)|] == old(tg.log)
      ensures var task := tg.log[|tg.log| - 1];
        fresh(task) && !task.started && task.func == func && task.args == args && task.kwargs == kwargs &&
        task.config == DefaultConfig
    {
      var task := new Task(func, args, kwargs, DefaultConfig);
      task.Start(this);
    }

    /** `task(name=, shield=)`: the decorator that starts a task configured with exactly these values. */
    function TaskWith(name: Option<string>, shield: Option<bool>): (d: SchedulerDecorator)
      ensures d.scheduler == this && d.config == TaskConfig(name, shield)
    {
      SchedulerDecorator(this, TaskConfig(name, shield))
    }
  }

  /** The closure `TasksScheduler.task` returns. */
  datatype SchedulerDecorator = SchedulerDecorator(scheduler: TasksScheduler, config: TaskConfig)
  {
    method Apply(func: FuncId, args: seq<Value>, kwargs: map<string, Value>) returns (task: Task)
      modifies scheduler.tg
      ensures fresh(task) && !task.started
      ensures task.func == func && task.args == args && task.kwargs == kwargs && task.config == config
      ensures scheduler.tg.log == old(scheduler.tg.log) + [task]
    {
      task := new Task(func, args, kwargs, config);
      task.Start(scheduler);
    }
  }
}

# fastapi-tasks: task configuration and scheduling, in Dafny

This project models the core of `fastapi-tasks`, a request-scoped background task
scheduler for FastAPI. A handler can start a task at once (`tasks.schedule`). It can
also queue a task in the `after_route` batch, which starts when the endpoint returns,
or in the `after_response` batch, which starts after the response has been sent.
Every task carries a `TaskConfig` (name, shield flag, error handler). That config is
the process-wide default merged with the call-site overrides.

Modules:

- `Common` (`common.dfy`): `Option`, opaque ids for callables and error handlers,
  exceptions, and the outcome of awaiting a callable.
- `TaskGroups` (`task_group.dfy`): the anyio task group. Its only state is `log`, the
  tasks passed to `start_soon`, oldest first.
- `Tasks` (`tasks.dfy`): `fastapi_tasks/tasks.py`.
  - `TaskConfig` is a datatype; `Shielded` and `Merge` are functions.
  - The laws of `merge` are proved as lemmas: identity, associativity, and per field
    "the last non-None value wins" over any chain of layers.
  - `Task`, `TasksBatch` and `TasksScheduler` are classes. `scheduled` and the
    group's `log` are `seq` fields that the methods update in place.
  - The abstract `_on_task_schedule` hook is the datatype `Hook`. It either appends to
    a batch or starts in the scheduler's group. `_PartialTaskDef` is a datatype that
    holds a config and a hook.
- `Lifecycle` (`lifecycle.dfy`): one request, wired as in `fastapi_tasks/dependencies.py`.
  - The handler's scheduling calls come in as a list of `Step`s.
  - Then `after_route` is started (`dependencies.py:75`), then `after_response`
    (`dependencies.py:61`).
  - The group's log gains the request's tasks in `StartOrder`. That order is proved
    to be a permutation of the calls. It is also sorted stably by phase: immediate,
    then after-route, then after-response, and within a phase in call order.
    `StartOrderFollowsOrder` proves this for the started tasks themselves, not only for
    their call positions.
- `LegacyTasks` (`legacy_tasks.dfy`): the older `fastapi_tasks/_tasks.py`. It has no
  merge and no error handler, `add` instead of `schedule`, and `task(...)` builds a
  fresh config.
- `LegacyAgreement` (`legacy_agreement.dfy`): how the two `TaskConfig`s relate.

The model follows the code, including in these places:

- An exception raised by an `on_error` handler is not caught (`tasks.py:74-75` is
  outside the `try`). `Task.Call` lets it escape as `Raised(e)`.
- A batch is neither cleared nor locked when it is started (`tasks.py:157-162`). A
  batch can be started twice, and scheduling after a start still appends. The model
  promises nothing more.
- `Task.__call__` returns the body's result on success (`tasks.py:70`); it does not
  discard it.

## Model

| member | source | states |
|---|---|---|
| `Tasks.TaskConfig.Shielded` | fastapi_tasks/tasks.py:36-38 | `shielded` is true exactly when `shield` is `Some(true)`; `None` and `False` both give false |
| `Tasks.TaskConfig.Merge` | fastapi_tasks/tasks.py:40-52 | per field, the argument's value wins when it is set, otherwise the receiver's value is kept |
| `Tasks.MergeIdentity` | fastapi_tasks/tasks.py:40-52 | `TaskConfig()` is a left and a right identity of `merge` |
| `Tasks.MergeAssociative` | fastapi_tasks/tasks.py:40-52 | `a.merge(b).merge(c) == a.merge(b.merge(c))` |
| `Tasks.MergeIdempotent` | fastapi_tasks/tasks.py:40-52 | merging the same override a second time changes nothing |
| `Tasks.MergeOverrideScenario` | tests/test_global_config.py:23-36 | an unset name is kept; an explicit `shield=False` and a new handler override the receiver's |
| `Tasks.LastNonNoneUnique` | fastapi_tasks/tasks.py:43-50 | the reference definition "last non-None entry, or None when no entry is set" determines at most one value |
| `Tasks.FoldIsLastNonNone` | fastapi_tasks/tasks.py:43-50 | applying the per-field override left to right yields the last non-None entry, and None only when no entry is set |
| `Tasks.MergeAllByField` | fastapi_tasks/tasks.py:40-52 | merging a chain of configs works on each field separately |
| `Tasks.MergeChainLastNonNone` | fastapi_tasks/tasks.py:40-52 | in a chain of merged configs, every field of the result is the last value that any layer sets, and it is None only when no layer sets it |
| `Tasks.ChainOfThree` | fastapi_tasks/tasks.py:40-52 | `a.merge(b).merge(c)` is the chain `[a, b, c]` merged from `TaskConfig()` |
| `Tasks.ExplicitFalseOverridesShield` | tests/test_global_config.py:112-136 | a call-site `shield=False` makes a globally shielded task unshielded, and the global `on_error` is still inherited |
| `Tasks.TaskHandlerReplacesGlobal` | tests/test_global_config.py:80-109 | for every global config, a per-task `on_error` replaces the global handler, and the global name and shield are inherited unchanged |
| `Tasks.Task.constructor` | fastapi_tasks/tasks.py:55-63 | a new task holds the given func, args, kwargs and config, and `started` is unset |
| `Tasks.Task.Call` | fastapi_tasks/tasks.py:65-77 | `started` is set. On success the body's value is returned and no handler is called. On an exception the result is None, plus exactly one `on_error(task, e)` call when a handler is set; a handler's own exception escapes |
| `Tasks.Task.Start` | fastapi_tasks/tasks.py:79-88 | exactly this task is appended to the scheduler's task-group log |
| `TaskGroups.TaskGroup.StartSoon` | fastapi_tasks/tasks.py:81 | `start_soon` appends exactly one entry to the group's start log |
| `Tasks.Deliver` | fastapi_tasks/tasks.py:114-119 | the hook either appends the task to its batch or starts it in its scheduler's group, and touches nothing else |
| `Tasks.ScheduleWith` | fastapi_tasks/tasks.py:121-131 | builds one fresh, unstarted task with exactly the given config and arguments, and runs the hook once with that same task |
| `Tasks.PartialTaskDef.Schedule` | fastapi_tasks/tasks.py:96-111 | schedules a fresh task with the partial definition's config through its hook |
| `Tasks.TasksBatch.constructor` | fastapi_tasks/tasks.py:152-155 | a batch starts empty, with the given config |
| `Tasks.TasksBatch.OnTaskSchedule` | fastapi_tasks/tasks.py:161-162 | appends the task at the end of `scheduled` |
| `Tasks.TasksBatch.Schedule` | fastapi_tasks/tasks.py:121-131 | appends exactly one fresh task with the batch's config at the end of `scheduled`. Only the batch changes: the task-group log and the other batch are untouched |
| `Tasks.TasksBatch.TaskWith` | fastapi_tasks/tasks.py:133-149 | the definition's config takes each call-site value that is set and inherits the rest from the batch; scheduling through it appends to this batch |
| `Tasks.TasksBatch.Start` | fastapi_tasks/tasks.py:157-159 | appends the `scheduled` tasks to the group log in insertion order, and leaves the batch as it is |
| `Tasks.TasksScheduler.constructor` | fastapi_tasks/tasks.py:165-175 | `after_response` and `after_route` are new, distinct, empty batches that carry the scheduler's config |
| `Tasks.TasksScheduler.OnTaskSchedule` | fastapi_tasks/tasks.py:177-178 | starts the task at once: one entry is appended to the group log |
| `Tasks.TasksScheduler.Schedule` | fastapi_tasks/tasks.py:121-131 | appends exactly one fresh task, with the scheduler's config, to the group log at once |
| `Tasks.TasksScheduler.TaskWith` | fastapi_tasks/tasks.py:133-149 | as for a batch, but scheduling through the result starts the task at once |
| `Lifecycle.PhasedSnoc` | fastapi_tasks/tasks.py:157-178 | one more scheduling call adds its task at the end of its own phase's list and leaves the other phases' lists unchanged |
| `Lifecycle.StartOrderSnoc` | fastapi_tasks/dependencies.py:57-75 | one more scheduling call adds exactly its task to the tasks the request starts, counted as a multiset |
| `Lifecycle.StartOrderIsPermutation` | fastapi_tasks/dependencies.py:57-75 | every scheduled task is started exactly once: the start order is a permutation of the tasks |
| `Lifecycle.PhasedPositions` | fastapi_tasks/tasks.py:157-162 | the tasks of one phase are exactly the calls made in that phase, kept in the order they were made |
| `Lifecycle.OrderIsPermutation` | fastapi_tasks/dependencies.py:57-75 | each call's position appears exactly once in the start order |
| `Lifecycle.AppendPhase` | fastapi_tasks/dependencies.py:61-75 | starting a later phase's tasks, in call order, after the earlier ones keeps the order sorted by phase |
| `Lifecycle.ImmediateThenAfterRoute` | fastapi_tasks/dependencies.py:61-75 | the immediate calls, then the `after_route` calls, are sorted by phase, and all come before every `after_response` call |
| `Lifecycle.StartOrderSortsByPhase` | fastapi_tasks/dependencies.py:57-75 | immediate tasks start before `after_route` tasks, which start before `after_response` tasks; within a phase, tasks start in call order |
| `Lifecycle.PhasedPicks` | fastapi_tasks/tasks.py:157-178 | for any tasks, the tasks of one phase are exactly the tasks at that phase's call positions, in the same order |
| `Lifecycle.StartOrderFollowsOrder` | fastapi_tasks/dependencies.py:57-75 | the tasks the request starts are the tasks at the positions `Order(steps)`, and those positions are sorted stably by phase; so every immediate task starts before every `after_route` task, which starts before every `after_response` task, and within a phase tasks start in call order |
| `Lifecycle.TasksOrderScenario` | tests/test_tasks.py:36-61 | one task per phase starts in the order A, B, C |
| `Lifecycle.ReversedCallsScenario` | fastapi_tasks/dependencies.py:57-75 | the phase decides the order, not the call order: calls made as C, B, A still start as A, B, C |
| `Lifecycle.Perform` | fastapi_tasks/tasks.py:121-149 | one handler call: the task gets the ambient config, or the ambient config merged with the call-site values, and only its own phase gains it |
| `Lifecycle.RunHandler` | fastapi_tasks/tasks.py:121-149 | the handler's calls, in order: each gives one fresh task with its resolved config. The group log gains exactly the immediate tasks, and each batch gains exactly its phase's tasks, in call order |
| `Lifecycle.HandleRequest` | fastapi_tasks/dependencies.py:45-75 | over one request, the group log gains exactly the request's tasks in start order, each with its resolved config; the batches hold their phase's tasks in call order |
| `LegacyTasks.TaskConfig.Shielded` | fastapi_tasks/_tasks.py:26-28 | true exactly when `shield` is set and true |
| `LegacyTasks.Task.constructor` | fastapi_tasks/_tasks.py:31-39 | a new task holds the given fields, and `started` is unset |
| `LegacyTasks.Task.Call` | fastapi_tasks/_tasks.py:41-48 | `started` is set, and the body's return value or exception passes through unchanged |
| `LegacyTasks.Task.Start` | fastapi_tasks/_tasks.py:50-59 | adds exactly this task to the task group |
| `LegacyTasks.TasksBatch.constructor` | fastapi_tasks/_tasks.py:62-64 | a batch starts empty |
| `LegacyTasks.TasksBatch.Add` | fastapi_tasks/_tasks.py:66-76 | appends exactly one fresh task, with config `TaskConfig()`, at the end of `scheduled` and returns it; nothing is started |
| `LegacyTasks.TasksBatch.Start` | fastapi_tasks/_tasks.py:78-80 | starts every scheduled task in list order |
| `LegacyTasks.TasksBatch.TaskWith` | fastapi_tasks/_tasks.py:82-107 | the decorator appends to this batch, and its config is exactly `TaskConfig(name, shield)` |
| `LegacyTasks.BatchDecorator.Apply` | fastapi_tasks/_tasks.py:88-105 | appends one fresh task whose config is exactly `TaskConfig(name, shield)`, with nothing inherited, and returns it |
| `LegacyTasks.TasksScheduler.constructor` | fastapi_tasks/_tasks.py:110-115 | `after_request` and `after_endpoint` are new, distinct, empty batches |
| `LegacyTasks.TasksScheduler.Start` | fastapi_tasks/_tasks.py:117-125 | starts one fresh task with config `TaskConfig()` at once: exactly one entry is appended to the log |
| `LegacyTasks.TasksScheduler.TaskWith` | fastapi_tasks/_tasks.py:127-152 | the decorator starts tasks through this scheduler with exactly `TaskConfig(name, shield)` |
| `LegacyTasks.SchedulerDecorator.Apply` | fastapi_tasks/_tasks.py:133-150 | starts one fresh task with that config at once and returns it |
| `LegacyAgreement.ShieldedAgrees` | fastapi_tasks/_tasks.py:26-28 | the old and the new `shielded` agree on every shield value |
| `LegacyAgreement.LegacyTaskIsMergeOverEmpty` | fastapi_tasks/_tasks.py:82-107 | the old `task(name, shield)` config is the new `task(...)` config over an empty ambient config with no handler |
| `LegacyAgreement.DefaultsAgree` | fastapi_tasks/_tasks.py:37 | the old default config is the new `TaskConfig()` |

## Left out

- Logging of task failures (`tasks.py:72`) is not modelled. It has no effect on control flow.
- `always_async_call` (`fastapi_tasks/utils.py`) dispatches sync and async callables through Starlette; that is a foreign call. The task body's outcome, and the error handler's, are parameters of `Task.Call` instead.
- The worker-thread detection in `Task.__start__` (`tasks.py:83-88`, `_tasks.py:54-59`) is runtime plumbing. Both branches come down to one `start_soon`, which is the only thing modelled.
- Cancellation scopes, shielding at shutdown, and the lifespan task group (`tasks.py:69`, `dependencies.py:21-28`) are concurrency. Only the `shielded` flag is modelled. A cancellation (`CancelledError`, a `BaseException`) that escapes `except Exception` is not modelled either.
- Tasks run concurrently after they start. The model records start order only, never completion order.
- The name passed to `start_soon` only labels the task, so the log does not record it.
- Tasks.Task.Call: "started is set before the body runs" is not observable in the model. The body's outcome is a parameter, so the contract promises only that `started` is set afterwards.
- Tasks.TaskConfig.Merge: "merge does not mutate its operands" holds by construction, because `TaskConfig` is an immutable value. No separate lemma states it. The value model also loses aliasing. In Python, `TaskConfig` is a mutable dataclass, and one object is shared by reference: the scheduler passes its config to both batches (`tasks.py:174-175`), and every task holds the ambient or partial config (`tasks.py:107`, `tasks.py:128`). The core never mutates a config, so nothing in the core can observe the sharing. User code that mutates `task.config`, for example in an `on_error` handler, can, and the model does not capture that.
- Lifecycle.HandleRequest: it models a handler that returns normally. If the endpoint raises, the code after `yield` in the dependencies does not run. That path is not modelled.
- `fastapi_tasks/dependencies.py` and `fastapi_tasks/_dependencies.py` are FastAPI wiring. The lifespan setup, `add_tasks`, and the "uninitialized app" error are not modelled. The model keeps only the two release calls and their order in `dependencies.py`. The legacy module's wiring is not modelled.
- `errors.py` and `__init__.py` are not modelled: they only hold exception classes and re-exports.

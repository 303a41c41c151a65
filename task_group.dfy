/**
 * The anyio task group that both task modules hand their tasks to.
 * Only what the scheduler observes is kept: the order in which tasks were started.
 */
module TaskGroups {
  import opened Common

  class TaskGroup<T> {
    /** Every task passed to `start_soon`, oldest first. */
    var log: seq<T>

    constructor ()
      ensures log == []
    {
      log := [];
    }

    /** `start_soon(task, name=...)`: the task begins running concurrently; the name only labels it. */
    method StartSoon(task: T, name: Option<string>)
      modifies this
      ensures log == old(log) + [task]
    {
      log := log + [task];
    }
  }
}

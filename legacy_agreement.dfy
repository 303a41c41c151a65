/**
 * How the older `_tasks.py` configuration relates to the one in `tasks.py`:
 * the same `shielded`, and its `task(name=, shield=)` is what the newer
 * `task(...)` gives under an empty ambient config and no handler.
 */
module LegacyAgreement {
  import opened Common
  import Tasks
  import LegacyTasks

  /** The configuration a legacy config stands for in the newer module. */
  function Upgrade(c: LegacyTasks.TaskConfig): Tasks.TaskConfig
  {
    Tasks.TaskConfig(c.name, c.shield, None)
  }

  /** Both `shielded` definitions agree on every shield value. */
  lemma ShieldedAgrees(c: LegacyTasks.TaskConfig)
    ensures Upgrade(c).Shielded() == c.Shielded()
  {
  }

  /** Legacy `task(name, shield)` equals the newer `task(name, shield)` over `TaskConfig()`: nothing is inherited. */
  lemma LegacyTaskIsMergeOverEmpty(name: Option<string>, shield: Option<bool>)
    ensures Tasks.Empty.Merge(Tasks.TaskConfig(name, shield, None)) == Upgrade(LegacyTasks.TaskConfig(name, shield))
  {
  }

  /** The legacy default config is the newer `TaskConfig()`. */
  lemma DefaultsAgree()
    ensures Upgrade(LegacyTasks.DefaultConfig) == Tasks.Empty
  {
  }
}

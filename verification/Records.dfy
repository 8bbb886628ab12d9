/** The tables of models.py, one datatype per entity; instants are integer microseconds (UTC). */
module Records {
  import opened Prelude

  const SECOND: int := 1_000_000

  datatype RunState = Pending | Running | Success | Failed | Cancelled {
    predicate Active() { Pending? || Running? }
  }

  datatype Status = Due | Dispatched | Retry | Exhausted | Blocked

  datatype WaitReason = TaskActive | SourceBusy | DestinationBusy | Capacity

  /** A destination as path components, led by its namespace ("fs" or "zfs"). */
  type Key = seq<string>

  /** The configuration a client writes. `settings` stands for every other locked field,
      `notes` for every field that is safe to edit during a run. */
  datatype Config = Config(sourceId: int, cron: string, enabled: bool,
                           destination: Option<Key>, destinationValid: bool,
                           settings: string, notes: string)

  /** `baseline` is schedule_baseline_at, the watermark; `epoch` is schedule_epoch_at. */
  datatype Task = Task(config: Config, createdAt: int, baseline: Option<int>, epoch: Option<int>)

  datatype Run = Run(task: int, state: RunState, startedAt: int, finishedAt: Option<int>, error: string)

  /** The one outstanding obligation of a task; `newer` is newer_due_at, the follow-up marker. */
  datatype Row = Row(dueAt: int, status: Status, waitReason: Option<WaitReason>, attempts: nat,
                     retryAt: Option<int>, lastError: string, runId: Option<int>,
                     newer: Option<int>, updatedAt: int)

  datatype Db = Db(tasks: map<int, Task>, runs: map<int, Run>, rows: map<int, Row>)

  function NewRow(at: int, now: int): Row {
    Row(at, Due, None, 0, None, "", None, None, now)
  }

  /** Start instants of the runs of task `t` that satisfy `p`. */
  function StartsOf(runs: map<int, Run>, t: int, p: Run -> bool): set<int> {
    set id | id in runs && runs[id].task == t && p(runs[id]) :: runs[id].startedAt
  }

  predicate HasActiveRun(runs: map<int, Run>, t: int) {
    exists id :: id in runs && runs[id].task == t && runs[id].state.Active()
  }
}

/** How runner.py admits, starts, ends and reclaims runs, as functions of the tables. */
module Lifecycle {
  import opened Prelude
  import opened Records
  import opened DueWork
  import opened Dispatching

  const ORPHAN_GRACE_SECONDS: int := 300
  const ORPHANED: string :=
    RECLAIMED + ": no execution owns it in this process, so it cannot be running"

  datatype Denial = TaskIsActive | SourceIsActive

  predicate SourceActive(db: Db, sourceId: int) {
    exists id :: id in db.runs && db.runs[id].state.Active()
      && db.runs[id].task in db.tasks && db.tasks[db.runs[id].task].config.sourceId == sourceId
  }

  function Refusal(db: Db, t: int): Option<Denial>
    requires t in db.tasks
  {
    if HasActiveRun(db.runs, t) then Some(TaskIsActive)
    else if SourceActive(db, db.tasks[t].config.sourceId) then Some(SourceIsActive)
    else None
  }

  function AddPending(db: Db, t: int, now: int): Db {
    db.(runs := db.runs[NextId(db.runs) := PendingRun(t, now)])
  }

  function Ended(run: Run, state: RunState, message: string, now: int): Run {
    run.(state := state, finishedAt := Some(now), error := message)
  }

  /** The stamp an execution puts on its row once it holds its locks. */
  function Began(run: Run, now: int): Run {
    run.(state := Running, startedAt := now)
  }

  /** The execution's own terminal write settles the obligation that names the run, in one transaction. */
  function Conclude(db: Db, id: int, state: RunState, message: string, now: int): Db
    requires id in db.runs
  {
    var run := Ended(db.runs[id], state, message, now);
    var t := run.task;
    db.(runs := db.runs[id := run],
        rows := if t in db.rows && db.rows[t].runId == Some(id)
                then Put(db.rows, t, ApplyOutcome(db.rows[t], run, now)) else db.rows)
  }

  /** An owner that exits early fails its row, unless the row is already terminal. */
  function Terminalize(db: Db, id: int, state: RunState, message: string, now: int): Db {
    if id in db.runs && db.runs[id].state.Active() then
      db.(runs := db.runs[id := Ended(db.runs[id], state, message, now)])
    else db
  }

  predicate Orphaned(run: Run, id: int, owned: set<int>, now: int) {
    run.state.Active() && id !in owned && run.startedAt <= now - ORPHAN_GRACE_SECONDS * SECOND
  }

  function Sweep(db: Db, owned: set<int>, now: int): Db {
    db.(runs := map id | id in db.runs ::
          if Orphaned(db.runs[id], id, owned, now) then Ended(db.runs[id], Failed, ORPHANED, now)
          else db.runs[id])
  }

  /** Startup: no active row can belong to this process. */
  function ReconcileStale(db: Db, now: int): Db {
    db.(runs := map id | id in db.runs ::
          if db.runs[id].state.Active() then Ended(db.runs[id], Failed, RESTARTED, now) else db.runs[id])
  }

  /** Some locked field would change. */
  predicate UnsafeActiveChange(old_: Config, new_: Config) {
    old_.(cron := new_.cron, enabled := new_.enabled, notes := new_.notes) != new_
  }

  function UpdateTask(db: Db, t: int, config: Config, now: int): Db
    requires t in db.tasks
  {
    var before := db.tasks[t].config;
    OnTaskEdited(db.(tasks := db.tasks[t := db.tasks[t].(config := config)]), t,
                 before.cron != config.cron || before.enabled != config.enabled, now)
  }

  function DeleteTask(db: Db, t: int): Db {
    Db(db.tasks - {t}, map id | id in db.runs && db.runs[id].task != t :: db.runs[id], db.rows - {t})
  }
}

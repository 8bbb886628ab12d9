/** What every operation of due.py does to the tables, as functions of the tables. */
module DueWork {
  import opened Prelude
  import opened Records
  import opened Schedule

  const BACKOFF_INITIAL_SECONDS: int := 60
  const BACKOFF_CEILING_SECONDS: int := 3600
  const MAX_AUTOMATIC_RETRIES: nat := 5
  const TICK_EARLY_TOLERANCE: int := SECOND

  const RESTARTED: string := "interrupted by application restart"
  const RECLAIMED: string := "run reclaimed by the watchdog"
  const CANCELLED: string := "run cancelled"
  const INFRASTRUCTURE_FAILURES: set<string> := {RESTARTED, RECLAIMED, CANCELLED}
  const PERMANENT_FAILURES: set<string> :=
    {"run owner failed: PathNotAllowed", "run owner failed: ValueError"}

  function Pow2(n: nat): nat {
    if n == 0 then 1 else 2 * Pow2(n - 1)
  }

  function BackoffSeconds(retryNumber: int): int {
    var doubled := BACKOFF_INITIAL_SECONDS * Pow2(if retryNumber < 1 then 0 else retryNumber - 1);
    if doubled < BACKOFF_CEILING_SECONDS then doubled else BACKOFF_CEILING_SECONDS
  }

  predicate Contains(text: string, part: string) {
    exists i :: 0 <= i <= |text| && part <= text[i..]
  }

  predicate Infrastructure(message: string) {
    exists prefix :: prefix in INFRASTRUCTURE_FAILURES && prefix <= message
  }

  predicate Permanent(message: string) {
    exists marker :: marker in PERMANENT_FAILURES && Contains(message, marker)
  }

  function Clip(message: string): string {
    if |message| <= 500 then message else message[..500]
  }

  /** `SELECT ... ORDER BY started_at` over the pending and running runs of `t`. */
  function ActiveStart(runs: map<int, Run>, t: int): Option<int> {
    Earliest(StartsOf(runs, t, (r: Run) => r.state.Active()))
  }

  /** Start of the newest success of `t` that began at or after `dueAt`. */
  function PaidStart(runs: map<int, Run>, t: int, dueAt: int): Option<int> {
    Latest(StartsOf(runs, t, (r: Run) => r.state.Success? && dueAt <= r.startedAt))
  }

  /** End of the newest run, else the creation instant. Among equal starts the lowest id is the newest. */
  function DeriveBaseline(runs: map<int, Run>, t: int, createdAt: int): int {
    var newest := Latest(StartsOf(runs, t, (r: Run) => true));
    if newest.None? then createdAt
    else
      var ids := set id | id in runs && runs[id].task == t && runs[id].startedAt == newest.value;
      var first := Earliest(ids);
      assert exists id :: id in ids by {
        var id :| id in runs && runs[id].task == t && runs[id].startedAt == newest.value;
        assert id in ids;
      }
      var run := runs[first.value];
      if run.finishedAt.Some? then run.finishedAt.value else run.startedAt
  }

  function RunCovers(runs: map<int, Run>, t: int, baseline: Option<int>): bool {
    baseline.Some? && exists id :: id in runs && runs[id].task == t && baseline.value <= runs[id].startedAt
  }

  function Rearmed(row: Row): Row {
    row.(status := Due, attempts := 0, retryAt := None, lastError := "")
  }

  /** The paid obligation is gone; its follow-up, if any, becomes the obligation. */
  function Finish(row: Row, followUp: Option<int>, now: int): Option<Row> {
    if followUp.None? then None
    else Some(Row(followUp.value, Due, None, 0, None, "", None, None, now))
  }

  function Charge(row: Row, message: string, now: int): Row {
    var attempts := row.attempts + 1;
    if MAX_AUTOMATIC_RETRIES < attempts then
      row.(attempts := attempts, lastError := Clip(message), runId := None, waitReason := None,
           status := Exhausted, retryAt := None, updatedAt := now)
    else
      row.(attempts := attempts, lastError := Clip(message), runId := None, waitReason := None,
           status := Retry, retryAt := Some(now + BackoffSeconds(attempts) * SECOND), updatedAt := now)
  }

  /** What the terminal state of `run` makes of the obligation that started it. */
  function ApplyOutcome(row: Row, run: Run, now: int): Option<Row> {
    match run.state
    case Pending => Some(row)
    case Running => Some(row)
    case Success => Finish(row, row.newer, now)
    case Cancelled => None
    case Failed =>
      if Infrastructure(run.error) then
        Some(row.(status := Due, runId := None, waitReason := None, retryAt := None, updatedAt := now))
      else if Permanent(run.error) then
        Some(row.(status := Blocked, runId := None, waitReason := None, retryAt := None,
                  lastError := Clip(run.error), updatedAt := now))
      else Some(Charge(row, run.error, now))
  }

  function After(newer: Option<int>, started: int): Option<int> {
    if newer.Some? && newer.value <= started then None else newer
  }

  function Settle(tasks: map<int, Task>, runs: map<int, Run>, t: int, row: Row, now: int): Option<Row> {
    if t !in tasks then None
    else
      match row.status
      case Dispatched =>
        if row.runId.None? || row.runId.value !in runs then Some(row.(status := Due, runId := None))
        else ApplyOutcome(row, runs[row.runId.value], now)
      case Blocked => Some(row)
      case _ =>
        var paid := PaidStart(runs, t, row.dueAt);
        if paid.Some? then Finish(row, After(row.newer, paid.value), now)
        else if row.newer.Some? && ActiveStart(runs, t).None? then
          var cleared := row.(newer := None, updatedAt := now);
          Some(if row.status.Exhausted? then Rearmed(cleared) else cleared)
        else Some(row)
  }

  /** Store or delete the obligation of `t`. */
  function Put(rows: map<int, Row>, t: int, row: Option<Row>): map<int, Row> {
    if row.Some? then rows[t := row.value] else rows - {t}
  }

  function SettleAt(db: Db, t: int, now: int): Db {
    if t in db.rows then db.(rows := Put(db.rows, t, Settle(db.tasks, db.runs, t, db.rows[t], now))) else db
  }

  function SettleAll(db: Db, now: int): Db {
    db.(rows := map t | t in db.rows && Settle(db.tasks, db.runs, t, db.rows[t], now).Some?
                  :: Settle(db.tasks, db.runs, t, db.rows[t], now).value)
  }

  /** The row with the follow-up recorded, or None when the occurrence is not accounted for here. */
  function Note(runs: map<int, Run>, t: int, row: Row, at: int, latest: Option<int>): Option<Row> {
    if row.status.Dispatched? then Some(if row.newer.None? then row.(newer := Some(at)) else row)
    else if row.status.Blocked? then None
    else
      var started := ActiveStart(runs, t);
      var newest := if latest.Some? then latest.value else at;
      if started.None? || newest <= started.value then None
      else Some(if row.newer.None? then row.(newer := Some(newest)) else row)
  }

  function SetBaseline(db: Db, t: int, w: int): Db
    requires t in db.tasks
  {
    db.(tasks := db.tasks[t := db.tasks[t].(baseline := Some(w))])
  }

  /** Occurrences `first`..`latest` of task `t` become its one obligation. */
  function FoldRow(db: Db, t: int, first: int, latest: int, now: int): Row {
    if t !in db.rows then NewRow(first, now)
    else
      var row := db.rows[t];
      var noted := Note(db.runs, t, row, first, Some(latest));
      (if noted.Some? then noted.value
       else if row.status.Exhausted? then Rearmed(row)
       else row).(updatedAt := now)
  }

  function InvalidCron(cron: string): string {
    Clip("invalid cron expression '" + cron + "': edit the task to fix its schedule")
  }

  function BlockInvalid(db: Db, t: int, now: int): Db
    requires t in db.tasks
  {
    var row := if t in db.rows then db.rows[t] else NewRow(now, now);
    if !row.status.Blocked? || !Contains(row.lastError, "cron") then
      db.(rows := db.rows[t := row.(status := Blocked, waitReason := None, retryAt := None,
                                    lastError := InvalidCron(db.tasks[t].config.cron), updatedAt := now)])
    else db
  }

  function BaselineOf(db: Db, t: int): int
    requires t in db.tasks
  {
    var task := db.tasks[t];
    if task.baseline.Some? then task.baseline.value else DeriveBaseline(db.runs, t, task.createdAt)
  }

  /** Some occurrence after the watermark has come. */
  predicate Owes(cal: Calendar, db: Db, t: int, now: int)
    requires t in db.tasks
  {
    !FoldedUpTo(cal, db.tasks[t].config.cron, BaselineOf(db, t), now)
  }

  function FoldFrom(cal: Calendar, db: Db, t: int, now: int): Db
    requires t in db.tasks
  {
    var cron := db.tasks[t].config.cron;
    var w := BaselineOf(db, t);
    if !Owes(cal, db, t, now) then SetBaseline(db, t, w)
    else
      var first := NextOccurrence(cal, cron, w);
      var latest := Walk(cal, cron, first.value, now, MAX_OCCURRENCE_SCAN);
      var row := FoldRow(db, t, first.value, latest, now);
      SetBaseline(db, t, latest).(rows := db.rows[t := row])
  }

  function Reconcile(cal: Calendar, db: Db, t: int, now: int): Db
    requires t in db.tasks
  {
    var task := db.tasks[t];
    if !task.config.enabled then db
    else if !cal.parses(task.config.cron) then BlockInvalid(db, t, now)
    else FoldFrom(cal, SettleAt(db, t, now), t, now)
  }

  /** The occurrence an early callback stands for, if it is one. */
  function EarlyOccurrence(cal: Calendar, task: Task, now: int): Option<int> {
    if task.baseline.None? then None
    else
      var upcoming := NextOccurrence(cal, task.config.cron, task.baseline.value);
      if upcoming.Some? && 0 <= upcoming.value - now <= TICK_EARLY_TOLERANCE then upcoming else None
  }

  function TickRow(db: Db, t: int, upcoming: int, now: int): Row {
    if t !in db.rows then NewRow(now, now)
    else
      var noted := Note(db.runs, t, db.rows[t], upcoming, None);
      if noted.Some? then noted.value else db.rows[t]
  }

  /** Nothing is owed and no run since the watermark can have paid the occurrence this tick stands for. */
  predicate TickIsUnaccounted(db: Db, t: int)
    requires t in db.tasks
  {
    t !in db.rows && !RunCovers(db.runs, t, db.tasks[t].baseline)
  }

  /** What the tick itself adds to tables the schedule scan has just brought up to date. */
  function AddTick(cal: Calendar, db: Db, t: int, now: int): Db
    requires t in db.tasks
  {
    var task := db.tasks[t];
    var early := EarlyOccurrence(cal, task, now);
    if early.Some? then
      SetBaseline(db, t, early.value).(rows := db.rows[t := TickRow(db, t, early.value, now)])
    else if TickIsUnaccounted(db, t) then
      SetBaseline(db, t, if task.baseline.Some? then Max(task.baseline.value, now) else now)
        .(rows := db.rows[t := NewRow(now, now)])
    else db
  }

  /** A tick that neither folds nor adds anything leaves its transaction uncommitted, so even the
      settling it did along the way is rolled back. */
  function RecordTick(cal: Calendar, db: Db, t: int, now: int): Db {
    if t !in db.tasks || !db.tasks[t].config.enabled then db
    else
      var folded := Reconcile(cal, db, t, now);
      if EarlyOccurrence(cal, folded.tasks[t], now).Some? || TickIsUnaccounted(folded, t)
         || !cal.parses(db.tasks[t].config.cron) || Owes(cal, db, t, now)
      then AddTick(cal, folded, t, now)
      else db
  }

  function OnTaskEdited(db: Db, t: int, scheduleChanged: bool, now: int): Db
    requires t in db.tasks
  {
    var task := db.tasks[t];
    if scheduleChanged || !task.config.enabled then
      Db(db.tasks[t := task.(baseline := Some(now), epoch := Some(now))], db.runs, db.rows - {t})
    else if t in db.rows && (db.rows[t].status.Blocked? || db.rows[t].status.Exhausted?) then
      db.(rows := db.rows[t := Rearmed(db.rows[t]).(updatedAt := now)])
    else db
  }
}

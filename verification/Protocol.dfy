/** The whole service as a state machine. Every step is one uninterrupted stretch of the event loop. */
module Protocol {
  import opened Prelude
  import opened Records
  import opened Schedule
  import opened DueWork
  import opened Dispatching
  import opened Lifecycle

  /** How far the one execution of a run has come. `Owned` and later are entries of `_run_owners`. */
  datatype Phase = Scheduled | Owned | Inside | Written

  /** `tokens` is `_generations`. `origin` is bookkeeping of the model: the watermark from which a
      task's occurrences count as owed, moved by a schedule edit and by a deliberate cancel. */
  datatype Sys = Sys(db: Db, live: map<int, Phase>, tokens: map<int, nat>, issued: nat,
                     origin: map<int, int>, now: int)

  datatype Env = Env(cal: Calendar, limit: int)

  datatype Step =
    | Advance(to: int)
    | Create(t: int, config: Config)
    | Callback(t: int, token: nat)
    | ReconcileOne(t: int)
    | SettleEvery
    | DispatchDue(sources: set<int>, order: seq<int>)
    | RunNow(t: int)
    | Register(id: int)
    | Begin(id: int)
    | Finalize(id: int, state: RunState, message: string)
    | Leave(id: int, state: RunState, message: string)
    | Vanish(id: int)
    | Watchdog
    | Restart
    | Edit(t: int, config: Config)
    | Delete(t: int)

  function OwnedIds(live: map<int, Phase>): set<int> {
    set id | id in live && !live[id].Scheduled?
  }

  /** A dispatched obligation left the table because its run was deliberately cancelled. */
  predicate Waived(db: Db, after: Db, t: int) {
    && t in db.rows && db.rows[t].status.Dispatched? && db.rows[t].runId.Some?
    && db.rows[t].runId.value in after.runs && after.runs[db.rows[t].runId.value].state.Cancelled?
    && !(t in after.rows && after.rows[t] == db.rows[t])
  }

  /** Where counting starts for `t` after the tables went from `db` to `after`. */
  function OriginOf(db: Db, after: Db, t: int, origin: map<int, int>): int
    requires t in after.tasks
  {
    if t !in db.tasks then after.tasks[t].createdAt
    else if (db.tasks[t].baseline.None? && after.tasks[t].baseline.Some?) || Waived(db, after, t) then BaselineOf(db, t)
    else if t in origin then origin[t] else 0
  }

  function Track(db: Db, after: Db, origin: map<int, int>): map<int, int> {
    map t | t in after.tasks :: OriginOf(db, after, t, origin)
  }

  function Becomes(s: Sys, after: Db): Sys {
    s.(db := after, origin := Track(s.db, after, s.origin))
  }

  /** `upsert_job`: the old callback is dead, and an enabled parseable task gets a new token. */
  function Upserted(cal: Calendar, tokens: map<int, nat>, issued: nat, t: int, config: Config): map<int, nat> {
    if config.enabled && cal.parses(config.cron) then tokens[t := issued] else tokens - {t}
  }

  ghost predicate Enabled(env: Env, s: Sys, step: Step) {
    match step
    case Advance(to) => s.now <= to
    case Create(t, _) => t !in s.db.tasks
    case Callback(_, _) => true
    case ReconcileOne(t) => t in s.db.tasks
    case SettleEvery => true
    case DispatchDue(_, order) => ByAge(SettleAll(s.db, s.now).rows, order)
    case RunNow(t) => t in s.db.tasks
    case Register(id) => id in s.live && s.live[id].Scheduled?
    case Begin(id) => id in s.live && s.live[id].Owned?
    case Finalize(id, state, _) => id in s.live && s.live[id].Inside? && id in s.db.runs && !state.Active()
    case Leave(id, state, _) => id in s.live && (state.Failed? || state.Cancelled?)
    case Vanish(id) => id in s.live
    case Watchdog => true
    case Restart => true
    case Edit(t, config) =>
      t in s.db.tasks
      && (HasActiveRun(s.db.runs, t) ==> !UnsafeActiveChange(s.db.tasks[t].config, config))
    case Delete(t) => t in s.db.tasks && !HasActiveRun(s.db.runs, t)
  }

  function WithRuns(live: map<int, Phase>, started: seq<int>): map<int, Phase> {
    map id | id in live.Keys + (set k | k in started) :: if id in started then Scheduled else live[id]
  }

  /** `execute_run` past its locks: only a still pending row is taken over. */
  function BeginRun(s: Sys, id: int): Sys {
    if id in s.db.runs && s.db.runs[id].state.Pending? then
      Becomes(s, s.db.(runs := s.db.runs[id := Began(s.db.runs[id], s.now)])).(live := s.live[id := Inside])
    else s.(live := s.live - {id})
  }

  function CreateTask(env: Env, s: Sys, t: int, config: Config): Sys {
    Becomes(s, s.db.(tasks := s.db.tasks[t := Task(config, s.now, None, None)]))
      .(tokens := Upserted(env.cal, s.tokens, s.issued, t, config), issued := s.issued + 1)
  }

  /** A callback whose token was replaced is ignored. */
  function Fire(env: Env, s: Sys, t: int, token: nat): Sys {
    if t in s.tokens && s.tokens[t] == token then Becomes(s, RecordTick(env.cal, s.db, t, s.now)) else s
  }

  function Pump(env: Env, s: Sys, sources: set<int>, order: seq<int>): Sys
    requires Distinct(order) && forall t :: t in order ==> t in SettleAll(s.db, s.now).rows
  {
    var p := DispatchPass(SettleAll(s.db, s.now), sources, env.limit, order, s.now);
    Becomes(s, Db(s.db.tasks, p.runs, p.rows)).(live := WithRuns(s.live, p.started))
  }

  function AdmitManually(s: Sys, t: int): Sys
    requires t in s.db.tasks
  {
    if Refusal(s.db, t).Some? then s
    else Becomes(s, AddPending(s.db, t, s.now)).(live := s.live[NextId(s.db.runs) := Scheduled])
  }

  function WriteOutcome(s: Sys, id: int, state: RunState, message: string): Sys
    requires id in s.db.runs
  {
    Becomes(s, Conclude(s.db, id, state, message, s.now)).(live := s.live[id := Written])
  }

  /** An owner that leaves early terminalizes its row on the way out. An execution that writes nothing at all, because
      it never took its first turn or because its last write failed, vanishes instead (`Vanish`). */
  function Exit(s: Sys, id: int, state: RunState, message: string): Sys {
    Becomes(s, Terminalize(s.db, id, state, message, s.now)).(live := s.live - {id})
  }

  function Reboot(env: Env, s: Sys): Sys {
    Becomes(s, ReconcileStale(s.db, s.now))
      .(live := map[], issued := s.issued + 1,
        tokens := map t | t in s.db.tasks && s.db.tasks[t].config.enabled
                          && env.cal.parses(s.db.tasks[t].config.cron) :: s.issued)
  }

  predicate Resets(before: Config, config: Config) {
    before.cron != config.cron || before.enabled != config.enabled || !config.enabled
  }

  function EditTask(env: Env, s: Sys, t: int, config: Config): Sys
    requires t in s.db.tasks
  {
    var after := Becomes(s, UpdateTask(s.db, t, config, s.now));
    after.(origin := if Resets(s.db.tasks[t].config, config) then after.origin[t := s.now] else after.origin,
           tokens := Upserted(env.cal, s.tokens, s.issued, t, config), issued := s.issued + 1)
  }

  function RemoveTask(s: Sys, t: int): Sys {
    var db := DeleteTask(s.db, t);
    Becomes(s, db).(tokens := s.tokens - {t}, live := map id | id in s.live && id in db.runs :: s.live[id])
  }

  ghost function Next(env: Env, s: Sys, step: Step): Sys
    requires Enabled(env, s, step)
  {
    match step
    case Advance(to) => s.(now := to)
    case Create(t, config) => CreateTask(env, s, t, config)
    case Callback(t, token) => Fire(env, s, t, token)
    case ReconcileOne(t) => Becomes(s, Reconcile(env.cal, s.db, t, s.now))
    case SettleEvery => Becomes(s, SettleAll(s.db, s.now))
    case DispatchDue(sources, order) => Pump(env, s, sources, order)
    case RunNow(t) => AdmitManually(s, t)
    case Register(id) => s.(live := s.live[id := Owned])
    case Begin(id) => BeginRun(s, id)
    case Finalize(id, state, message) => WriteOutcome(s, id, state, message)
    case Leave(id, state, message) => Exit(s, id, state, message)
    case Vanish(id) => s.(live := s.live - {id})
    case Watchdog => Becomes(s, Sweep(s.db, OwnedIds(s.live), s.now))
    case Restart => Reboot(env, s)
    case Edit(t, config) => EditTask(env, s, t, config)
    case Delete(t) => RemoveTask(s, t)
  }

  /** An empty installation. */
  predicate Init(s: Sys) {
    s.db == Db(map[], map[], map[]) && s.live == map[] && s.tokens == map[] && s.origin == map[]
  }

  ghost predicate IsTrace(env: Env, states: seq<Sys>, steps: seq<Step>) {
    && |states| == |steps| + 1
    && Init(states[0])
    && forall i :: 0 <= i < |steps| ==> Enabled(env, states[i], steps[i]) && states[i + 1] == Next(env, states[i], steps[i])
  }
}

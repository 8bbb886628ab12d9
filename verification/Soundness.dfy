/** What holds of the tables and the executions in every reachable state, whatever anyone does when. */
module Soundness {
  import opened Prelude
  import opened Records
  import opened Schedule
  import opened DueWork
  import opened Dispatching
  import opened Lifecycle
  import opened Protocol
  import opened DebtInvariant
  import opened DebtSteps
  import opened PassFacts

  /** A row that names a run names one of its own task. */
  ghost predicate NamesOwnRun(runs: map<int, Run>, t: int, row: Row) {
    row.runId.Some? ==> row.runId.value in runs && runs[row.runId.value].task == t
  }

  ghost predicate TablesSound(db: Db, now: int) {
    && (forall t :: t in db.rows ==> t in db.tasks && NamesOwnRun(db.runs, t, db.rows[t]))
    && (forall id :: id in db.runs ==> db.runs[id].task in db.tasks && InPast(db.runs[id], now))
    && (forall t :: t in db.tasks ==> db.tasks[t].createdAt <= now)
    && SoleActive(db.tasks, db.runs)
  }

  /** An execution past its locks is the one that turned its row to running. */
  ghost predicate LiveSound(live: map<int, Phase>, runs: map<int, Run>) {
    forall id :: id in live ==> id in runs && (live[id].Inside? ==> runs[id].state.Running?)
  }

  ghost predicate Sound(s: Sys) {
    && TablesSound(s.db, s.now)
    && LiveSound(s.live, s.db.runs)
    && s.origin.Keys == s.db.tasks.Keys
    && (forall t :: t in s.tokens ==> t in s.db.tasks && s.tokens[t] < s.issued)
  }

  // ------------------------------------------------------------------ tables

  lemma SettleNames(tasks: map<int, Task>, runs: map<int, Run>, t: int, row: Row, now: int)
    requires NamesOwnRun(runs, t, row)
    ensures Settle(tasks, runs, t, row, now).Some? ==> NamesOwnRun(runs, t, Settle(tasks, runs, t, row, now).value)
  {
  }

  lemma ReconcileNames(cal: Calendar, db: Db, t: int, now: int)
    requires t in db.tasks && (t in db.rows ==> NamesOwnRun(db.runs, t, db.rows[t]))
    ensures var after := Reconcile(cal, db, t, now); t in after.rows ==> NamesOwnRun(after.runs, t, after.rows[t])
  {
    if db.tasks[t].config.enabled && cal.parses(db.tasks[t].config.cron) {
      if t in db.rows {
        SettleNames(db.tasks, db.runs, t, db.rows[t], now);
      }
    }
  }

  lemma TickNames(cal: Calendar, db: Db, t: int, now: int)
    requires t in db.tasks && (t in db.rows ==> NamesOwnRun(db.runs, t, db.rows[t]))
    ensures var after := RecordTick(cal, db, t, now); t in after.rows ==> NamesOwnRun(after.runs, t, after.rows[t])
  {
    ReconcileNames(cal, db, t, now);
    ReconcileTouchesOnly(cal, db, t, now);
  }

  /** Only sources, and which runs are active, decide whether sources are used once. */
  lemma SoleActiveKept(tasks: map<int, Task>, runs: map<int, Run>, after: map<int, Task>, runsAfter: map<int, Run>)
    requires SoleActive(tasks, runs)
    requires forall id :: ActiveAt(after, runsAfter, id) ==>
      ActiveAt(tasks, runs, id) && runsAfter[id].task == runs[id].task
      && after[runs[id].task].config.sourceId == tasks[runs[id].task].config.sourceId
    ensures SoleActive(after, runsAfter)
  {
  }

  lemma SettleAllKeepsTables(db: Db, now: int)
    requires TablesSound(db, now)
    ensures TablesSound(SettleAll(db, now), now)
  {
    forall t | t in SettleAll(db, now).rows
      ensures NamesOwnRun(db.runs, t, SettleAll(db, now).rows[t])
    {
      SettleNames(db.tasks, db.runs, t, db.rows[t], now);
    }
  }

  lemma PassKeepsTables(db: Db, p: Pass, now: int)
    requires TablesSound(db, now) && PassInv(db, p, now) && SoleActive(db.tasks, p.runs)
    ensures TablesSound(Db(db.tasks, p.runs, p.rows), now)
  {
    forall t | t in p.rows
      ensures NamesOwnRun(p.runs, t, p.rows[t])
    {
      assert RowOutcome(db, p, t, now);
      if p.rows[t].runId.Some? && SameDebt(db.rows[t], p.rows[t]) {
        var id := p.rows[t].runId.value;
        assert db.rows[t].runId == Some(id) && NamesOwnRun(db.runs, t, db.rows[t]);
        assert id in db.runs;
      }
    }
  }

  /** Runs may only end: every other field but the outcome stays. */
  ghost predicate OnlyEnds(runs: map<int, Run>, after: map<int, Run>, now: int) {
    && after.Keys == runs.Keys
    && forall id :: id in runs ==> after[id] == runs[id] || EndsUnpaid(runs[id], after[id], now)
  }

  ghost predicate EndsUnpaid(run: Run, after: Run, now: int) {
    run.state.Active() && (after.state.Failed? || after.state.Cancelled?)
    && after.task == run.task && after.startedAt == run.startedAt && after.finishedAt == Some(now)
  }

  lemma EndsKeepTables(db: Db, runs: map<int, Run>, now: int)
    requires TablesSound(db, now) && OnlyEnds(db.runs, runs, now)
    ensures TablesSound(db.(runs := runs), now)
  {
    forall id | id in runs
      ensures runs[id].task == db.runs[id].task && InPast(runs[id], now)
    {
      assert InPast(db.runs[id], now);
    }
    SoleActiveKept(db.tasks, db.runs, db.tasks, runs);
  }

  lemma BeganKeepsTables(db: Db, id: int, now: int)
    requires TablesSound(db, now) && id in db.runs && db.runs[id].state.Pending?
    ensures TablesSound(db.(runs := db.runs[id := Began(db.runs[id], now)]), now)
  {
  }

  lemma ConcludeKeepsTables(db: Db, id: int, state: RunState, message: string, now: int)
    requires TablesSound(db, now) && id in db.runs && !state.Active()
    ensures TablesSound(Conclude(db, id, state, message, now), now)
  {
  }

  lemma AdmitKeepsTables(db: Db, t: int, now: int)
    requires TablesSound(db, now) && t in db.tasks && Refusal(db, t).None?
    ensures TablesSound(AddPending(db, t, now), now)
  {
  }

  lemma EditKeepsTables(db: Db, t: int, config: Config, now: int)
    requires TablesSound(db, now) && t in db.tasks
    requires HasActiveRun(db.runs, t) ==> !UnsafeActiveChange(db.tasks[t].config, config)
    ensures TablesSound(UpdateTask(db, t, config, now), now)
  {
    var after := UpdateTask(db, t, config, now);
    SoleActiveKept(db.tasks, db.runs, after.tasks, db.runs);
  }

  /** `after` is `db` without task `t`, its runs and its obligation. */
  ghost predicate Without(db: Db, after: Db, t: int) {
    && (forall u :: u in after.tasks <==> u in db.tasks && u != t)
    && (forall u :: u in after.tasks ==> after.tasks[u] == db.tasks[u])
    && (forall id :: id in after.runs <==> id in db.runs && db.runs[id].task != t)
    && (forall id :: id in after.runs ==> after.runs[id] == db.runs[id])
    && (forall u :: u in after.rows <==> u in db.rows && u != t)
    && (forall u :: u in after.rows ==> after.rows[u] == db.rows[u])
  }

  lemma DeleteIsWithout(db: Db, t: int)
    ensures Without(db, DeleteTask(db, t), t)
  {
  }

  // ------------------------------------------------------------------ steps

  lemma TerminalizeOnlyEnds(db: Db, id: int, state: RunState, message: string, now: int)
    requires state.Failed? || state.Cancelled?
    ensures OnlyEnds(db.runs, Terminalize(db, id, state, message, now).runs, now)
  {
  }

  lemma SweepOnlyEnds(db: Db, owned: set<int>, now: int)
    ensures OnlyEnds(db.runs, Sweep(db, owned, now).runs, now)
    ensures forall id :: id in db.runs && id in owned ==> Sweep(db, owned, now).runs[id] == db.runs[id]
  {
  }

  lemma ReconcileStaleOnlyEnds(db: Db, now: int)
    ensures OnlyEnds(db.runs, ReconcileStale(db, now).runs, now)
  {
  }

  lemma SoundDispatch(env: Env, s: Sys, sources: set<int>, order: seq<int>)
    requires Sound(s) && ByAge(SettleAll(s.db, s.now).rows, order)
    ensures Sound(Pump(env, s, sources, order))
  {
    SettleAllKeepsTables(s.db, s.now);
    var settled := SettleAll(s.db, s.now);
    PassChangesOnly(settled, sources, env.limit, order, s.now);
    var p := DispatchPass(settled, sources, env.limit, order, s.now);
    PassKeepsTables(settled, p, s.now);
    assert LiveSound(WithRuns(s.live, p.started), p.runs);
  }

  lemma SoundTouch(s: Sys, after: Db, t: int)
    requires Sound(s) && t in s.db.tasks && TouchesOnly(s.db, after, t)
    requires t in after.rows ==> NamesOwnRun(after.runs, t, after.rows[t])
    ensures Sound(Becomes(s, after))
  {
  }

  lemma SoundCallback(env: Env, s: Sys, t: int, token: nat)
    requires Sound(s)
    ensures Sound(Fire(env, s, t, token))
  {
    if t in s.tokens && s.tokens[t] == token {
      TickTouchesOnly(env.cal, s.db, t, s.now);
      TickNames(env.cal, s.db, t, s.now);
      SoundTouch(s, RecordTick(env.cal, s.db, t, s.now), t);
    }
  }

  lemma SoundReconcile(env: Env, s: Sys, t: int)
    requires Sound(s) && t in s.db.tasks
    ensures Sound(Becomes(s, Reconcile(env.cal, s.db, t, s.now)))
  {
    ReconcileTouchesOnly(env.cal, s.db, t, s.now);
    ReconcileNames(env.cal, s.db, t, s.now);
    SoundTouch(s, Reconcile(env.cal, s.db, t, s.now), t);
  }

  lemma SoundAdmission(s: Sys, t: int)
    requires Sound(s) && t in s.db.tasks
    ensures Sound(AdmitManually(s, t))
  {
    if Refusal(s.db, t).None? {
      AdmitKeepsTables(s.db, t, s.now);
    }
  }

  lemma SoundBegin(s: Sys, id: int)
    requires Sound(s) && id in s.live
    ensures Sound(BeginRun(s, id))
  {
    if s.db.runs[id].state.Pending? {
      BeganKeepsTables(s.db, id, s.now);
    }
  }

  lemma SoundOutcome(s: Sys, id: int, state: RunState, message: string)
    requires Sound(s) && id in s.live && !state.Active()
    ensures Sound(WriteOutcome(s, id, state, message))
  {
    ConcludeKeepsTables(s.db, id, state, message, s.now);
  }

  lemma SoundEnds(s: Sys, runs: map<int, Run>, live: map<int, Phase>)
    requires Sound(s) && OnlyEnds(s.db.runs, runs, s.now) && LiveSound(live, runs)
    ensures Sound(Becomes(s, s.db.(runs := runs)).(live := live))
  {
    EndsKeepTables(s.db, runs, s.now);
  }

  lemma SoundExit(s: Sys, id: int, state: RunState, message: string)
    requires Sound(s) && id in s.live && (state.Failed? || state.Cancelled?)
    ensures Sound(Exit(s, id, state, message))
  {
    TerminalizeOnlyEnds(s.db, id, state, message, s.now);
    SoundEnds(s, Terminalize(s.db, id, state, message, s.now).runs, s.live - {id});
  }

  lemma SoundWatchdog(s: Sys)
    requires Sound(s)
    ensures Sound(Becomes(s, Sweep(s.db, OwnedIds(s.live), s.now)))
  {
    SweepOnlyEnds(s.db, OwnedIds(s.live), s.now);
    SoundEnds(s, Sweep(s.db, OwnedIds(s.live), s.now).runs, s.live);
  }

  lemma SoundReboot(env: Env, s: Sys)
    requires Sound(s)
    ensures Sound(Reboot(env, s))
  {
    ReconcileStaleOnlyEnds(s.db, s.now);
    SoundEnds(s, ReconcileStale(s.db, s.now).runs, map[]);
  }

  lemma SoundTime(s: Sys, to: int)
    requires Sound(s) && s.now <= to
    ensures Sound(s.(now := to))
  {
  }

  lemma SoundCreation(env: Env, s: Sys, t: int, config: Config)
    requires Sound(s) && t !in s.db.tasks
    ensures Sound(CreateTask(env, s, t, config))
  {
    SoleActiveKept(s.db.tasks, s.db.runs, s.db.tasks[t := Task(config, s.now, None, None)], s.db.runs);
  }

  lemma SoundEdit(env: Env, s: Sys, t: int, config: Config)
    requires Sound(s) && t in s.db.tasks
    requires HasActiveRun(s.db.runs, t) ==> !UnsafeActiveChange(s.db.tasks[t].config, config)
    ensures Sound(EditTask(env, s, t, config))
  {
    EditKeepsTables(s.db, t, config, s.now);
    assert UpdateTask(s.db, t, config, s.now).tasks.Keys == s.db.tasks.Keys;
  }

  lemma SoundRemoval(s: Sys, t: int)
    requires Sound(s) && t in s.db.tasks
    ensures Sound(RemoveTask(s, t))
  {
  }

  lemma SoundNext(env: Env, s: Sys, step: Step)
    requires Sound(s) && Enabled(env, s, step)
    ensures Sound(Next(env, s, step))
  {
    match step
    case Advance(to) => SoundTime(s, to);
    case Create(t, config) => SoundCreation(env, s, t, config);
    case Callback(t, token) => SoundCallback(env, s, t, token);
    case ReconcileOne(t) => SoundReconcile(env, s, t);
    case SettleEvery => SettleAllKeepsTables(s.db, s.now);
    case DispatchDue(sources, order) => SoundDispatch(env, s, sources, order);
    case RunNow(t) => SoundAdmission(s, t);
    case Register(_) =>
    case Begin(id) => SoundBegin(s, id);
    case Finalize(id, state, message) => SoundOutcome(s, id, state, message);
    case Leave(id, state, message) => SoundExit(s, id, state, message);
    case Vanish(_) =>
    case Watchdog => SoundWatchdog(s);
    case Restart => SoundReboot(env, s);
    case Edit(t, config) => SoundEdit(env, s, t, config);
    case Delete(t) => SoundRemoval(s, t);
  }

  /** Every state of every trace is sound. */
  lemma {:induction false} TraceIsSound(env: Env, states: seq<Sys>, steps: seq<Step>, k: nat)
    requires IsTrace(env, states, steps) && k < |states|
    ensures Sound(states[k])
  {
    if k > 0 {
      TraceIsSound(env, states, steps, k - 1);
      SoundNext(env, states[k - 1], steps[k - 1]);
    }
  }
}

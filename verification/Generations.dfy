/** Schedule generations are isolated, and retries are bounded, in every reachable state. */
module Generations {
  import opened Prelude
  import opened Records
  import opened Schedule
  import opened DueWork
  import opened Dispatching
  import opened Lifecycle
  import opened Protocol
  import opened DebtInvariant
  import opened DebtSteps
  import opened PassFacts
  import opened Soundness

  /** The obligation, its marker and its run all belong to the task's current generation. */
  ghost predicate OfGeneration(runs: map<int, Run>, row: Row, epoch: int) {
    && epoch <= row.dueAt
    && (row.newer.Some? ==> epoch <= row.newer.value)
    && (row.runId.Some? && row.runId.value in runs ==> epoch <= runs[row.runId.value].startedAt)
  }

  ghost predicate TaskCurrent(cal: Calendar, task: Task, runs: map<int, Run>, row: Option<Row>, now: int) {
    && (task.epoch.Some? ==>
          && task.epoch.value <= now
          && task.baseline.Some? && task.epoch.value <= task.baseline.value
          && (row.Some? ==> OfGeneration(runs, row.value, task.epoch.value)))
    && (row.Some? && cal.parses(task.config.cron) ==>
          AttemptsInRange(row.value) && (row.value.runId.Some? ==> row.value.status.Dispatched?))
  }

  ghost predicate CurrentAt(cal: Calendar, db: Db, t: int, now: int)
    requires t in db.tasks
  {
    TaskCurrent(cal, db.tasks[t], db.runs, RowOf(db, t), now)
  }

  ghost predicate Current(cal: Calendar, db: Db, now: int) {
    forall t :: t in db.tasks ==> CurrentAt(cal, db, t, now)
  }

  lemma SettleKeepsCurrent(cal: Calendar, tasks: map<int, Task>, runs: map<int, Run>, t: int, row: Row, now: int)
    requires t in tasks && TaskCurrent(cal, tasks[t], runs, Some(row), now)
    ensures TaskCurrent(cal, tasks[t], runs, Settle(tasks, runs, t, row, now), now)
  {
  }

  /** The row of a fold keeps what it had, but for a marker no older than the first new occurrence and for re-arming. */
  lemma FoldedRow(db: Db, t: int, first: int, latest: int, now: int)
    requires t in db.rows && first <= latest
    ensures var before, after := db.rows[t], FoldRow(db, t, first, latest, now);
      && after.dueAt == before.dueAt && after.runId == before.runId
      && (after.newer == before.newer || (after.newer.Some? && first <= after.newer.value))
      && ((after.status == before.status && after.attempts == before.attempts && after.retryAt == before.retryAt)
          || (before.status.Exhausted? && after.status.Due? && after.attempts == 0))
  {
  }

  lemma FoldKeepsCurrent(cal: Calendar, db: Db, t: int, now: int)
    requires t in db.tasks && CurrentAt(cal, db, t, now)
    ensures CurrentAt(cal, FoldFrom(cal, db, t, now), t, now)
  {
    if Owes(cal, db, t, now) {
      var first := NextOccurrence(cal, db.tasks[t].config.cron, BaselineOf(db, t)).value;
      var latest := Schedule.Walk(cal, db.tasks[t].config.cron, first, now, MAX_OCCURRENCE_SCAN);
      if t in db.rows {
        FoldedRow(db, t, first, latest, now);
      }
      assert RowOf(FoldFrom(cal, db, t, now), t) == Some(FoldRow(db, t, first, latest, now));
    }
  }

  lemma ReconcileKeepsCurrent(cal: Calendar, db: Db, t: int, now: int)
    requires t in db.tasks && CurrentAt(cal, db, t, now)
    ensures CurrentAt(cal, Reconcile(cal, db, t, now), t, now)
  {
    if db.tasks[t].config.enabled && cal.parses(db.tasks[t].config.cron) {
      var settled := SettleAt(db, t, now);
      if t in db.rows {
        SettleKeepsCurrent(cal, db.tasks, db.runs, t, db.rows[t], now);
        assert RowOf(settled, t) == Settle(db.tasks, db.runs, t, db.rows[t], now);
      }
      FoldKeepsCurrent(cal, settled, t, now);
    }
  }

  lemma AddTickKeepsCurrent(cal: Calendar, db: Db, t: int, now: int)
    requires t in db.tasks && CurrentAt(cal, db, t, now)
    ensures CurrentAt(cal, AddTick(cal, db, t, now), t, now)
  {
  }

  lemma TickKeepsCurrent(cal: Calendar, db: Db, t: int, now: int)
    requires t in db.tasks && CurrentAt(cal, db, t, now)
    ensures CurrentAt(cal, RecordTick(cal, db, t, now), t, now)
  {
    ReconcileKeepsCurrent(cal, db, t, now);
    ReconcileTouchesOnly(cal, db, t, now);
    AddTickKeepsCurrent(cal, Reconcile(cal, db, t, now), t, now);
  }

  lemma SettleAllKeepsCurrent(cal: Calendar, db: Db, now: int)
    requires Current(cal, db, now)
    ensures Current(cal, SettleAll(db, now), now)
  {
    var after := SettleAll(db, now);
    forall t | t in after.tasks
      ensures CurrentAt(cal, after, t, now)
    {
      assert CurrentAt(cal, db, t, now);
      if t in db.rows {
        SettleKeepsCurrent(cal, db.tasks, db.runs, t, db.rows[t], now);
        assert RowOf(after, t) == Settle(db.tasks, db.runs, t, db.rows[t], now);
      }
    }
  }

  lemma PassKeepsCurrent(cal: Calendar, db: Db, p: Pass, now: int)
    requires Current(cal, db, now) && PassInv(db, p, now)
    requires forall t :: t in db.rows ==> NamesOwnRun(db.runs, t, db.rows[t])
    ensures Current(cal, Db(db.tasks, p.runs, p.rows), now)
  {
    var after := Db(db.tasks, p.runs, p.rows);
    forall t | t in after.tasks
      ensures CurrentAt(cal, after, t, now)
    {
      assert CurrentAt(cal, db, t, now);
      if t in p.rows {
        assert RowOutcome(db, p, t, now);
        if SameDebt(db.rows[t], p.rows[t]) && p.rows[t].runId.Some? {
          var id := p.rows[t].runId.value;
          assert db.rows[t].runId == Some(id) && NamesOwnRun(db.runs, t, db.rows[t]);
          assert id in db.runs;
          assert p.runs[id] == db.runs[id];
        }
      }
    }
  }

  /** Runs may end, begin now, or be added; no start instant moves back. */
  ghost predicate StartsOnlyMoveForward(runs: map<int, Run>, after: map<int, Run>) {
    forall id :: id in runs && id in after ==> runs[id].startedAt <= after[id].startedAt
  }

  lemma RunsKeepCurrent(cal: Calendar, db: Db, runs: map<int, Run>, now: int)
    requires Current(cal, db, now) && StartsOnlyMoveForward(db.runs, runs)
    requires forall t :: t in db.rows ==> NamesOwnRun(db.runs, t, db.rows[t])
    ensures Current(cal, db.(runs := runs), now)
  {
    forall t | t in db.tasks
      ensures CurrentAt(cal, db.(runs := runs), t, now)
    {
      assert CurrentAt(cal, db, t, now);
      if t in db.rows && db.rows[t].runId.Some? {
        var id := db.rows[t].runId.value;
        assert NamesOwnRun(db.runs, t, db.rows[t]);
        assert id in runs ==> db.runs[id].startedAt <= runs[id].startedAt;
      }
    }
  }

  lemma ConcludeKeepsCurrent(cal: Calendar, db: Db, id: int, state: RunState, message: string, now: int)
    requires Current(cal, db, now) && id in db.runs
    requires forall t :: t in db.rows ==> NamesOwnRun(db.runs, t, db.rows[t])
    ensures Current(cal, Conclude(db, id, state, message, now), now)
  {
  }

  lemma EditKeepsCurrent(cal: Calendar, db: Db, t: int, config: Config, now: int)
    requires Current(cal, db, now) && t in db.tasks
    ensures Current(cal, UpdateTask(db, t, config, now), now)
  {
  }

  lemma DeleteKeepsCurrent(cal: Calendar, db: Db, after: Db, t: int, now: int)
    requires Current(cal, db, now) && Without(db, after, t)
    ensures Current(cal, after, now)
  {
    forall u | u in after.tasks
      ensures CurrentAt(cal, after, u, now)
    {
      assert CurrentAt(cal, db, u, now);
      assert RowOf(after, u) == RowOf(db, u);
      if u in after.rows && after.rows[u].runId.Some? && after.rows[u].runId.value in after.runs {
        var id := after.rows[u].runId.value;
        assert id in after.runs;
        assert id in db.runs && after.runs[id] == db.runs[id];
      }
    }
  }

  lemma TimeKeepsCurrent(cal: Calendar, db: Db, now: int, to: int)
    requires Current(cal, db, now) && now <= to
    ensures Current(cal, db, to)
  {
  }

  lemma CreationKeepsCurrent(cal: Calendar, db: Db, t: int, config: Config, now: int)
    requires Current(cal, db, now) && t !in db.tasks && t !in db.rows
    ensures Current(cal, db.(tasks := db.tasks[t := Task(config, now, None, None)]), now)
  {
  }

  lemma TickKeepsAllCurrent(cal: Calendar, db: Db, t: int, now: int)
    requires Current(cal, db, now)
    ensures Current(cal, RecordTick(cal, db, t, now), now)
  {
    if t in db.tasks {
      assert CurrentAt(cal, db, t, now);
      TickKeepsCurrent(cal, db, t, now);
      TickTouchesOnly(cal, db, t, now);
    }
  }

  lemma ReconcileKeepsAllCurrent(cal: Calendar, db: Db, t: int, now: int)
    requires Current(cal, db, now) && t in db.tasks
    ensures Current(cal, Reconcile(cal, db, t, now), now)
  {
    assert CurrentAt(cal, db, t, now);
    ReconcileKeepsCurrent(cal, db, t, now);
    ReconcileTouchesOnly(cal, db, t, now);
  }

  lemma PumpKeepsCurrent(env: Env, s: Sys, sources: set<int>, order: seq<int>)
    requires Sound(s) && Current(env.cal, s.db, s.now) && ByAge(SettleAll(s.db, s.now).rows, order)
    ensures Current(env.cal, Pump(env, s, sources, order).db, s.now)
  {
    SettleAllKeepsCurrent(env.cal, s.db, s.now);
    SettleAllKeepsTables(s.db, s.now);
    var settled := SettleAll(s.db, s.now);
    PassChangesOnly(settled, sources, env.limit, order, s.now);
    PassKeepsCurrent(env.cal, settled, DispatchPass(settled, sources, env.limit, order, s.now), s.now);
  }

  lemma CurrentNext(env: Env, s: Sys, step: Step)
    requires Sound(s) && Current(env.cal, s.db, s.now) && Enabled(env, s, step)
    ensures Current(env.cal, Next(env, s, step).db, Next(env, s, step).now)
  {
    match step
    case Advance(to) => TimeKeepsCurrent(env.cal, s.db, s.now, to);
    case Create(t, config) => CreationKeepsCurrent(env.cal, s.db, t, config, s.now);
    case Callback(t, token) =>
      if t in s.tokens && s.tokens[t] == token {
        TickKeepsAllCurrent(env.cal, s.db, t, s.now);
      }
    case ReconcileOne(t) => ReconcileKeepsAllCurrent(env.cal, s.db, t, s.now);
    case SettleEvery => SettleAllKeepsCurrent(env.cal, s.db, s.now);
    case DispatchDue(sources, order) => PumpKeepsCurrent(env, s, sources, order);
    case RunNow(t) => RunsKeepCurrent(env.cal, s.db, AddPending(s.db, t, s.now).runs, s.now);
    case Register(_) =>
    case Begin(id) =>
      assert InPast(s.db.runs[id], s.now);
      RunsKeepCurrent(env.cal, s.db, s.db.runs[id := Began(s.db.runs[id], s.now)], s.now);
    case Finalize(id, state, message) => ConcludeKeepsCurrent(env.cal, s.db, id, state, message, s.now);
    case Leave(id, state, message) =>
      RunsKeepCurrent(env.cal, s.db, Terminalize(s.db, id, state, message, s.now).runs, s.now);
    case Vanish(_) =>
    case Watchdog => RunsKeepCurrent(env.cal, s.db, Sweep(s.db, OwnedIds(s.live), s.now).runs, s.now);
    case Restart => RunsKeepCurrent(env.cal, s.db, ReconcileStale(s.db, s.now).runs, s.now);
    case Edit(t, config) => EditKeepsCurrent(env.cal, s.db, t, config, s.now);
    case Delete(t) =>
      DeleteIsWithout(s.db, t);
      DeleteKeepsCurrent(env.cal, s.db, DeleteTask(s.db, t), t, s.now);
  }

  /** In every reachable state no obligation is older than the last schedule or enable edit of its task. */
  lemma {:induction false} ObligationsAreCurrent(env: Env, states: seq<Sys>, steps: seq<Step>, k: nat)
    requires IsTrace(env, states, steps) && k < |states|
    ensures Current(env.cal, states[k].db, states[k].now)
  {
    if k > 0 {
      ObligationsAreCurrent(env, states, steps, k - 1);
      TraceIsSound(env, states, steps, k - 1);
      CurrentNext(env, states[k - 1], steps[k - 1]);
    }
  }

  /** The outcome of a run that began before the edit touches no obligation. */
  lemma OldOutcomeSettlesNothing(env: Env, states: seq<Sys>, steps: seq<Step>, k: nat, id: int, state: RunState, message: string)
    requires IsTrace(env, states, steps) && k < |states| && id in states[k].db.runs
    requires var db := states[k].db; var t := db.runs[id].task;
      t in db.tasks && db.tasks[t].epoch.Some? && db.runs[id].startedAt < db.tasks[t].epoch.value
    ensures Conclude(states[k].db, id, state, message, states[k].now).rows == states[k].db.rows
  {
    ObligationsAreCurrent(env, states, steps, k);
    assert CurrentAt(env.cal, states[k].db, states[k].db.runs[id].task, states[k].now);
  }

  /** Two run tables that agree on every run of `t` that began at `epoch` or later. */
  ghost predicate AgreeSince(runs: map<int, Run>, other: map<int, Run>, t: int, epoch: int) {
    && (forall id :: OfTask(runs, t, id) && epoch <= runs[id].startedAt ==> OfTask(other, t, id) && other[id] == runs[id])
    && (forall id :: OfTask(other, t, id) && epoch <= other[id].startedAt ==> OfTask(runs, t, id) && other[id] == runs[id])
  }

  /** The same verdict on the row: gone in both, or still due at the same instant and charged in both or in neither. */
  ghost predicate SameVerdict(row: Row, here: Option<Row>, there: Option<Row>) {
    && (here.None? <==> there.None?)
    && (here.Some? ==> here.value.dueAt == there.value.dueAt && here.value.attempts <= row.attempts + 1
                       && (here.value.attempts > row.attempts <==> there.value.attempts > row.attempts))
  }

  lemma OldRunsDecideNoRow(tasks: map<int, Task>, runs: map<int, Run>, other: map<int, Run>, t: int, row: Row,
                           epoch: int, now: int)
    requires t in tasks && AgreeSince(runs, other, t, epoch)
    requires OfGeneration(runs, row, epoch) && NamesOwnRun(runs, t, row)
    ensures SameVerdict(row, Settle(tasks, runs, t, row, now), Settle(tasks, other, t, row, now))
  {
    if row.status.Dispatched? {
      assert row.runId.Some? ==> OfTask(runs, t, row.runId.value);
    } else if !row.status.Blocked? {
      PaidIsLatest(runs, t, row.dueAt);
      PaidIsLatest(other, t, row.dueAt);
      SamePayment(runs, other, t, row.dueAt, epoch);
    }
  }

  /** In every reachable state, however the runs from before the last schedule or enable edit ended, they neither pay,
      drop nor charge the obligation: any other run table that agrees on the runs since then settles it alike. */
  lemma OldRunsDecideNothing(env: Env, states: seq<Sys>, steps: seq<Step>, k: nat, t: int, other: map<int, Run>, now: int)
    requires IsTrace(env, states, steps) && k < |states| && t in states[k].db.rows
    ensures t in states[k].db.tasks
    ensures var db := states[k].db; var row, epoch := db.rows[t], db.tasks[t].epoch;
      epoch.Some? && AgreeSince(db.runs, other, t, epoch.value)
      ==> SameVerdict(row, Settle(db.tasks, db.runs, t, row, now), Settle(db.tasks, other, t, row, now))
  {
    TraceIsSound(env, states, steps, k);
    ObligationsAreCurrent(env, states, steps, k);
    var db := states[k].db;
    assert CurrentAt(env.cal, db, t, states[k].now) && NamesOwnRun(db.runs, t, db.rows[t]);
    if db.tasks[t].epoch.Some? && AgreeSince(db.runs, other, t, db.tasks[t].epoch.value) {
      OldRunsDecideNoRow(db.tasks, db.runs, other, t, db.rows[t], db.tasks[t].epoch.value, now);
    }
  }

  lemma SamePayment(runs: map<int, Run>, other: map<int, Run>, t: int, dueAt: int, epoch: int)
    requires AgreeSince(runs, other, t, epoch) && epoch <= dueAt
    ensures PaidStart(runs, t, dueAt) == PaidStart(other, t, dueAt)
  {
    PaidIsLatest(runs, t, dueAt);
    PaidIsLatest(other, t, dueAt);
    forall id
      ensures Succeeded(runs, t, id) && dueAt <= runs[id].startedAt
         <==> Succeeded(other, t, id) && dueAt <= other[id].startedAt
    {
      assert OfTask(runs, t, id) || OfTask(other, t, id) || !Succeeded(runs, t, id);
    }
  }

  // ------------------------------------------------------------------ callbacks of replaced jobs

  /** Token `token` is not, and will not again be, the token of task `t`. */
  ghost predicate Dead(s: Sys, t: int, token: nat) {
    token < s.issued && !(t in s.tokens && s.tokens[t] == token)
  }

  lemma DeadNext(env: Env, s: Sys, step: Step, t: int, token: nat)
    requires Enabled(env, s, step) && Dead(s, t, token)
    ensures Dead(Next(env, s, step), t, token)
  {
  }

  /** Once replaced, a job's callback changes nothing in any later state. */
  lemma {:induction false} StaleCallbacksWriteNothing(env: Env, states: seq<Sys>, steps: seq<Step>, k: nat, m: nat, t: int, token: nat)
    requires IsTrace(env, states, steps) && k <= m < |states| && Dead(states[k], t, token)
    ensures Dead(states[m], t, token) && Fire(env, states[m], t, token) == states[m]
  {
    if k < m {
      StaleCallbacksWriteNothing(env, states, steps, k, m - 1, t, token);
      DeadNext(env, states[m - 1], steps[m - 1], t, token);
    }
  }

  /** The step replaces the registered job of `t`. */
  predicate Replaces(step: Step, t: int) {
    match step
    case Edit(u, _) => u == t
    case Delete(u) => u == t
    case Restart => true
    case _ => false
  }

  /** The callback of the job a task had before an edit, its deletion or a restart writes nothing in any later state. */
  lemma ReplacedJobsWriteNothing(env: Env, states: seq<Sys>, steps: seq<Step>, i: nat, m: nat, t: int)
    requires IsTrace(env, states, steps) && i < m < |states| && Replaces(steps[i], t) && t in states[i].tokens
    ensures Fire(env, states[m], t, states[i].tokens[t]) == states[m]
  {
    TraceIsSound(env, states, steps, i);
    StaleCallbacksWriteNothing(env, states, steps, i + 1, m, t, states[i].tokens[t]);
  }

  // ------------------------------------------------------------------ who has a job

  /** A job is registered for exactly the enabled tasks whose cron parses. */
  ghost predicate JobsMatchSchedules(cal: Calendar, s: Sys) {
    forall t :: t in s.tokens <==> t in s.db.tasks && s.db.tasks[t].config.enabled && cal.parses(s.db.tasks[t].config.cron)
  }

  lemma ConfigsStay(db: Db, after: Db, t: int)
    requires t in db.tasks && TouchesOnly(db, after, t)
    ensures after.tasks.Keys == db.tasks.Keys && forall u :: u in db.tasks ==> after.tasks[u].config == db.tasks[u].config
  {
  }

  lemma JobsStay(cal: Calendar, s: Sys, after: Sys)
    requires JobsMatchSchedules(cal, s) && after.tokens == s.tokens && after.db.tasks.Keys == s.db.tasks.Keys
    requires forall u :: u in s.db.tasks ==> after.db.tasks[u].config == s.db.tasks[u].config
    ensures JobsMatchSchedules(cal, after)
  {
  }

  lemma JobsUpserted(cal: Calendar, s: Sys, after: Sys, t: int, config: Config)
    requires JobsMatchSchedules(cal, s) && after.tokens == Upserted(cal, s.tokens, s.issued, t, config)
    requires after.db.tasks.Keys == s.db.tasks.Keys + {t} && after.db.tasks[t].config == config
    requires forall u :: u in s.db.tasks && u != t ==> after.db.tasks[u].config == s.db.tasks[u].config
    ensures JobsMatchSchedules(cal, after)
  {
  }

  lemma EditedConfigs(db: Db, t: int, config: Config, now: int)
    requires t in db.tasks
    ensures var after := UpdateTask(db, t, config, now);
      && after.tasks.Keys == db.tasks.Keys && after.tasks[t].config == config
      && forall u :: u in db.tasks && u != t ==> after.tasks[u] == db.tasks[u]
  {
  }

  /** A step that is no edit, creation, deletion or restart leaves schedules and jobs alone. */
  lemma SchedulesStay(env: Env, s: Sys, step: Step)
    requires Enabled(env, s, step) && !step.Edit? && !step.Create? && !step.Delete? && !step.Restart?
    ensures var after := Next(env, s, step);
      && after.tokens == s.tokens && after.db.tasks.Keys == s.db.tasks.Keys
      && forall u :: u in s.db.tasks ==> after.db.tasks[u].config == s.db.tasks[u].config
  {
    match step
    case Callback(u, _) =>
      if u in s.db.tasks {
        TickTouchesOnly(env.cal, s.db, u, s.now);
        ConfigsStay(s.db, RecordTick(env.cal, s.db, u, s.now), u);
      }
    case ReconcileOne(u) =>
      ReconcileTouchesOnly(env.cal, s.db, u, s.now);
      ConfigsStay(s.db, Reconcile(env.cal, s.db, u, s.now), u);
    case _ =>
  }

  lemma JobsNext(env: Env, s: Sys, step: Step, after: Sys)
    requires Enabled(env, s, step) && after == Next(env, s, step) && JobsMatchSchedules(env.cal, s)
    ensures JobsMatchSchedules(env.cal, after)
  {
    match step
    case Create(t, config) => JobsUpserted(env.cal, s, after, t, config);
    case Edit(t, config) =>
      EditedConfigs(s.db, t, config, s.now);
      JobsUpserted(env.cal, s, after, t, config);
    case Delete(t) =>
    case Restart =>
    case _ =>
      SchedulesStay(env, s, step);
      JobsStay(env.cal, s, after);
  }

  /** So it is in every reachable state. */
  lemma {:induction false} EveryScheduleHasItsJob(env: Env, states: seq<Sys>, steps: seq<Step>, k: nat)
    requires IsTrace(env, states, steps) && k < |states|
    ensures JobsMatchSchedules(env.cal, states[k])
  {
    if k > 0 {
      EveryScheduleHasItsJob(env, states, steps, k - 1);
      JobsNext(env, states[k - 1], steps[k - 1], states[k]);
    }
  }
}

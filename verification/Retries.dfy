/** Retries are bounded and watermarks never fall back, along every run of the service. */
module Retries {
  import opened Prelude
  import opened Records
  import opened Schedule
  import opened DueWork
  import opened Dispatching
  import opened Lifecycle
  import opened Protocol
  import opened DebtInvariant
  import opened DebtSteps
  import opened PassFacts
  import opened Soundness
  import opened Generations

  /** Neither the infrastructure nor the configuration is to blame. */
  predicate OrdinaryFailure(run: Run) {
    run.state.Failed? && !Infrastructure(run.error) && !Permanent(run.error)
  }

  /** The row went from naming an ordinarily failed run to its next retry, or to exhaustion. */
  ghost predicate Charged(runs: map<int, Run>, before: Row, after: Row, now: int) {
    && before.status.Dispatched? && before.runId.Some? && before.runId.value in runs
    && OrdinaryFailure(runs[before.runId.value])
    && after.attempts == before.attempts + 1
    && if MAX_AUTOMATIC_RETRIES < after.attempts then after.status.Exhausted?
       else after.status.Retry? && after.retryAt == Some(now + BackoffSeconds(after.attempts) * SECOND)
  }

  /** A row that outlives a step is re-armed, keeps its attempts, or is charged exactly one. */
  ghost predicate Moves(runs: map<int, Run>, before: Option<Row>, after: Option<Row>, now: int) {
    before.Some? && after.Some? ==>
      after.value.attempts == 0 || after.value.attempts == before.value.attempts
      || Charged(runs, before.value, after.value, now)
  }

  /** Nothing that decides the next attempt differs, or the row is as good as new. */
  ghost predicate KeepsAttempts(before: Option<Row>, after: Option<Row>) {
    before.Some? && after.Some? ==>
      || after.value.attempts == 0
      || (after.value.attempts == before.value.attempts && after.value.status == before.value.status
          && after.value.retryAt == before.value.retryAt)
  }

  lemma SettleMoves(tasks: map<int, Task>, runs: map<int, Run>, t: int, row: Row, now: int)
    ensures Moves(runs, Some(row), Settle(tasks, runs, t, row, now), now)
  {
  }

  lemma KeepAfterMove(runs: map<int, Run>, before: Option<Row>, mid: Option<Row>, after: Option<Row>, now: int)
    requires Moves(runs, before, mid, now) && KeepsAttempts(mid, after) && (mid.None? ==> before.None? || after.None? || after.value.attempts == 0)
    ensures Moves(runs, before, after, now)
  {
  }

  lemma ReconcileMoves(cal: Calendar, db: Db, t: int, now: int)
    requires t in db.tasks
    ensures Moves(db.runs, RowOf(db, t), RowOf(Reconcile(cal, db, t, now), t), now)
  {
    if db.tasks[t].config.enabled && cal.parses(db.tasks[t].config.cron) {
      var settled := SettleAt(db, t, now);
      if t in db.rows {
        SettleMoves(db.tasks, db.runs, t, db.rows[t], now);
        assert RowOf(settled, t) == Settle(db.tasks, db.runs, t, db.rows[t], now);
      }
      KeepAfterMove(db.runs, RowOf(db, t), RowOf(settled, t), RowOf(FoldFrom(cal, settled, t, now), t), now);
    }
  }

  lemma TickMoves(cal: Calendar, db: Db, t: int, now: int)
    ensures Moves(db.runs, RowOf(db, t), RowOf(RecordTick(cal, db, t, now), t), now)
  {
    if t in db.tasks {
      ReconcileMoves(cal, db, t, now);
      ReconcileTouchesOnly(cal, db, t, now);
      var folded := Reconcile(cal, db, t, now);
      KeepAfterMove(db.runs, RowOf(db, t), RowOf(folded, t), RowOf(AddTick(cal, folded, t, now), t), now);
    }
  }

  lemma SettleAllMoves(db: Db, t: int, now: int)
    ensures Moves(db.runs, RowOf(db, t), RowOf(SettleAll(db, now), t), now)
  {
  }

  lemma BackoffIsPositive(n: int)
    ensures 60 <= BackoffSeconds(n) <= 3600
  {
    Pow2Positive(if n < 1 then 0 else n - 1);
  }

  lemma {:induction false} Pow2Positive(n: nat)
    ensures 1 <= Pow2(n)
  {
    if n > 0 {
      Pow2Positive(n - 1);
    }
  }

  /** A row charged in this step is not ripe, so the pass that follows leaves it alone. */
  lemma PassAfterMove(db: Db, settled: Db, p: Pass, t: int, now: int)
    requires PassInv(settled, p, now) && Moves(db.runs, RowOf(db, t), RowOf(settled, t), now)
    requires t in settled.rows ==> t in db.rows
    ensures Moves(db.runs, RowOf(db, t), if t in p.rows then Some(p.rows[t]) else None, now)
  {
    if t in settled.rows {
      assert RowOutcome(settled, p, t, now);
      BackoffIsPositive(settled.rows[t].attempts);
    }
  }

  ghost predicate StepMoves(s: Sys, after: Db, t: int) {
    Moves(after.runs, RowOf(s.db, t), RowOf(after, t), s.now)
  }

  lemma MovesInLaterRuns(runs: map<int, Run>, after: map<int, Run>, before: Option<Row>, row: Option<Row>, now: int)
    requires Moves(runs, before, row, now)
    requires forall id :: id in runs ==> id in after && after[id] == runs[id]
    ensures Moves(after, before, row, now)
  {
    if before.Some? && row.Some? && Charged(runs, before.value, row.value, now) {
      var id := before.value.runId.value;
      assert id in runs;
      assert after[id] == runs[id];
    }
  }

  lemma SameRowMoves(s: Sys, after: Db, t: int)
    requires RowOf(after, t) == RowOf(s.db, t)
    ensures StepMoves(s, after, t)
  {
  }

  lemma PumpMoves(env: Env, s: Sys, sources: set<int>, order: seq<int>, t: int)
    requires ByAge(SettleAll(s.db, s.now).rows, order)
    ensures StepMoves(s, Pump(env, s, sources, order).db, t)
  {
    var settled := SettleAll(s.db, s.now);
    var p := DispatchPass(settled, sources, env.limit, order, s.now);
    PassChangesOnly(settled, sources, env.limit, order, s.now);
    SettleAllMoves(s.db, t, s.now);
    PassAfterMove(s.db, settled, p, t, s.now);
    MovesInLaterRuns(s.db.runs, p.runs, RowOf(s.db, t), if t in p.rows then Some(p.rows[t]) else None, s.now);
  }

  lemma ConcludeMoves(s: Sys, id: int, state: RunState, message: string, t: int)
    requires id in s.db.runs
    requires t in s.db.rows && s.db.rows[t].runId.Some? ==> s.db.rows[t].status.Dispatched?
    ensures StepMoves(s, Conclude(s.db, id, state, message, s.now), t)
  {
  }

  lemma EditMoves(s: Sys, t: int, config: Config, u: int)
    requires t in s.db.tasks
    ensures StepMoves(s, UpdateTask(s.db, t, config, s.now), u)
  {
  }

  /** One step re-arms a row, leaves its attempts alone, or charges it once for one ordinary failure. */
  lemma {:induction false} ARowMovesOnce(env: Env, s: Sys, step: Step, t: int)
    requires Sound(s) && Current(env.cal, s.db, s.now) && Enabled(env, s, step)
    requires t in s.db.tasks && env.cal.parses(s.db.tasks[t].config.cron)
    ensures StepMoves(s, Next(env, s, step).db, t)
  {
    assert CurrentAt(env.cal, s.db, t, s.now);
    match step
    case Callback(u, token) =>
      TickMoves(env.cal, s.db, u, s.now);
      if u in s.tokens && s.tokens[u] == token {
        TickTouchesOnly(env.cal, s.db, u, s.now);
      }
    case ReconcileOne(u) =>
      ReconcileMoves(env.cal, s.db, u, s.now);
      ReconcileTouchesOnly(env.cal, s.db, u, s.now);
    case SettleEvery => SettleAllMoves(s.db, t, s.now);
    case DispatchDue(sources, order) => PumpMoves(env, s, sources, order, t);
    case Finalize(id, state, message) => ConcludeMoves(s, id, state, message, t);
    case Edit(u, config) => EditMoves(s, u, config, t);
    case Delete(u) => DeleteIsWithout(s.db, u);
    case _ => SameRowMoves(s, Next(env, s, step).db, t);
  }

  // ------------------------------------------------------------------ totals between two re-arms

  /** Waiting granted by the first `n` charges, in seconds. */
  function Spent(n: nat): (r: nat)
    ensures r <= 1860
  {
    match n
    case 0 => 0
    case 1 => 60
    case 2 => 180
    case 3 => 420
    case 4 => 900
    case _ => 1860
  }

  /** The table above is the running total of the delays actually granted. */
  lemma SpentIsTheSumOfDelays(n: nat)
    ensures Spent(n + 1) == Spent(n) + if n < MAX_AUTOMATIC_RETRIES then BackoffSeconds(n + 1) else 0
  {
  }

  /** Delay granted to the row of `t` by the step out of `s`. */
  function Granted(s: Sys, next: Sys, t: int): int {
    if t in s.db.rows && t in next.db.rows && next.db.rows[t].attempts == s.db.rows[t].attempts + 1
       && next.db.rows[t].status.Retry? && next.db.rows[t].retryAt.Some?
    then next.db.rows[t].retryAt.value - s.now else 0
  }

  function Charges(s: Sys, next: Sys, t: int): int {
    if t in s.db.rows && t in next.db.rows && next.db.rows[t].attempts == s.db.rows[t].attempts + 1 then 1 else 0
  }

  function TotalCharges(states: seq<Sys>, t: int, k: nat, m: nat): int
    requires k <= m < |states|
    decreases m
  {
    if k == m then 0 else TotalCharges(states, t, k, m - 1) + Charges(states[m - 1], states[m], t)
  }

  function TotalGranted(states: seq<Sys>, t: int, k: nat, m: nat): int
    requires k <= m < |states|
    decreases m
  {
    if k == m then 0 else TotalGranted(states, t, k, m - 1) + Granted(states[m - 1], states[m], t)
  }

  /** The row stands throughout, nothing re-arms it, and its schedule parses. */
  ghost predicate NotRearmed(env: Env, states: seq<Sys>, t: int, k: nat, m: nat)
    requires k <= m < |states|
  {
    && (forall i :: k <= i <= m ==> t in states[i].db.rows && t in states[i].db.tasks
                                    && env.cal.parses(states[i].db.tasks[t].config.cron))
    && (forall i :: k <= i < m ==> states[i].db.rows[t].attempts <= states[i + 1].db.rows[t].attempts)
  }

  lemma OneStepSpends(s: Sys, next: Sys, t: int)
    requires t in s.db.rows && t in next.db.rows && StepMoves(s, next.db, t)
    requires s.db.rows[t].attempts <= next.db.rows[t].attempts
    ensures next.db.rows[t].attempts == s.db.rows[t].attempts + Charges(s, next, t)
    ensures Spent(next.db.rows[t].attempts) * SECOND == Spent(s.db.rows[t].attempts) * SECOND + Granted(s, next, t)
  {
  }

  lemma TraceStepMoves(env: Env, states: seq<Sys>, steps: seq<Step>, t: int, i: nat)
    requires IsTrace(env, states, steps) && i < |steps|
    requires t in states[i].db.tasks && env.cal.parses(states[i].db.tasks[t].config.cron)
    ensures StepMoves(states[i], states[i + 1].db, t)
  {
    ObligationsAreCurrent(env, states, steps, i);
    TraceIsSound(env, states, steps, i);
    ARowMovesOnce(env, states[i], steps[i], t);
  }

  ghost predicate MovesThroughout(states: seq<Sys>, t: int, k: nat, m: nat)
    requires k <= m < |states|
  {
    && (forall i :: k <= i <= m ==> t in states[i].db.rows)
    && (forall i :: k <= i < m ==> StepMoves(states[i], states[i + 1].db, t)
                                   && states[i].db.rows[t].attempts <= states[i + 1].db.rows[t].attempts)
  }

  lemma {:induction false} ChargesAddUp(states: seq<Sys>, t: int, k: nat, m: nat)
    requires k <= m < |states| && MovesThroughout(states, t, k, m)
    ensures states[m].db.rows[t].attempts == states[k].db.rows[t].attempts + TotalCharges(states, t, k, m)
    ensures Spent(states[m].db.rows[t].attempts) * SECOND
         == Spent(states[k].db.rows[t].attempts) * SECOND + TotalGranted(states, t, k, m)
    decreases m
  {
    if k < m {
      var i := m - 1;
      assert MovesThroughout(states, t, k, i);
      ChargesAddUp(states, t, k, i);
      assert StepMoves(states[i], states[i + 1].db, t);
      OneStepSpends(states[i], states[i + 1], t);
    }
  }

  /** Between two re-arms at most six ordinary failures are charged and at most 31 minutes of delay granted. */
  lemma {:induction false} RetriesAreBounded(env: Env, states: seq<Sys>, steps: seq<Step>, t: int, k: nat, m: nat)
    requires IsTrace(env, states, steps) && k <= m < |states| && NotRearmed(env, states, t, k, m)
    ensures 0 <= TotalCharges(states, t, k, m) <= MAX_AUTOMATIC_RETRIES + 1
    ensures 0 <= TotalGranted(states, t, k, m) <= 1860 * SECOND
    ensures states[m].db.rows[t].status.Exhausted? <==> states[m].db.rows[t].attempts == MAX_AUTOMATIC_RETRIES + 1
    ensures states[m].db.rows[t].status.Retry? ==>
      1 <= states[m].db.rows[t].attempts <= MAX_AUTOMATIC_RETRIES && states[m].db.rows[t].retryAt.Some?
  {
    forall i | k <= i < m
      ensures StepMoves(states[i], states[i + 1].db, t)
    {
      TraceStepMoves(env, states, steps, t, i);
    }
    ChargesAddUp(states, t, k, m);
    InRange(env, states, steps, t, k);
    InRange(env, states, steps, t, m);
    SpentGrows(states[k].db.rows[t].attempts, states[m].db.rows[t].attempts);
    NeverFallsBack(states, t, k, m);
  }

  lemma InRange(env: Env, states: seq<Sys>, steps: seq<Step>, t: int, k: nat)
    requires IsTrace(env, states, steps) && k < |states|
    requires t in states[k].db.rows && t in states[k].db.tasks && env.cal.parses(states[k].db.tasks[t].config.cron)
    ensures AttemptsInRange(states[k].db.rows[t])
  {
    ObligationsAreCurrent(env, states, steps, k);
    assert CurrentAt(env.cal, states[k].db, t, states[k].now);
  }

  lemma SpentGrows(a: nat, b: nat)
    ensures a <= b ==> Spent(a) <= Spent(b)
  {
  }

  lemma {:induction false} NeverFallsBack(states: seq<Sys>, t: int, k: nat, m: nat)
    requires k <= m < |states| && MovesThroughout(states, t, k, m)
    ensures states[k].db.rows[t].attempts <= states[m].db.rows[t].attempts
    decreases m
  {
    if k < m {
      NeverFallsBack(states, t, k, m - 1);
      var i := m - 1;
      assert StepMoves(states[i], states[i + 1].db, t);
    }
  }

  // ------------------------------------------------------------------ the watermark

  /** The watermark of `t` exists once it existed, and is no earlier than it was. */
  ghost predicate WatermarkKept(before: Task, after: Task) {
    before.baseline.Some? ==> after.baseline.Some? && before.baseline.value <= after.baseline.value
  }

  /** A step that neither resets nor deletes `t`. */
  predicate SameGeneration(s: Sys, step: Step, t: int) {
    match step
    case Edit(u, config) => u == t && t in s.db.tasks ==> !Resets(s.db.tasks[t].config, config)
    case Delete(u) => u != t
    case _ => true
  }

  lemma ReconcileKeepsWatermark(cal: Calendar, db: Db, t: int, now: int)
    requires t in db.tasks
    ensures WatermarkKept(db.tasks[t], Reconcile(cal, db, t, now).tasks[t])
  {
  }

  lemma TickKeepsWatermark(cal: Calendar, db: Db, t: int, now: int)
    requires t in db.tasks
    ensures t in RecordTick(cal, db, t, now).tasks && WatermarkKept(db.tasks[t], RecordTick(cal, db, t, now).tasks[t])
  {
    ReconcileKeepsWatermark(cal, db, t, now);
  }

  lemma WatermarkNext(env: Env, s: Sys, step: Step, t: int)
    requires Enabled(env, s, step) && t in s.db.tasks && SameGeneration(s, step, t)
    ensures t in Next(env, s, step).db.tasks && WatermarkKept(s.db.tasks[t], Next(env, s, step).db.tasks[t])
  {
    match step
    case Callback(u, _) =>
      if u in s.db.tasks {
        TickKeepsWatermark(env.cal, s.db, u, s.now);
        TickTouchesOnly(env.cal, s.db, u, s.now);
      }
    case ReconcileOne(u) =>
      ReconcileKeepsWatermark(env.cal, s.db, u, s.now);
      ReconcileTouchesOnly(env.cal, s.db, u, s.now);
    case _ =>
  }

  ghost predicate KeepsWatermark(before: Db, after: Db, t: int) {
    t in before.tasks ==> t in after.tasks && WatermarkKept(before.tasks[t], after.tasks[t])
  }

  lemma {:induction false} WatermarksOnlyGrow(states: seq<Sys>, t: int, k: nat, m: nat)
    requires k <= m < |states|
    requires forall i :: k <= i < m ==> KeepsWatermark(states[i].db, states[i + 1].db, t)
    ensures KeepsWatermark(states[k].db, states[m].db, t)
    decreases m
  {
    if k < m {
      WatermarksOnlyGrow(states, t, k, m - 1);
      var i := m - 1;
      assert KeepsWatermark(states[i].db, states[i + 1].db, t);
    }
  }

  lemma StepKeepsWatermark(env: Env, s: Sys, step: Step, after: Sys, t: int)
    requires Enabled(env, s, step) && after == Next(env, s, step) && SameGeneration(s, step, t)
    ensures KeepsWatermark(s.db, after.db, t)
  {
    if t in s.db.tasks {
      WatermarkNext(env, s, step, t);
    }
  }

  /** Within a generation the watermark never falls back, so no occurrence is folded twice. */
  lemma TheWatermarkNeverFallsBack(env: Env, states: seq<Sys>, steps: seq<Step>, t: int, k: nat, m: nat)
    requires IsTrace(env, states, steps) && k <= m < |states| && t in states[k].db.tasks
    requires forall i :: k <= i < m ==> SameGeneration(states[i], steps[i], t)
    ensures t in states[m].db.tasks && WatermarkKept(states[k].db.tasks[t], states[m].db.tasks[t])
  {
    forall i | k <= i < m
      ensures KeepsWatermark(states[i].db, states[i + 1].db, t)
    {
      StepKeepsWatermark(env, states[i], steps[i], states[i + 1], t);
    }
    WatermarksOnlyGrow(states, t, k, m);
  }
}

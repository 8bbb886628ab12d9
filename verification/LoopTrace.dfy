/** From the turn of the loop that starts an obligation to the instant its execution begins: when the discipline of
    NoLoss is met, on runs of the service where scan, dispatch and begin each read their own clock. */
module LoopTrace {
  import opened Prelude
  import opened Records
  import opened Schedule
  import opened DueWork
  import opened Dispatching
  import opened Lifecycle
  import opened Protocol
  import opened DebtInvariant
  import opened DebtSteps
  import opened PassFacts
  import opened Fairness
  import opened Soundness
  import opened NoLoss
  import opened LoopTurn

  /** The obligation of `t` is handed to run `id`, which has not begun. */
  ghost predicate Handed(db: Db, t: int, id: int) {
    && t in db.tasks && OfTask(db.runs, t, id) && db.runs[id].state.Pending?
    && t in db.rows && db.rows[t].status.Dispatched? && db.rows[t].runId == Some(id)
  }

  /** No occurrence of `t` in (watermark, now]. */
  ghost predicate NothingUnfolded(cal: Calendar, db: Db, t: int, now: int)
    requires t in db.tasks
  {
    db.tasks[t].baseline.Some? ==>
      forall o :: Occurs(cal, db.tasks[t].config.cron, o) && db.tasks[t].baseline.value < o ==> now < o
  }

  /** Beginning is disciplined exactly when no occurrence lies between the watermark and now and no follow-up was noted. */
  lemma BeginIsDisciplinedIff(env: Env, s: Sys, t: int, id: int)
    requires Regular(env.cal) && Handed(s.db, t, id)
    ensures Disciplined(env, s, Begin(id), t) <==> NothingUnfolded(env.cal, s.db, t, s.now) && s.db.rows[t].newer.None?
  {
    var task := s.db.tasks[t];
    if task.baseline.Some? {
      FoldedMeansNoneMissed(env.cal, task.config.cron, task.baseline.value, s.now);
    }
    assert Settle(s.db.tasks, s.db.runs, t, s.db.rows[t], s.now) == Some(s.db.rows[t]);
  }

  // ------------------------------------------------------------------ from the scan to the pass

  /** A step of the loop between its scans and its pass, as far as task `t` can see. */
  predicate ScansOrWaits(step: Step) {
    step.ReconcileOne? || step.Advance?
  }

  /** Scanned since its rows last changed: the watermark exists and a dispatched row has an active run of its own. */
  ghost predicate Scanned(db: Db, t: int) {
    && t in db.tasks && db.tasks[t].baseline.Some?
    && (t in db.rows ==> SettledOnce(db.tasks, db.runs, t, db.rows[t])
                         && (db.rows[t].status.Dispatched? ==> db.runs[db.rows[t].runId.value].task == t))
  }

  lemma ScanMakesScanned(cal: Calendar, db: Db, t: int, now: int)
    requires t in db.tasks && db.tasks[t].config.enabled && cal.parses(db.tasks[t].config.cron)
    requires t in db.rows ==> NamesOwnRun(db.runs, t, db.rows[t])
    ensures Scanned(Reconcile(cal, db, t, now), t) && Reconcile(cal, db, t, now).tasks[t].config == db.tasks[t].config
  {
    ScannedAlone(cal, db, t, now);
    ReconcileTouchesOnly(cal, db, t, now);
  }

  lemma {:induction false} StaysScanned(env: Env, states: seq<Sys>, steps: seq<Step>, r: nat, k: nat, t: int)
    requires IsTrace(env, states, steps) && r < k < |states| && steps[r] == ReconcileOne(t)
    requires forall i :: r < i < k ==> ScansOrWaits(steps[i])
    requires t in states[r].db.tasks && states[r].db.tasks[t].config.enabled && env.cal.parses(states[r].db.tasks[t].config.cron)
    ensures Scanned(states[k].db, t) && states[k].db.tasks[t].config == states[r].db.tasks[t].config
  {
    var i := k - 1;
    TraceIsSound(env, states, steps, i);
    if i == r {
      ScanMakesScanned(env.cal, states[i].db, t, states[i].now);
    } else {
      StaysScanned(env, states, steps, r, i, t);
      if steps[i].ReconcileOne? {
        if steps[i].t == t {
          ScanMakesScanned(env.cal, states[i].db, t, states[i].now);
        } else {
          OtherScanKeepsScanned(env.cal, states[i].db, steps[i].t, t, states[i].now);
        }
      }
    }
  }

  lemma OtherScanKeepsScanned(cal: Calendar, db: Db, u: int, t: int, now: int)
    requires u in db.tasks && u != t && Scanned(db, t)
    ensures Scanned(Reconcile(cal, db, u, now), t) && Reconcile(cal, db, u, now).tasks[t] == db.tasks[t]
  {
    ReconcileTouchesOnly(cal, db, u, now);
    assert RowOf(Reconcile(cal, db, u, now), t) == RowOf(db, t);
  }

  /** The pass gave `t` a new run. */
  ghost predicate JustStarted(before: Db, after: Db, t: int) {
    t in after.rows && after.rows[t].status.Dispatched? && after.rows[t].runId.Some? && after.rows[t].runId.value !in before.runs
  }

  lemma PassStartsClean(env: Env, s: Sys, sources: set<int>, order: seq<int>, t: int)
    requires Sound(s) && Scanned(s.db, t) && ByAge(SettleAll(s.db, s.now).rows, order)
    requires JustStarted(s.db, Pump(env, s, sources, order).db, t)
    ensures var after := Pump(env, s, sources, order).db;
      Handed(after, t, after.rows[t].runId.value) && after.rows[t].newer.None? && after.tasks == s.db.tasks
  {
    var settled := SettleAll(s.db, s.now);
    var p := DispatchPass(settled, sources, env.limit, order, s.now);
    PassChangesOnly(settled, sources, env.limit, order, s.now);
    assert RowOutcome(settled, p, t, s.now);
    if t in s.db.rows {
      SettleNames(s.db.tasks, s.db.runs, t, s.db.rows[t], s.now);
      assert NamesOwnRun(s.db.runs, t, s.db.rows[t]);
    }
    StartedAtRest(s.db, settled, p, t, s.now);
  }

  /** What a turn starts, if nothing but scans and time comes between the scan of the task and the pass, is handed over
      without a follow-up. */
  lemma ATurnStartsClean(env: Env, states: seq<Sys>, steps: seq<Step>, r: nat, d: nat, t: int)
    requires IsTrace(env, states, steps) && r < d < |steps| && steps[r] == ReconcileOne(t) && steps[d].DispatchDue?
    requires forall i :: r < i < d ==> ScansOrWaits(steps[i])
    requires t in states[r].db.tasks && states[r].db.tasks[t].config.enabled && env.cal.parses(states[r].db.tasks[t].config.cron)
    requires JustStarted(states[d].db, states[d + 1].db, t)
    ensures var db := states[d + 1].db; Handed(db, t, db.rows[t].runId.value) && db.rows[t].newer.None?
    ensures states[d + 1].db.tasks[t].config == states[r].db.tasks[t].config && states[d + 1].db.tasks[t].baseline.Some?
  {
    StaysScanned(env, states, steps, r, d, t);
    TraceIsSound(env, states, steps, d);
    PassStartsClean(env, states[d], steps[d].sources, steps[d].order, t);
  }

  // ------------------------------------------------------------------ from the pass to the begin

  /** The step deletes `t` or resets its schedule. */
  predicate Drops(s: Sys, step: Step, t: int) {
    match step
    case Delete(u) => u == t
    case Edit(u, config) => u == t && t in s.db.tasks && Resets(s.db.tasks[t].config, config)
    case _ => false
  }

  /** No occurrence comes within the tolerance of an early tick. */
  predicate NoneNear(cal: Calendar, task: Task, now: int) {
    task.baseline.Some? && FoldedUpTo(cal, task.config.cron, task.baseline.value, now + TICK_EARLY_TOLERANCE)
  }

  /** The obligation is still handed to the run, and as long as no occurrence is near nothing was noted on it. */
  ghost predicate StillHanded(cal: Calendar, before: Db, after: Db, t: int, id: int, now: int)
    requires t in before.tasks && t in before.rows
  {
    && Handed(after, t, id) && after.tasks[t].config.cron == before.tasks[t].config.cron
    && (NoneNear(cal, before.tasks[t], now) ==>
          after.tasks[t].baseline == before.tasks[t].baseline && after.rows[t].newer == before.rows[t].newer)
  }

  lemma ScanKeepsHanded(cal: Calendar, db: Db, t: int, id: int, now: int)
    requires Handed(db, t, id) && cal.parses(db.tasks[t].config.cron)
    ensures StillHanded(cal, db, Reconcile(cal, db, t, now), t, id, now)
  {
    assert SettleAt(db, t, now) == db;
  }

  lemma TickKeepsHanded(cal: Calendar, db: Db, t: int, id: int, now: int)
    requires Handed(db, t, id) && cal.parses(db.tasks[t].config.cron)
    ensures StillHanded(cal, db, RecordTick(cal, db, t, now), t, id, now)
  {
    ScanKeepsHanded(cal, db, t, id, now);
    ReconcileTouchesOnly(cal, db, t, now);
  }

  lemma PumpKeepsHanded(env: Env, s: Sys, sources: set<int>, order: seq<int>, t: int, id: int)
    requires Handed(s.db, t, id) && ByAge(SettleAll(s.db, s.now).rows, order)
    ensures StillHanded(env.cal, s.db, Pump(env, s, sources, order).db, t, id, s.now)
  {
    var settled := SettleAll(s.db, s.now);
    assert t in settled.rows && settled.rows[t] == s.db.rows[t];
    PassChangesOnly(settled, sources, env.limit, order, s.now);
    assert RowOutcome(settled, DispatchPass(settled, sources, env.limit, order, s.now), t, s.now);
  }

  lemma OutcomeKeepsHanded(cal: Calendar, db: Db, k: int, state: RunState, message: string, now: int, t: int, id: int)
    requires Handed(db, t, id) && k in db.runs && !state.Active()
    requires Conclude(db, k, state, message, now).runs[id].state.Pending?
    ensures StillHanded(cal, db, Conclude(db, k, state, message, now), t, id, now)
  {
  }

  lemma EditKeepsHanded(cal: Calendar, db: Db, u: int, config: Config, now: int, t: int, id: int)
    requires Handed(db, t, id) && u in db.tasks && (u == t ==> !Resets(db.tasks[t].config, config))
    ensures StillHanded(cal, db, UpdateTask(db, u, config, now), t, id, now)
  {
  }

  /** Steps that leave the task, its row and the run alone. */
  lemma ElsewhereKeepsHanded(cal: Calendar, db: Db, after: Db, t: int, id: int, now: int)
    requires Handed(db, t, id) && t in after.tasks && after.tasks[t] == db.tasks[t] && RowOf(after, t) == RowOf(db, t)
    requires OfTask(after.runs, t, id) && after.runs[id].state.Pending?
    ensures StillHanded(cal, db, after, t, id, now)
  {
  }

  lemma TouchKeepsHanded(cal: Calendar, db: Db, after: Db, u: int, t: int, id: int, now: int)
    requires Handed(db, t, id) && u in db.tasks && u != t && TouchesOnly(db, after, u)
    ensures StillHanded(cal, db, after, t, id, now)
  {
    assert RowOf(after, t) == RowOf(db, t);
  }

  lemma DeletionKeepsHanded(cal: Calendar, db: Db, u: int, t: int, id: int, now: int)
    requires Handed(db, t, id) && u != t
    ensures StillHanded(cal, db, DeleteTask(db, u), t, id, now)
  {
    DeleteIsWithout(db, u);
  }

  lemma ScheduleStepKeepsHanded(env: Env, s: Sys, step: Step, t: int, id: int)
    requires Enabled(env, s, step) && Handed(s.db, t, id) && env.cal.parses(s.db.tasks[t].config.cron)
    requires step.Callback? || step.ReconcileOne?
    ensures StillHanded(env.cal, s.db, Next(env, s, step).db, t, id, s.now)
  {
    if step.Callback? {
      var u := step.t;
      if u == t {
        TickKeepsHanded(env.cal, s.db, t, id, s.now);
      } else if u in s.db.tasks {
        TickTouchesOnly(env.cal, s.db, u, s.now);
        TouchKeepsHanded(env.cal, s.db, RecordTick(env.cal, s.db, u, s.now), u, t, id, s.now);
      }
    } else {
      var u := step.t;
      if u == t {
        ScanKeepsHanded(env.cal, s.db, t, id, s.now);
      } else {
        ReconcileTouchesOnly(env.cal, s.db, u, s.now);
        TouchKeepsHanded(env.cal, s.db, Reconcile(env.cal, s.db, u, s.now), u, t, id, s.now);
      }
    }
  }

  /** Until the run begins or ends, nothing but a reset or a deletion takes the obligation from it. */
  lemma HandedNext(env: Env, s: Sys, step: Step, t: int, id: int)
    requires Enabled(env, s, step) && Handed(s.db, t, id) && !Drops(s, step, t)
    requires env.cal.parses(s.db.tasks[t].config.cron)
    requires OfTask(Next(env, s, step).db.runs, t, id) && Next(env, s, step).db.runs[id].state.Pending?
    ensures StillHanded(env.cal, s.db, Next(env, s, step).db, t, id, s.now)
  {
    match step
    case Callback(_, _) => ScheduleStepKeepsHanded(env, s, step, t, id);
    case ReconcileOne(_) => ScheduleStepKeepsHanded(env, s, step, t, id);
    case DispatchDue(sources, order) => PumpKeepsHanded(env, s, sources, order, t, id);
    case Finalize(k, state, message) => OutcomeKeepsHanded(env.cal, s.db, k, state, message, s.now, t, id);
    case Edit(u, config) => EditKeepsHanded(env.cal, s.db, u, config, s.now, t, id);
    case Delete(u) => DeletionKeepsHanded(env.cal, s.db, u, t, id, s.now);
    case _ => ElsewhereOrSettled(env, s, step, t, id);
  }

  lemma ElsewhereOrSettled(env: Env, s: Sys, step: Step, t: int, id: int)
    requires Enabled(env, s, step) && Handed(s.db, t, id)
    requires !step.Callback? && !step.ReconcileOne? && !step.DispatchDue? && !step.Finalize? && !step.Edit? && !step.Delete?
    requires OfTask(Next(env, s, step).db.runs, t, id) && Next(env, s, step).db.runs[id].state.Pending?
    ensures StillHanded(env.cal, s.db, Next(env, s, step).db, t, id, s.now)
  {
    var after := Next(env, s, step).db;
    assert step.SettleEvery? ==> t in after.rows && after.rows[t] == s.db.rows[t];
    ElsewhereKeepsHanded(env.cal, s.db, after, t, id, s.now);
  }

  lemma EndsArePending(runs: map<int, Run>, after: map<int, Run>, now: int, id: int)
    requires OnlyEnds(runs, after, now) && id in runs && !runs[id].state.Pending?
    ensures id in after && !after[id].state.Pending?
  {
    assert after[id] == runs[id] || EndsUnpaid(runs[id], after[id], now);
  }

  /** A run that has left the pending state does not come back to it. */
  lemma NeverPendingAgain(env: Env, s: Sys, step: Step, id: int)
    requires Sound(s) && Enabled(env, s, step) && id in s.db.runs && !s.db.runs[id].state.Pending?
    ensures id in Next(env, s, step).db.runs ==> !Next(env, s, step).db.runs[id].state.Pending?
  {
    match step
    case Callback(t, token) =>
      if t in s.tokens && s.tokens[t] == token {
        TickTouchesOnly(env.cal, s.db, t, s.now);
      }
    case ReconcileOne(t) => ReconcileTouchesOnly(env.cal, s.db, t, s.now);
    case DispatchDue(sources, order) => PassChangesOnly(SettleAll(s.db, s.now), sources, env.limit, order, s.now);
    case Leave(run, state, message) =>
      TerminalizeOnlyEnds(s.db, run, state, message, s.now);
      EndsArePending(s.db.runs, Terminalize(s.db, run, state, message, s.now).runs, s.now, id);
    case Watchdog =>
      SweepOnlyEnds(s.db, OwnedIds(s.live), s.now);
      EndsArePending(s.db.runs, Sweep(s.db, OwnedIds(s.live), s.now).runs, s.now, id);
    case Restart =>
      ReconcileStaleOnlyEnds(s.db, s.now);
      EndsArePending(s.db.runs, ReconcileStale(s.db, s.now).runs, s.now, id);
    case Delete(t) => DeleteIsWithout(s.db, t);
    case _ =>
  }

  /** A run whose task is not deleted stays in the table. */
  lemma RunStays(env: Env, s: Sys, step: Step, id: int)
    requires Sound(s) && Enabled(env, s, step) && id in s.db.runs && step != Delete(s.db.runs[id].task)
    ensures var runs := Next(env, s, step).db.runs; id in runs && runs[id].task == s.db.runs[id].task
  {
    match step
    case Callback(t, token) =>
      if t in s.tokens && s.tokens[t] == token {
        TickTouchesOnly(env.cal, s.db, t, s.now);
      }
    case ReconcileOne(t) => ReconcileTouchesOnly(env.cal, s.db, t, s.now);
    case DispatchDue(sources, order) => PassChangesOnly(SettleAll(s.db, s.now), sources, env.limit, order, s.now);
    case Leave(run, state, message) => TerminalizeOnlyEnds(s.db, run, state, message, s.now);
    case Watchdog => SweepOnlyEnds(s.db, OwnedIds(s.live), s.now);
    case Restart => ReconcileStaleOnlyEnds(s.db, s.now);
    case Delete(t) => DeleteIsWithout(s.db, t);
    case _ =>
  }

  ghost predicate StaysTask(states: seq<Sys>, steps: seq<Step>, a: nat, b: nat, t: int)
    requires a <= b < |states| == |steps| + 1
  {
    forall i :: a <= i < b ==> !Drops(states[i], steps[i], t)
  }

  /** Pending at the end means pending all along. */
  lemma {:induction false} PendingAllAlong(env: Env, states: seq<Sys>, steps: seq<Step>, a: nat, b: nat, t: int, id: int)
    requires IsTrace(env, states, steps) && a <= b < |states| && StaysTask(states, steps, a, b, t)
    requires OfTask(states[a].db.runs, t, id)
    ensures OfTask(states[b].db.runs, t, id)
    ensures states[b].db.runs[id].state.Pending? ==> states[a].db.runs[id].state.Pending?
    decreases b - a
  {
    if a < b {
      TraceIsSound(env, states, steps, a);
      assert !Drops(states[a], steps[a], t);
      RunStays(env, states[a], steps[a], id);
      PendingAllAlong(env, states, steps, a + 1, b, t, id);
      if !states[a].db.runs[id].state.Pending? {
        NeverPendingAgain(env, states[a], steps[a], id);
      }
    }
  }

  lemma {:induction false} TimeRuns(env: Env, states: seq<Sys>, steps: seq<Step>, a: nat, b: nat)
    requires IsTrace(env, states, steps) && a <= b < |states|
    ensures states[a].now <= states[b].now
    decreases b - a
  {
    if a < b {
      TimeRuns(env, states, steps, a + 1, b);
    }
  }

  /** While the run waits, the obligation stays handed to it; and if no occurrence comes up to a second after the end
      of the wait, nothing is noted on it and the watermark does not move. */
  lemma {:induction false} HandedUntilBegun(env: Env, states: seq<Sys>, steps: seq<Step>, a: nat, b: nat, t: int, id: int)
    requires IsTrace(env, states, steps) && a <= b < |states| && StaysTask(states, steps, a, b, t)
    requires Handed(states[a].db, t, id) && env.cal.parses(states[a].db.tasks[t].config.cron)
    requires id in states[b].db.runs && states[b].db.runs[id].state.Pending?
    ensures StillHanded(env.cal, states[a].db, states[b].db, t, id, states[b].now)
    decreases b - a
  {
    if a < b {
      var k := b - 1;
      assert StaysTask(states, steps, a, k, t);
      PendingAllAlong(env, states, steps, a, k, t, id);
      PendingAllAlong(env, states, steps, k, b, t, id);
      HandedUntilBegun(env, states, steps, a, k, t, id);
      TraceIsSound(env, states, steps, k);
      HandedNext(env, states[k], steps[k], t, id);
      TimeRuns(env, states, steps, k, b);
    }
  }

  // ------------------------------------------------------------------ the whole turn

  /** A turn scans task `t` at step `r` and starts it at step `d`, with only scans and time in between. */
  ghost predicate TurnStarts(env: Env, states: seq<Sys>, steps: seq<Step>, r: nat, d: nat, t: int) {
    && IsTrace(env, states, steps) && r < d < |steps| && steps[r] == ReconcileOne(t) && steps[d].DispatchDue?
    && (forall i :: r < i < d ==> ScansOrWaits(steps[i]))
    && t in states[r].db.tasks && states[r].db.tasks[t].config.enabled && env.cal.parses(states[r].db.tasks[t].config.cron)
    && JustStarted(states[d].db, states[d + 1].db, t)
  }

  /** Whatever happens after the turn, as long as the task is neither reset nor deleted, the begin of the run it started
      is disciplined exactly when no occurrence lies between the watermark and the begin and none was noted on the
      way; and it is disciplined whenever no occurrence comes before one second after it. */
  lemma ATurnsRunBeginsDisciplined(env: Env, states: seq<Sys>, steps: seq<Step>, r: nat, d: nat, b: nat, t: int, id: int)
    requires Regular(env.cal) && TurnStarts(env, states, steps, r, d, t) && d < b < |steps|
    requires states[d + 1].db.rows[t].runId == Some(id) && steps[b] == Begin(id)
    requires StaysTask(states, steps, d + 1, b, t) && id in states[b].db.runs && states[b].db.runs[id].state.Pending?
    ensures t in states[b].db.tasks && t in states[b].db.rows
    ensures Disciplined(env, states[b], steps[b], t)
       <==> NothingUnfolded(env.cal, states[b].db, t, states[b].now) && states[b].db.rows[t].newer.None?
    ensures t in states[d + 1].db.tasks && (NoneNear(env.cal, states[d + 1].db.tasks[t], states[b].now)
      ==> Disciplined(env, states[b], steps[b], t))
  {
    ATurnStartsClean(env, states, steps, r, d, t);
    HandedUntilBegun(env, states, steps, d + 1, b, t, id);
    BeginIsDisciplinedIff(env, states[b], t, id);
    if NoneNear(env.cal, states[d + 1].db.tasks[t], states[b].now) {
      var task := states[b].db.tasks[t];
      FoldedMeansNoneMissed(env.cal, task.config.cron, task.baseline.value, states[b].now);
    }
  }
}

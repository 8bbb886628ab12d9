/** A failure that retrying cannot fix is held until an operator edits the task; and what an old watermark consumes. */
module Blocking {
  import opened Prelude
  import opened Records
  import opened Schedule
  import opened DueWork
  import opened Dispatching
  import opened Lifecycle
  import opened Protocol
  import opened DebtInvariant
  import opened DebtSteps
  import opened PassFacts
  import opened Soundness

  /** A held obligation that names no run. */
  predicate HeldFor(db: Db, t: int) {
    t in db.rows && db.rows[t].status.Blocked? && db.rows[t].runId.None?
  }

  /** The same obligation, still held. */
  predicate StillHeld(before: Db, after: Db, t: int)
    requires t in before.rows
  {
    HeldFor(after, t) && after.rows[t].dueAt == before.rows[t].dueAt && after.rows[t].newer == before.rows[t].newer
  }

  /** When the work of a failed run may start again: at once after an infrastructure failure, never by itself after a
      permanent one, and otherwise, charged one attempt, once its backoff is over, unless five retries have been spent.
      It keeps its due instant and follow-up, and shows the message unless it was an infrastructure failure. */
  lemma FailedWorkMayRestartIff(row: Row, run: Run, now: int, later: int)
    requires run.state.Failed? && now <= later
    ensures var after := ApplyOutcome(row, run, now); var ordinary := !Infrastructure(run.error) && !Permanent(run.error);
      && after.Some? && after.value.dueAt == row.dueAt && after.value.newer == row.newer
      && after.value.runId.None? && after.value.waitReason.None?
      && after.value.attempts == row.attempts + (if ordinary then 1 else 0)
      && after.value.lastError == (if Infrastructure(run.error) then row.lastError
                                   else if |run.error| <= 500 then run.error else run.error[..500])
      && (after.value.status.Blocked? <==> Permanent(run.error) && !Infrastructure(run.error))
      && (after.value.status.Exhausted? <==> ordinary && 5 <= row.attempts)
      && (after.value.retryAt.Some? <==> ordinary && row.attempts < 5)
      && (Eligible(after.value, later) <==>
            Infrastructure(run.error)
            || (!Permanent(run.error) && row.attempts < 5 && now + BackoffSeconds(row.attempts + 1) * SECOND <= later))
  {
  }

  lemma ReconcileKeepsHeld(cal: Calendar, db: Db, t: int, now: int)
    requires t in db.tasks && HeldFor(db, t)
    ensures StillHeld(db, Reconcile(cal, db, t, now), t)
  {
    assert SettleAt(db, t, now) == db;
  }

  lemma TickKeepsHeld(cal: Calendar, db: Db, t: int, now: int)
    requires t in db.tasks && HeldFor(db, t)
    ensures StillHeld(db, RecordTick(cal, db, t, now), t)
  {
    ReconcileKeepsHeld(cal, db, t, now);
    ReconcileTouchesOnly(cal, db, t, now);
  }

  lemma PumpKeepsHeld(env: Env, s: Sys, sources: set<int>, order: seq<int>, t: int)
    requires ByAge(SettleAll(s.db, s.now).rows, order) && t in s.db.tasks && HeldFor(s.db, t) && s.db.tasks[t].config.enabled
    ensures StillHeld(s.db, Pump(env, s, sources, order).db, t)
  {
    var settled := SettleAll(s.db, s.now);
    PassChangesOnly(settled, sources, env.limit, order, s.now);
    assert t in settled.rows && settled.rows[t] == s.db.rows[t];
    assert RowOutcome(settled, DispatchPass(settled, sources, env.limit, order, s.now), t, s.now);
  }

  lemma ConcludeKeepsHeld(db: Db, id: int, state: RunState, message: string, now: int, t: int)
    requires id in db.runs && HeldFor(db, t)
    ensures StillHeld(db, Conclude(db, id, state, message, now), t)
  {
  }

  lemma EditKeepsOtherHeld(db: Db, u: int, config: Config, now: int, t: int)
    requires u in db.tasks && t in db.tasks && u != t && HeldFor(db, t)
    ensures var after := UpdateTask(db, u, config, now);
      t in after.tasks && after.tasks[t] == db.tasks[t] && StillHeld(db, after, t)
  {
  }

  /** No step but an edit or the deletion of the task touches a held obligation. */
  lemma OnlyAnEditReleases(env: Env, s: Sys, step: Step, t: int)
    requires Enabled(env, s, step) && t in s.db.tasks && HeldFor(s.db, t) && s.db.tasks[t].config.enabled
    requires (step.Edit? || step.Delete?) ==> step.t != t
    ensures var after := Next(env, s, step).db;
      t in after.tasks && after.tasks[t].config == s.db.tasks[t].config && StillHeld(s.db, after, t)
  {
    match step
    case Callback(u, token) =>
      if u in s.tokens && s.tokens[u] == token && u in s.db.tasks {
        TickTouchesOnly(env.cal, s.db, u, s.now);
        if u == t {
          TickKeepsHeld(env.cal, s.db, t, s.now);
        }
      }
    case ReconcileOne(u) =>
      ReconcileTouchesOnly(env.cal, s.db, u, s.now);
      if u == t {
        ReconcileKeepsHeld(env.cal, s.db, t, s.now);
      }
    case DispatchDue(sources, order) => PumpKeepsHeld(env, s, sources, order, t);
    case Finalize(id, state, message) => ConcludeKeepsHeld(s.db, id, state, message, s.now, t);
    case Edit(u, config) => EditKeepsOtherHeld(s.db, u, config, s.now, t);
    case Delete(u) => DeleteIsWithout(s.db, u);
    case _ =>
  }

  /** So along every run a held obligation stays held, with its due instant and follow-up, until the task is edited. */
  lemma {:induction false} HeldUntilEdited(env: Env, states: seq<Sys>, steps: seq<Step>, k: nat, m: nat, t: int)
    requires IsTrace(env, states, steps) && k <= m < |states|
    requires t in states[k].db.tasks && HeldFor(states[k].db, t) && states[k].db.tasks[t].config.enabled
    requires forall i :: k <= i < m && (steps[i].Edit? || steps[i].Delete?) ==> steps[i].t != t
    ensures t in states[m].db.tasks && states[m].db.tasks[t].config == states[k].db.tasks[t].config
    ensures StillHeld(states[k].db, states[m].db, t)
  {
    if k < m {
      HeldUntilEdited(env, states, steps, k, m - 1, t);
      OnlyAnEditReleases(env, states[m - 1], steps[m - 1], t);
    }
  }

  /** The edit is the way out. One that keeps the schedule lets held or exhausted work start at once, with a full set of
      retries, and leaves any other obligation alone; one that changes it drops the obligation, and nothing that fell
      before the edit is owed again. Either way no run and no other task is touched. */
  lemma AnEditReleases(cal: Calendar, db: Db, t: int, config: Config, now: int, later: int)
    requires t in db.tasks && Regular(cal) && now < later
    ensures var after := UpdateTask(db, t, config, now);
      && t in after.tasks && after.tasks[t].config == config && after.tasks[t].createdAt == db.tasks[t].createdAt
      && after.runs == db.runs && after.tasks == db.tasks[t := after.tasks[t]] && after.rows == Put(db.rows, t, RowOf(after, t))
      && if Resets(db.tasks[t].config, config) then
           && after.tasks[t].baseline == after.tasks[t].epoch == Some(now) && t !in after.rows
           && (t in Reconcile(cal, after, t, later).rows ==> now < Reconcile(cal, after, t, later).rows[t].dueAt)
         else
           && after.tasks[t].baseline == db.tasks[t].baseline && after.tasks[t].epoch == db.tasks[t].epoch
           && (t in after.rows <==> t in db.rows)
           && (t in db.rows ==>
                 if db.rows[t].status.Blocked? || db.rows[t].status.Exhausted? then
                   Eligible(after.rows[t], now) && KeptButRearmed(db.rows[t], after.rows[t])
                 else after.rows[t] == db.rows[t])
  {
    var after := UpdateTask(db, t, config, now);
    assert RowOf(after, t) == if t in after.rows then Some(after.rows[t]) else None;
  }

  /** The same debt, tried again from the start. */
  predicate KeptButRearmed(before: Row, after: Row) {
    && after.dueAt == before.dueAt && after.newer == before.newer && after.runId == before.runId
    && after.waitReason == before.waitReason && after.attempts == 0 && after.retryAt.None? && after.lastError == ""
  }

  // ------------------------------------------------------------------ a cron that does not parse

  lemma ThePrefixNamesCron(cron: string)
    ensures Contains(InvalidCron(cron), "cron")
  {
    var text := InvalidCron(cron);
    assert text[8] == 'c' && text[9] == 'r' && text[10] == 'o' && text[11] == 'n';
    assert "cron" <= text[8..];
  }

  /** An enabled task whose cron does not parse is shown as a held obligation that names the cron: after a scan it has a
      blocked row, with the debt it had, or one due now, and a tick does the same; a second scan changes nothing, and no
      run, watermark or other task is touched. */
  lemma AnInvalidCronIsVisible(cal: Calendar, db: Db, t: int, now: int, later: int)
    requires t in db.tasks && db.tasks[t].config.enabled && !cal.parses(db.tasks[t].config.cron)
    ensures var after := Reconcile(cal, db, t, now);
      && after.tasks == db.tasks && after.runs == db.runs && after.rows == Put(db.rows, t, RowOf(after, t))
      && t in after.rows && after.rows[t].status.Blocked? && Contains(after.rows[t].lastError, "cron")
      && (if t in db.rows then
            && after.rows[t].dueAt == db.rows[t].dueAt && after.rows[t].newer == db.rows[t].newer
            && after.rows[t].runId == db.rows[t].runId && after.rows[t].attempts == db.rows[t].attempts
          else after.rows[t].dueAt == now && after.rows[t].newer.None? && after.rows[t].runId.None? && after.rows[t].attempts == 0)
      && Reconcile(cal, after, t, later) == after && RecordTick(cal, db, t, now) == after
  {
    ThePrefixNamesCron(db.tasks[t].config.cron);
  }

  // ------------------------------------------------------------------ a task without a watermark

  /** The newest run of a task; of runs that began together, the one with the lowest id. */
  ghost predicate IsNewest(runs: map<int, Run>, t: int, id: int) {
    OfTask(runs, t, id)
    && forall k :: OfTask(runs, t, k) ==>
         runs[k].startedAt < runs[id].startedAt || (runs[k].startedAt == runs[id].startedAt && id <= k)
  }

  /** Its end; for a run without one, its start. */
  function EndOf(run: Run): int {
    if run.finishedAt.Some? then run.finishedAt.value else run.startedAt
  }

  /** `row` keeps the due instant of `was`, and its follow-up unless one beyond `w` has been recorded; a new row is due
      beyond `w`. */
  predicate AddsOnlyBeyond(was: Option<Row>, row: Row, w: int) {
    if was.None? then w < row.dueAt && row.newer.None?
    else
      row.dueAt == was.value.dueAt
      && (row.newer == was.value.newer || (row.newer.Some? && w < row.newer.value))
  }

  /** The scan counts from `w`: what it adds to what was owed already, as a due instant or as a follow-up, lies beyond
      `w`, and where nothing was owed it is the first occurrence beyond `w` that becomes due. */
  ghost predicate CountsFrom(cal: Calendar, was: Db, after: Db, t: int, w: int, now: int)
    requires t in was.tasks
  {
    && t in after.tasks && after.tasks[t].baseline.Some? && w <= after.tasks[t].baseline.value
    && (t in after.rows ==> after.rows == was.rows || AddsOnlyBeyond(RowOf(was, t), after.rows[t], w))
    && var first := NextOccurrence(cal, was.tasks[t].config.cron, w);
       if first.Some? && first.value <= now then t in after.rows && (t !in was.rows ==> after.rows[t] == NewRow(first.value, now))
       else after.tasks[t].baseline == Some(w) && after.rows == was.rows
  }

  /** A task without a watermark counts from the end of its newest run. */
  lemma TheNewestRunConsumesItsSpan(cal: Calendar, db: Db, t: int, id: int, now: int)
    requires Regular(cal) && t in db.tasks && db.tasks[t].baseline.None?
    requires db.tasks[t].config.enabled && cal.parses(db.tasks[t].config.cron) && IsNewest(db.runs, t, id)
    ensures CountsFrom(cal, SettleAt(db, t, now), Reconcile(cal, db, t, now), t, EndOf(db.runs[id]), now)
  {
    DerivedFromTheNewest(db.runs, t, db.tasks[t].createdAt, id);
    FoldBeyond(cal, SettleAt(db, t, now), t, now);
  }

  /** One that has never run counts from its creation, and one with a watermark from there. */
  lemma ANewTaskCountsFromItsCreation(cal: Calendar, db: Db, t: int, now: int)
    requires Regular(cal) && t in db.tasks && db.tasks[t].config.enabled && cal.parses(db.tasks[t].config.cron)
    requires db.tasks[t].baseline.Some? || forall id :: !OfTask(db.runs, t, id)
    ensures CountsFrom(cal, SettleAt(db, t, now), Reconcile(cal, db, t, now), t,
                       if db.tasks[t].baseline.Some? then db.tasks[t].baseline.value else db.tasks[t].createdAt, now)
  {
    if db.tasks[t].baseline.None? {
      NeverRun(db.runs, t, db.tasks[t].createdAt);
    }
    FoldBeyond(cal, SettleAt(db, t, now), t, now);
  }

  lemma NeverRun(runs: map<int, Run>, t: int, createdAt: int)
    requires forall id :: !OfTask(runs, t, id)
    ensures DeriveBaseline(runs, t, createdAt) == createdAt
  {
    forall id | id in runs
      ensures runs[id].task != t
    {
      assert !OfTask(runs, t, id);
    }
    assert StartsOf(runs, t, (r: Run) => true) == {};
  }

  lemma FoldedRowIsBeyond(db: Db, t: int, first: int, latest: int, now: int, w: int)
    requires w < first <= latest
    ensures AddsOnlyBeyond(RowOf(db, t), FoldRow(db, t, first, latest, now), w)
  {
  }

  /** A fold moves the watermark forward and adds only what lies beyond it. */
  lemma FoldBeyond(cal: Calendar, db: Db, t: int, now: int)
    requires Regular(cal) && t in db.tasks
    ensures CountsFrom(cal, db, FoldFrom(cal, db, t, now), t, BaselineOf(db, t), now)
  {
    if Owes(cal, db, t, now) {
      var cron, w := db.tasks[t].config.cron, BaselineOf(db, t);
      var first := NextOccurrence(cal, cron, w).value;
      var latest := Walk(cal, cron, first, now, MAX_OCCURRENCE_SCAN);
      FoldedRowIsBeyond(db, t, first, latest, now, w);
      assert FoldFrom(cal, db, t, now).rows[t] == FoldRow(db, t, first, latest, now);
    }
  }

  lemma DerivedFromTheNewest(runs: map<int, Run>, t: int, createdAt: int, id: int)
    requires IsNewest(runs, t, id)
    ensures DeriveBaseline(runs, t, createdAt) == EndOf(runs[id])
  {
    var p := (r: Run) => true;
    var starts := StartsOf(runs, t, p);
    assert p(runs[id]) && runs[id].startedAt in starts;
    var newest := Latest(starts).value;
    var latest :| latest in runs && runs[latest].task == t && p(runs[latest]) && runs[latest].startedAt == newest;
    assert OfTask(runs, t, latest);
    assert newest == runs[id].startedAt;
    var ids := set k | k in runs && runs[k].task == t && runs[k].startedAt == newest;
    assert id in ids;
    forall k | k in ids
      ensures id <= k
    {
      assert OfTask(runs, t, k);
    }
    assert Earliest(ids).value == id;
  }
}

/** One active run per source, absorbing terminal states and a watchdog that is sound and complete, over whole runs. */
module RunLifecycle {
  import opened Prelude
  import opened Records
  import opened DueWork
  import opened Dispatching
  import opened Lifecycle
  import opened Protocol
  import opened PassFacts
  import opened DebtSteps
  import opened Soundness

  /** Whatever was admitted, dispatched, executed, cancelled, reclaimed, edited or deleted: one active run per source. */
  lemma OneActiveRunPerSource(env: Env, states: seq<Sys>, steps: seq<Step>, k: nat, i: int, j: int)
    requires IsTrace(env, states, steps) && k < |states| && i in states[k].db.runs && j in states[k].db.runs
    requires states[k].db.runs[i].state.Active() && states[k].db.runs[j].state.Active()
    ensures states[k].db.runs[i].task in states[k].db.tasks && states[k].db.runs[j].task in states[k].db.tasks
    ensures var db := states[k].db;
      db.tasks[db.runs[i].task].config.sourceId == db.tasks[db.runs[j].task].config.sourceId ==> i == j
  {
    TraceIsSound(env, states, steps, k);
    assert ActiveAt(states[k].db.tasks, states[k].db.runs, i) && ActiveAt(states[k].db.tasks, states[k].db.runs, j);
  }

  /** The lock on the source field is what the edit case rests on: without it one edit makes two active runs share a source. */
  lemma WithoutTheLockAnEditBreaksIt(db: Db, t: int, config: Config, now: int, i: int, j: int)
    requires ActiveAt(db.tasks, db.runs, i) && db.runs[i].task == t
    requires ActiveAt(db.tasks, db.runs, j) && db.runs[j].task != t
    requires config.sourceId == db.tasks[db.runs[j].task].config.sourceId != db.tasks[t].config.sourceId
    ensures HasActiveRun(db.runs, t) && UnsafeActiveChange(db.tasks[t].config, config)
    ensures !SoleActive(UpdateTask(db, t, config, now).tasks, db.runs)
  {
  }

  // ------------------------------------------------------------------ terminal states

  ghost predicate Terminal(db: Db, id: int) {
    id in db.runs && !db.runs[id].state.Active()
  }

  lemma EndsSpareTerminal(db: Db, runs: map<int, Run>, id: int, now: int)
    requires Terminal(db, id) && OnlyEnds(db.runs, runs, now)
    ensures id in runs && runs[id] == db.runs[id]
  {
  }

  /** No step writes a terminal row; only the deletion of its task removes one. */
  lemma TerminalStays(env: Env, s: Sys, step: Step, id: int)
    requires Sound(s) && Enabled(env, s, step) && Terminal(s.db, id) && step != Delete(s.db.runs[id].task)
    ensures var after := Next(env, s, step).db; id in after.runs && after.runs[id] == s.db.runs[id]
  {
    match step
    case Callback(t, token) =>
      if t in s.tokens && s.tokens[t] == token {
        TickTouchesOnly(env.cal, s.db, t, s.now);
      }
    case ReconcileOne(t) => ReconcileTouchesOnly(env.cal, s.db, t, s.now);
    case DispatchDue(sources, order) => PassChangesOnly(SettleAll(s.db, s.now), sources, env.limit, order, s.now);
    case Leave(run, state, message) =>
      TerminalizeOnlyEnds(s.db, run, state, message, s.now);
      EndsSpareTerminal(s.db, Terminalize(s.db, run, state, message, s.now).runs, id, s.now);
    case Watchdog =>
      SweepOnlyEnds(s.db, OwnedIds(s.live), s.now);
      EndsSpareTerminal(s.db, Sweep(s.db, OwnedIds(s.live), s.now).runs, id, s.now);
    case Restart =>
      ReconcileStaleOnlyEnds(s.db, s.now);
      EndsSpareTerminal(s.db, ReconcileStale(s.db, s.now).runs, id, s.now);
    case Delete(t) => DeleteIsWithout(s.db, t);
    case _ =>
  }

  /** A terminal row reads the same at every later point of the run, until its task is deleted. */
  lemma {:induction false} TerminalIsAbsorbing(env: Env, states: seq<Sys>, steps: seq<Step>, k: nat, m: nat, id: int)
    requires IsTrace(env, states, steps) && k <= m < |states| && Terminal(states[k].db, id)
    requires forall i :: k <= i < m ==> steps[i] != Delete(states[k].db.runs[id].task)
    ensures id in states[m].db.runs && states[m].db.runs[id] == states[k].db.runs[id]
  {
    if k < m {
      TerminalIsAbsorbing(env, states, steps, k, m - 1, id);
      TraceIsSound(env, states, steps, m - 1);
      TerminalStays(env, states[m - 1], steps[m - 1], id);
    }
  }

  // ------------------------------------------------------------------ ownership

  /** Every active run has its one execution, and it is running exactly while that execution is past its locks. */
  ghost predicate Executed(live: map<int, Phase>, runs: map<int, Run>) {
    && (forall id :: id in runs && runs[id].state.Active() ==> id in live)
    && (forall id :: id in live ==> id in runs && (runs[id].state.Running? <==> live[id].Inside?))
  }

  /** No execution vanishes and leaves its row active. */
  predicate WritesItsEnd(s: Sys, step: Step) {
    match step
    case Vanish(id) => id in s.db.runs ==> !s.db.runs[id].state.Active()
    case _ => true
  }

  lemma ExecutedPump(env: Env, s: Sys, sources: set<int>, order: seq<int>)
    requires Executed(s.live, s.db.runs) && ByAge(SettleAll(s.db, s.now).rows, order)
    ensures var next := Pump(env, s, sources, order); Executed(next.live, next.db.runs)
  {
    PassChangesOnly(SettleAll(s.db, s.now), sources, env.limit, order, s.now);
    var p := DispatchPass(SettleAll(s.db, s.now), sources, env.limit, order, s.now);
    var live := WithRuns(s.live, p.started);
    forall id | id in p.runs && p.runs[id].state.Active()
      ensures id in live
    {
      assert id in s.db.runs ==> p.runs[id] == s.db.runs[id];
    }
  }

  lemma ExecutedBegin(s: Sys, id: int)
    requires Executed(s.live, s.db.runs) && id in s.live && s.live[id].Owned?
    ensures Executed(BeginRun(s, id).live, BeginRun(s, id).db.runs)
  {
  }

  lemma ExecutedEnd(live: map<int, Phase>, runs: map<int, Run>, id: int, phases: map<int, Phase>, run: Run)
    requires Executed(live, runs) && id in live && !run.state.Active()
    requires phases == live - {id} || phases == live[id := Written]
    ensures Executed(phases, runs[id := run])
  {
  }

  lemma ExecutedRemoval(s: Sys, t: int)
    requires Executed(s.live, s.db.runs)
    ensures Executed(RemoveTask(s, t).live, RemoveTask(s, t).db.runs)
  {
  }

  lemma ExecutedAdmission(s: Sys, t: int)
    requires Executed(s.live, s.db.runs) && t in s.db.tasks
    ensures Executed(AdmitManually(s, t).live, AdmitManually(s, t).db.runs)
  {
  }

  lemma ExecutedRegistration(live: map<int, Phase>, runs: map<int, Run>, id: int)
    requires Executed(live, runs) && id in live && live[id].Scheduled?
    ensures Executed(live[id := Owned], runs)
  {
  }

  lemma ExecutedReboot(env: Env, s: Sys)
    ensures Executed(Reboot(env, s).live, Reboot(env, s).db.runs)
  {
  }

  lemma ExecutedNext(env: Env, s: Sys, step: Step)
    requires Sound(s) && Executed(s.live, s.db.runs) && Enabled(env, s, step) && WritesItsEnd(s, step)
    ensures Executed(Next(env, s, step).live, Next(env, s, step).db.runs)
  {
    match step
    case Callback(t, token) =>
      if t in s.tokens && s.tokens[t] == token {
        TickTouchesOnly(env.cal, s.db, t, s.now);
      }
    case ReconcileOne(t) => ReconcileTouchesOnly(env.cal, s.db, t, s.now);
    case DispatchDue(sources, order) => ExecutedPump(env, s, sources, order);
    case Begin(id) => ExecutedBegin(s, id);
    case Finalize(id, state, message) =>
      ExecutedEnd(s.live, s.db.runs, id, s.live[id := Written], Ended(s.db.runs[id], state, message, s.now));
    case Leave(id, state, message) =>
      if s.db.runs[id].state.Active() {
        ExecutedEnd(s.live, s.db.runs, id, s.live - {id}, Ended(s.db.runs[id], state, message, s.now));
      }
    case Vanish(id) => ExecutedEnd(s.live, s.db.runs, id, s.live - {id}, s.db.runs[id]);
    case Watchdog => SweepSparesOwned(s.live, s.db, s.now);
    case Delete(t) => ExecutedRemoval(s, t);
    case RunNow(t) => ExecutedAdmission(s, t);
    case Register(id) => ExecutedRegistration(s.live, s.db.runs, id);
    case Restart => ExecutedReboot(env, s);
    case _ =>
  }

  lemma SweepSparesOwned(live: map<int, Phase>, db: Db, now: int)
    requires Executed(live, db.runs)
    ensures Executed(live, Sweep(db, OwnedIds(live), now).runs)
  {
  }

  /** If no execution vanishes from an active row, every active row has an execution in every reachable state. */
  lemma {:induction false} ActiveRunsAreExecuted(env: Env, states: seq<Sys>, steps: seq<Step>, k: nat)
    requires IsTrace(env, states, steps) && k < |states|
    requires forall i :: 0 <= i < |steps| ==> WritesItsEnd(states[i], steps[i])
    ensures Executed(states[k].live, states[k].db.runs)
  {
    if k > 0 {
      ActiveRunsAreExecuted(env, states, steps, k - 1);
      TraceIsSound(env, states, steps, k - 1);
      ExecutedNext(env, states[k - 1], steps[k - 1]);
    }
  }

  // ------------------------------------------------------------------ the watchdog

  /** The execution registered, or its row is still inside the grace. */
  predicate RegisteredInTime(s: Sys, id: int) {
    id in s.live && id in s.db.runs
    && (!s.live[id].Scheduled? || s.now - 300_000_000 < s.db.runs[id].startedAt)
  }

  /** A sweep leaves a live execution's row alone exactly when it is terminal or registered in time. */
  lemma WatchdogSparesIff(s: Sys, id: int)
    requires Sound(s) && id in s.live
    ensures id in s.db.runs
    ensures Sweep(s.db, OwnedIds(s.live), s.now).runs[id] == s.db.runs[id]
            <==> Terminal(s.db, id) || RegisteredInTime(s, id)
  {
  }

  /** Something active on the source survives a sweep: it is owned, or too young to judge. */
  ghost predicate Justified(s: Sys, source: int, id: int) {
    && ActiveAt(s.db.tasks, s.db.runs, id) && s.db.tasks[s.db.runs[id].task].config.sourceId == source
    && (id in OwnedIds(s.live) || s.now - 300_000_000 < s.db.runs[id].startedAt)
  }

  /** After a sweep a source is refused exactly when a live or young run uses it: no wedge outlives the grace. */
  lemma SweptSourceIsAdmissibleIff(s: Sys, t: int)
    requires Sound(s) && t in s.db.tasks
    ensures var swept := Sweep(s.db, OwnedIds(s.live), s.now);
      Refusal(swept, t).None? <==> forall id :: !Justified(s, s.db.tasks[t].config.sourceId, id)
  {
    var swept := Sweep(s.db, OwnedIds(s.live), s.now);
    var source := s.db.tasks[t].config.sourceId;
    forall id
      ensures Justified(s, source, id)
         <==> ActiveAt(swept.tasks, swept.runs, id) && swept.tasks[swept.runs[id].task].config.sourceId == source
    {
    }
    if id :| id in swept.runs && swept.runs[id].task == t && swept.runs[id].state.Active() {
      assert Justified(s, source, id);
    } else if id :| ActiveAt(swept.tasks, swept.runs, id) && swept.tasks[swept.runs[id].task].config.sourceId == source {
      assert SourceActive(swept, source);
    }
  }

  /** A restart leaves no active row, so every task is admissible. */
  lemma RestartFreesEverySource(env: Env, s: Sys, t: int)
    requires t in s.db.tasks
    ensures ActiveIds(Reboot(env, s).db.runs) == {} && Refusal(Reboot(env, s).db, t).None?
  {
    var after := Reboot(env, s).db;
    assert forall id :: id in after.runs ==> !after.runs[id].state.Active();
  }

  /** The obligation of `t` is back in the queue, exactly as it was before its run started. */
  predicate Requeued(before: Row, rows: map<int, Row>, t: int) {
    t in rows && rows[t] == before.(status := Due, runId := None, waitReason := None, retryAt := None, updatedAt := rows[t].updatedAt)
  }

  /** After a sweep and a settling, the obligation of every run the watchdog reclaimed is back in the queue, with its
      attempts, its due instant and its follow-up. */
  lemma ReclaimedWorkIsRequeued(s: Sys, t: int)
    requires Sound(s) && t in s.db.rows && s.db.rows[t].status.Dispatched? && s.db.rows[t].runId.Some?
    requires Orphaned(s.db.runs[s.db.rows[t].runId.value], s.db.rows[t].runId.value, OwnedIds(s.live), s.now)
    ensures Requeued(s.db.rows[t], SettleAll(Sweep(s.db, OwnedIds(s.live), s.now), s.now).rows, t)
  {
    var id := s.db.rows[t].runId.value;
    assert Sweep(s.db, OwnedIds(s.live), s.now).runs[id] == Ended(s.db.runs[id], Failed, ORPHANED, s.now);
  }

  /** So is the obligation of every run a restart interrupted. */
  lemma InterruptedWorkIsRequeued(env: Env, s: Sys, t: int)
    requires Sound(s) && t in s.db.rows && s.db.rows[t].status.Dispatched? && s.db.rows[t].runId.Some?
    requires s.db.runs[s.db.rows[t].runId.value].state.Active()
    ensures Requeued(s.db.rows[t], SettleAll(Reboot(env, s).db, s.now).rows, t)
  {
    var id := s.db.rows[t].runId.value;
    assert Reboot(env, s).db.runs[id] == Ended(s.db.runs[id], Failed, RESTARTED, s.now);
  }
}

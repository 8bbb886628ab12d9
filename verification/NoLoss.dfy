/** An occurrence is a debt that is not dropped: the safety of retained due work over whole runs. */
module NoLoss {
  import opened Prelude
  import opened Records
  import opened Schedule
  import opened DueWork
  import opened Dispatching
  import opened Lifecycle
  import opened Protocol
  import opened DebtInvariant
  import opened DebtSteps
  import opened PassFacts
  import opened Soundness

  /** Every occurrence of task `t` folded in its current generation is covered by a success or still owed by a row. */
  ghost predicate NothingLost(env: Env, s: Sys, t: int) {
    forall o :: t in s.db.tasks && t in s.origin && Folded(env.cal, s.db.tasks[t], s.origin[t], o)
      ==> Covered(s.db.runs, t, o) || t in s.db.rows
  }

  /** No payment deletes the row that owes an uncovered occurrence: neither settling, whenever it happens, nor the
      success of an execution that does not cover the occurrence. Only a deliberate cancel drops it. */
  ghost predicate PaymentsKeep(db: Db, t: int, o: int) {
    && t in db.rows
    && (forall later :: !DropsCancelled(db.runs, db.rows[t]) ==> t in SettleAll(db, later).rows)
    && (forall id, message, later :: Executing(db.runs, t, id) && db.runs[id].startedAt + TICK_EARLY_TOLERANCE < o
          ==> t in Conclude(db, id, Success, message, later).rows)
  }

  /** The obligation is where settling leaves it and no follow-up is recorded on it. */
  ghost predicate AtRest(db: Db, t: int, now: int) {
    t in db.rows && !db.rows[t].status.Blocked? ==>
      db.rows[t].newer.None? && Settle(db.tasks, db.runs, t, db.rows[t], now) == Some(db.rows[t])
  }

  /** The execution begins on a schedule folded up to this instant. */
  ghost predicate BeginsScanned(env: Env, s: Sys, id: int) {
    id in s.db.runs && s.db.runs[id].task in s.db.tasks ==>
      var task := s.db.tasks[s.db.runs[id].task];
      task.baseline.Some? ==> FoldedUpTo(env.cal, task.config.cron, task.baseline.value, s.now)
  }

  /** It begins over an obligation at rest. */
  ghost predicate BeginsAtRest(s: Sys, id: int) {
    id in s.db.runs && s.db.runs[id].task in s.db.tasks ==> AtRest(s.db, s.db.runs[id].task, s.now)
  }

  /** The discipline under which task `t` loses nothing; only its own executions and edits can break it. Its
      executions begin on a scanned schedule and a resting obligation; an edit that keeps the schedule unblocks
      its obligation only if nothing succeeded or runs since the blocked occurrence. */
  ghost predicate Disciplined(env: Env, s: Sys, step: Step, t: int) {
    match step
    case Begin(id) => OfTask(s.db.runs, t, id) ==> BeginsScanned(env, s, id) && BeginsAtRest(s, id)
    case Edit(u, config) =>
      u == t && t in s.db.tasks && !Resets(s.db.tasks[t].config, config) && t in s.db.rows && s.db.rows[t].status.Blocked?
      ==> RanBefore(s.db.runs, t, s.db.rows[t].dueAt)
    case _ => true
  }

  ghost predicate DebtOf(env: Env, s: Sys, t: int) {
    t in s.db.tasks && t in s.origin && env.cal.parses(s.db.tasks[t].config.cron)
    ==> DebtAt(env.cal, s.db, t, s.origin[t], s.now)
  }

  lemma DebtMeansNothingLost(env: Env, s: Sys, t: int)
    requires DebtOf(env, s, t)
    ensures NothingLost(env, s, t)
  {
    forall o | t in s.db.tasks && t in s.origin && Folded(env.cal, s.db.tasks[t], s.origin[t], o)
      ensures Covered(s.db.runs, t, o) || t in s.db.rows
    {
      if !Covered(s.db.runs, t, o) {
        assert Outstanding(env.cal, s.db.tasks[t], s.db.runs, t, s.origin[t], o);
      }
    }
  }

  /** A task whose row and runs a step leaves alone keeps its invariant. */
  lemma UntouchedKeepsDebt(cal: Calendar, db: Db, after: Db, t: int, origin: map<int, int>, now: int)
    requires t in db.tasks && t in after.tasks && t in origin && after.tasks[t] == db.tasks[t]
    requires RowOf(after, t) == RowOf(db, t) && SameRuns(db.runs, after.runs, t)
    requires DebtAt(cal, db, t, origin[t], now)
    ensures OriginOf(db, after, t, origin) == origin[t]
    ensures DebtAt(cal, after, t, OriginOf(db, after, t, origin), now)
  {
    FrameDebt(cal, db.tasks[t], db.runs, after.runs, t, RowOf(db, t), origin[t], now);
    if t in db.rows {
      assert after.rows[t] == db.rows[t];
    }
  }

  // ------------------------------------------------------------------ settling and dispatching everything

  lemma SettleAllKeepsDebt(cal: Calendar, db: Db, t: int, origin: map<int, int>, now: int)
    requires t in db.tasks && t in origin && DebtAt(cal, db, t, origin[t], now)
    ensures var after := SettleAll(db, now);
            DebtAt(cal, after, t, OriginOf(db, after, t, origin), now) && Unpaid(after.runs, t, RowOf(after, t))
  {
    var after := SettleAll(db, now);
    if t in db.rows {
      SettleKeepsDebt(cal, db.tasks, db.runs, t, db.rows[t], origin[t], now);
      assert RowOf(after, t) == Settle(db.tasks, db.runs, t, db.rows[t], now);
    } else {
      assert t !in after.rows;
    }
  }

  /** Pending runs are invisible to the debt until they begin. */
  ghost predicate OnlyAddsPending(runs: map<int, Run>, after: map<int, Run>) {
    && (forall id :: id in runs ==> id in after && after[id] == runs[id])
    && (forall id :: id in after && id !in runs ==> after[id].state.Pending?)
  }

  lemma PendingKeepsDebt(cal: Calendar, task: Task, runs: map<int, Run>, after: map<int, Run>, t: int,
                         row: Option<Row>, origin: int, now: int)
    requires DebtInv(cal, task, runs, t, row, origin, now) && OnlyAddsPending(runs, after)
    ensures DebtInv(cal, task, after, t, row, origin, now)
    ensures Unpaid(runs, t, row) ==> Unpaid(after, t, row)
  {
    if row.Some? && row.value.runId.Some? {
      var named := row.value.runId.value;
      assert named in runs && after[named] == runs[named];
    }
    forall id
      ensures Succeeded(runs, t, id) <==> Succeeded(after, t, id)
      ensures Ran(runs, t, id) <==> Ran(after, t, id)
      ensures Executing(runs, t, id) <==> Executing(after, t, id)
    {
    }
    forall o ensures Covered(runs, t, o) <==> Covered(after, t, o) {}
    forall o ensures Outstanding(cal, task, runs, t, origin, o) <==> Outstanding(cal, task, after, t, origin, o) {}
  }

  lemma DisplayKeepsDebt(cal: Calendar, task: Task, runs: map<int, Run>, t: int, row: Row, after: Row, origin: int, now: int)
    requires DebtInv(cal, task, runs, t, Some(row), origin, now) && SameDebt(row, after)
    ensures DebtInv(cal, task, runs, t, Some(after), origin, now)
  {
  }

  /** An eligible, settled obligation of an idle task may be handed to a fresh run. */
  lemma HandOverKeepsDebt(cal: Calendar, task: Task, runs: map<int, Run>, t: int, row: Row, after: Row, origin: int, now: int)
    requires DebtInv(cal, task, runs, t, Some(row), origin, now) && Unpaid(runs, t, Some(row))
    requires row.status.Due? || row.status.Retry?
    requires after.runId.Some? && after.runId.value in runs
    requires runs[after.runId.value].task == t && runs[after.runId.value].state.Pending?
    requires after == row.(status := Dispatched, runId := after.runId, waitReason := None, retryAt := None, updatedAt := now)
    requires forall id :: !Executing(runs, t, id)
    ensures DebtInv(cal, task, runs, t, Some(after), origin, now)
  {
    forall id | Ran(runs, t, id)
      ensures Succeeded(runs, t, id)
    {
      assert !Executing(runs, t, id);
    }
  }

  lemma PassKeepsDebt(cal: Calendar, db: Db, p: Pass, t: int, origin: int, now: int)
    requires t in db.tasks && DebtAt(cal, db, t, origin, now) && Unpaid(db.runs, t, RowOf(db, t))
    requires PassInv(db, p, now)
    ensures DebtAt(cal, Db(db.tasks, p.runs, p.rows), t, origin, now)
  {
    var task := db.tasks[t];
    assert OnlyAddsPending(db.runs, p.runs);
    PendingKeepsDebt(cal, task, db.runs, p.runs, t, RowOf(db, t), origin, now);
    if t in db.rows {
      assert RowOutcome(db, p, t, now);
      if t !in p.rows {
        assert forall o :: !Folded(cal, task, origin, o);
      } else if SameDebt(db.rows[t], p.rows[t]) {
        DisplayKeepsDebt(cal, task, p.runs, t, db.rows[t], p.rows[t], origin, now);
      } else {
        forall id
          ensures !Executing(p.runs, t, id)
        {
        }
        HandOverKeepsDebt(cal, task, p.runs, t, db.rows[t], p.rows[t], origin, now);
      }
    } else {
      assert t !in p.rows;
    }
  }

  lemma DispatchKeepsDebt(env: Env, s: Sys, sources: set<int>, order: seq<int>, t: int)
    requires Sound(s) && DebtOf(env, s, t) && ByAge(SettleAll(s.db, s.now).rows, order)
    ensures DebtOf(env, Pump(env, s, sources, order), t)
  {
    var settled := SettleAll(s.db, s.now);
    var p := DispatchPass(settled, sources, env.limit, order, s.now);
    PassChangesOnly(settled, sources, env.limit, order, s.now);
    if t in s.db.tasks && env.cal.parses(s.db.tasks[t].config.cron) {
      SettleAllKeepsDebt(env.cal, s.db, t, s.origin, s.now);
      PassKeepsDebt(env.cal, settled, p, t, OriginOf(s.db, settled, t, s.origin), s.now);
      PassKeepsWaiver(s.db, settled, p, t, s.origin, s.now);
    }
  }

  /** The pass neither drops nor revives what settling waived. */
  lemma PassKeepsWaiver(db: Db, settled: Db, p: Pass, t: int, origin: map<int, int>, now: int)
    requires t in db.tasks && settled == SettleAll(db, now) && PassInv(settled, p, now)
    requires t in db.rows ==> NamesOwnRun(db.runs, t, db.rows[t])
    ensures OriginOf(db, Db(db.tasks, p.runs, p.rows), t, origin) == OriginOf(db, settled, t, origin)
  {
    var after := Db(db.tasks, p.runs, p.rows);
    if t in db.rows && db.rows[t].status.Dispatched? && db.rows[t].runId.Some? {
      var id := db.rows[t].runId.value;
      assert id in settled.runs && p.runs[id] == db.runs[id];
      if db.runs[id].state.Cancelled? {
        assert t !in settled.rows;
        assert t !in after.rows;
      }
    }
  }

  // ------------------------------------------------------------------ runs

  /** A run that ends without success pays nothing and overtakes nothing. */
  lemma EndsKeepDebt(cal: Calendar, task: Task, runs: map<int, Run>, after: map<int, Run>, t: int,
                     row: Option<Row>, origin: int, now: int)
    requires DebtInv(cal, task, runs, t, row, origin, now) && OnlyEnds(runs, after, now)
    ensures DebtInv(cal, task, after, t, row, origin, now)
  {
    if row.Some? && row.value.runId.Some? {
      var named := row.value.runId.value;
      assert after[named] == runs[named] || EndsUnpaid(runs[named], after[named], now);
    }
    forall id
      ensures Succeeded(runs, t, id) <==> Succeeded(after, t, id)
      ensures Ran(after, t, id) ==> Ran(runs, t, id) && after[id] == runs[id]
      ensures Executing(after, t, id) ==> Executing(runs, t, id) && after[id] == runs[id]
    {
      assert id in runs ==> after[id] == runs[id] || EndsUnpaid(runs[id], after[id], now);
    }
    forall id | id in runs
      ensures after[id].task == runs[id].task && after[id].startedAt == runs[id].startedAt
    {
    }
    forall o ensures Covered(runs, t, o) <==> Covered(after, t, o) {}
    forall o ensures Outstanding(cal, task, runs, t, origin, o) <==> Outstanding(cal, task, after, t, origin, o) {}
  }

  lemma EndingKeepsDebt(env: Env, s: Sys, runs: map<int, Run>, t: int)
    requires Sound(s) && DebtOf(env, s, t) && OnlyEnds(s.db.runs, runs, s.now)
    ensures DebtOf(env, Becomes(s, s.db.(runs := runs)), t)
  {
    if t in s.db.tasks && env.cal.parses(s.db.tasks[t].config.cron) {
      EndsKeepDebt(env.cal, s.db.tasks[t], s.db.runs, runs, t, RowOf(s.db, t), s.origin[t], s.now);
    }
  }

  /** An execution that begins over a scanned schedule and a resting obligation overtakes neither. */
  lemma BeganKeepsDebt(cal: Calendar, db: Db, id: int, origin: int, now: int)
    requires id in db.runs && db.runs[id].state.Pending? && db.runs[id].task in db.tasks
    requires SoleActive(db.tasks, db.runs) && RunsInPast(db.runs, now)
    requires var t := db.runs[id].task;
      && DebtAt(cal, db, t, origin, now) && AtRest(db, t, now)
      && (db.tasks[t].baseline.Some? ==> FoldedUpTo(cal, db.tasks[t].config.cron, db.tasks[t].baseline.value, now))
    ensures var t := db.runs[id].task;
      DebtAt(cal, db.(runs := db.runs[id := Began(db.runs[id], now)]), t, origin, now)
  {
    var t := db.runs[id].task;
    var task := db.tasks[t];
    var runs := db.runs[id := Began(db.runs[id], now)];
    forall k
      ensures Succeeded(db.runs, t, k) <==> Succeeded(runs, t, k)
      ensures k != id ==> (Ran(db.runs, t, k) <==> Ran(runs, t, k))
      ensures k != id ==> (Executing(db.runs, t, k) <==> Executing(runs, t, k))
    {
    }
    forall o ensures Covered(db.runs, t, o) <==> Covered(runs, t, o) {}
    forall o ensures Outstanding(cal, task, db.runs, t, origin, o) <==> Outstanding(cal, task, runs, t, origin, o) {}
    PaidIsLatest(db.runs, t, if t in db.rows then db.rows[t].dueAt else 0);
    if t in db.rows && db.rows[t].status.Dispatched? {
      assert ActiveAt(db.tasks, db.runs, id) && ActiveAt(db.tasks, db.runs, db.rows[t].runId.value);
    }
    assert NotOvertaken(cal, task, runs, t, RowOf(db, t));
    assert Retained(cal, task, runs, t, RowOf(db, t), origin);
  }

  /** The success of an execution pays exactly what began at most one second after it, and its own row. */
  lemma SuccessKeepsDebt(cal: Calendar, task: Task, runs: map<int, Run>, t: int, row: Option<Row>, id: int,
                         message: string, origin: int, now: int)
    requires DebtInv(cal, task, runs, t, row, origin, now) && Executing(runs, t, id)
    ensures var own := row.Some? && row.value.runId == Some(id);
      DebtInv(cal, task, runs[id := Ended(runs[id], Success, message, now)], t,
              if own then Finish(row.value, row.value.newer, now) else row, origin, now)
  {
    var after := runs[id := Ended(runs[id], Success, message, now)];
    forall k
      ensures Ran(runs, t, k) <==> Ran(after, t, k)
      ensures Executing(after, t, k) <==> Executing(runs, t, k) && k != id
      ensures Succeeded(after, t, k) <==> Succeeded(runs, t, k) || k == id
      ensures Succeeded(runs, t, k) ==> Ran(runs, t, k)
    {
    }
    forall o | Covered(runs, t, o)
      ensures Covered(after, t, o)
    {
      var k :| Succeeded(runs, t, k) && o - TICK_EARLY_TOLERANCE <= runs[k].startedAt;
      assert Succeeded(after, t, k);
    }
    forall o | Outstanding(cal, task, after, t, origin, o)
      ensures Outstanding(cal, task, runs, t, origin, o) && runs[id].startedAt + TICK_EARLY_TOLERANCE < o
    {
      assert Succeeded(after, t, id);
      assert Covered(runs, t, o) ==> Covered(after, t, o);
    }
    var own := row.Some? && row.value.runId == Some(id);
    var left := if own then Finish(row.value, row.value.newer, now) else row;
    assert Ran(runs, t, id);
    assert NotOvertaken(cal, task, after, t, left);
    assert Retained(cal, task, after, t, left, origin);
  }

  lemma ConcludedTaskKeepsDebt(cal: Calendar, db: Db, id: int, state: RunState, message: string,
                               origin: map<int, int>, now: int)
    requires id in db.runs && db.runs[id].state.Running? && !state.Active() && db.runs[id].task in db.tasks
    requires var t := db.runs[id].task; t in origin && DebtAt(cal, db, t, origin[t], now)
    ensures var t := db.runs[id].task; var after := Conclude(db, id, state, message, now);
      DebtAt(cal, after, t, OriginOf(db, after, t, origin), now)
  {
    var t := db.runs[id].task;
    var task := db.tasks[t];
    var after := Conclude(db, id, state, message, now);
    assert Executing(db.runs, t, id);
    if state.Success? {
      SuccessKeepsDebt(cal, task, db.runs, t, RowOf(db, t), id, message, origin[t], now);
    } else {
      EndsKeepDebt(cal, task, db.runs, after.runs, t, RowOf(db, t), origin[t], now);
      if t in db.rows && db.rows[t].runId == Some(id) {
        SettleKeepsDebt(cal, db.tasks, after.runs, t, db.rows[t], origin[t], now);
      }
    }
  }

  lemma OutcomeWriteKeepsDebt(env: Env, s: Sys, id: int, state: RunState, message: string, t: int)
    requires Sound(s) && DebtOf(env, s, t) && Enabled(env, s, Finalize(id, state, message))
    ensures DebtOf(env, WriteOutcome(s, id, state, message), t)
  {
    var after := Conclude(s.db, id, state, message, s.now);
    if t in s.db.tasks && env.cal.parses(s.db.tasks[t].config.cron) {
      if t == s.db.runs[id].task {
        ConcludedTaskKeepsDebt(env.cal, s.db, id, state, message, s.origin, s.now);
      } else {
        assert RowOf(after, t) == RowOf(s.db, t);
        UntouchedKeepsDebt(env.cal, s.db, after, t, s.origin, s.now);
      }
    }
  }

  lemma BeginKeepsDebt(env: Env, s: Sys, id: int, t: int)
    requires Sound(s) && DebtOf(env, s, t) && Enabled(env, s, Begin(id)) && Disciplined(env, s, Begin(id), t)
    ensures DebtOf(env, BeginRun(s, id), t)
  {
    if s.db.runs[id].state.Pending? && t in s.db.tasks && env.cal.parses(s.db.tasks[t].config.cron) {
      var after := s.db.(runs := s.db.runs[id := Began(s.db.runs[id], s.now)]);
      if t == s.db.runs[id].task {
        BeganKeepsDebt(env.cal, s.db, id, s.origin[t], s.now);
      } else {
        UntouchedKeepsDebt(env.cal, s.db, after, t, s.origin, s.now);
      }
    }
  }

  lemma AdmissionKeepsDebt(env: Env, s: Sys, u: int, t: int)
    requires Sound(s) && DebtOf(env, s, t) && u in s.db.tasks
    ensures DebtOf(env, AdmitManually(s, u), t)
  {
    if t in s.db.tasks && env.cal.parses(s.db.tasks[t].config.cron) {
      var runs := AddPending(s.db, u, s.now).runs;
      PendingKeepsDebt(env.cal, s.db.tasks[t], s.db.runs, runs, t, RowOf(s.db, t), s.origin[t], s.now);
    }
  }

  // ------------------------------------------------------------------ edits

  lemma EditedTaskKeepsDebt(cal: Calendar, db: Db, t: int, config: Config, origin: int, now: int)
    requires t in db.tasks && cal.parses(config.cron) && RunsInPast(db.runs, now)
    requires cal.parses(db.tasks[t].config.cron) ==> DebtAt(cal, db, t, origin, now)
    requires !Resets(db.tasks[t].config, config) && t in db.rows && db.rows[t].status.Blocked?
      ==> RanBefore(db.runs, t, db.rows[t].dueAt)
    ensures DebtAt(cal, UpdateTask(db, t, config, now), t, if Resets(db.tasks[t].config, config) then now else origin, now)
  {
    var after := UpdateTask(db, t, config, now);
    if Resets(db.tasks[t].config, config) {
      assert RowOf(after, t) == None;
      assert forall o :: !Folded(cal, after.tasks[t], now, o);
    } else {
      forall o
        ensures Outstanding(cal, after.tasks[t], db.runs, t, origin, o)
           <==> Outstanding(cal, db.tasks[t], db.runs, t, origin, o)
      {
      }
      assert forall id :: Executing(db.runs, t, id) ==> Ran(db.runs, t, id);
      assert forall id :: Succeeded(db.runs, t, id) ==> Ran(db.runs, t, id);
    }
  }

  lemma EditKeepsDebt(env: Env, s: Sys, u: int, config: Config, t: int)
    requires Sound(s) && DebtOf(env, s, t) && Enabled(env, s, Edit(u, config)) && Disciplined(env, s, Edit(u, config), t)
    ensures DebtOf(env, EditTask(env, s, u, config), t)
  {
    var after := UpdateTask(s.db, u, config, s.now);
    if t in after.tasks && env.cal.parses(after.tasks[t].config.cron) {
      if t == u {
        EditedTaskKeepsDebt(env.cal, s.db, t, config, s.origin[t], s.now);
      } else {
        assert RowOf(after, t) == RowOf(s.db, t);
        UntouchedKeepsDebt(env.cal, s.db, after, t, s.origin, s.now);
      }
    }
  }

  lemma CreationKeepsDebt(env: Env, s: Sys, u: int, config: Config, t: int)
    requires Sound(s) && DebtOf(env, s, t) && u !in s.db.tasks
    ensures DebtOf(env, CreateTask(env, s, u, config), t)
  {
    var after := s.db.(tasks := s.db.tasks[u := Task(config, s.now, None, None)]);
    if t != u && t in s.db.tasks && env.cal.parses(s.db.tasks[t].config.cron) {
      UntouchedKeepsDebt(env.cal, s.db, after, t, s.origin, s.now);
    }
  }

  lemma DeletionKeepsDebt(env: Env, s: Sys, u: int, t: int)
    requires Sound(s) && DebtOf(env, s, t) && u in s.db.tasks
    ensures DebtOf(env, RemoveTask(s, u), t)
  {
    var after := DeleteTask(s.db, u);
    DeleteIsWithout(s.db, u);
    if t in after.tasks && env.cal.parses(after.tasks[t].config.cron) {
      UntouchedKeepsDebt(env.cal, s.db, after, t, s.origin, s.now);
    }
  }

  // ------------------------------------------------------------------ whole runs

  lemma TickStepKeepsDebt(env: Env, s: Sys, u: int, t: int)
    requires Regular(env.cal) && Sound(s) && DebtOf(env, s, t) && u in s.db.tasks
    ensures DebtOf(env, Becomes(s, RecordTick(env.cal, s.db, u, s.now)), t)
  {
    TickTouchesOnly(env.cal, s.db, u, s.now);
    if u == t && env.cal.parses(s.db.tasks[t].config.cron) {
      TickKeepsDebt(env.cal, s.db, t, s.origin, s.now);
    }
  }

  lemma ScanStepKeepsDebt(env: Env, s: Sys, u: int, t: int)
    requires Regular(env.cal) && Sound(s) && DebtOf(env, s, t) && u in s.db.tasks
    ensures DebtOf(env, Becomes(s, Reconcile(env.cal, s.db, u, s.now)), t)
  {
    ReconcileTouchesOnly(env.cal, s.db, u, s.now);
    if u == t && env.cal.parses(s.db.tasks[t].config.cron) {
      ReconcileKeepsDebt(env.cal, s.db, t, s.origin, s.now);
    }
  }

  lemma SettlingKeepsDebt(env: Env, s: Sys, t: int)
    requires Sound(s) && DebtOf(env, s, t)
    ensures DebtOf(env, Becomes(s, SettleAll(s.db, s.now)), t)
  {
    if t in s.db.tasks && env.cal.parses(s.db.tasks[t].config.cron) {
      SettleAllKeepsDebt(env.cal, s.db, t, s.origin, s.now);
    }
  }

  /** Whatever the service does, to this task or to any other. */
  lemma {:induction false} DebtNext(env: Env, s: Sys, step: Step, t: int)
    requires Regular(env.cal) && Sound(s) && DebtOf(env, s, t)
    requires Enabled(env, s, step) && Disciplined(env, s, step, t)
    ensures DebtOf(env, Next(env, s, step), t)
  {
    match step
    case Advance(to) =>
    case Create(u, config) => CreationKeepsDebt(env, s, u, config, t);
    case Callback(u, token) =>
      if u in s.tokens && s.tokens[u] == token {
        TickStepKeepsDebt(env, s, u, t);
      }
    case ReconcileOne(u) => ScanStepKeepsDebt(env, s, u, t);
    case SettleEvery => SettlingKeepsDebt(env, s, t);
    case DispatchDue(sources, order) => DispatchKeepsDebt(env, s, sources, order, t);
    case RunNow(u) => AdmissionKeepsDebt(env, s, u, t);
    case Register(_) =>
    case Begin(id) => BeginKeepsDebt(env, s, id, t);
    case Finalize(id, state, message) => OutcomeWriteKeepsDebt(env, s, id, state, message, t);
    case Leave(id, state, message) =>
      TerminalizeOnlyEnds(s.db, id, state, message, s.now);
      EndingKeepsDebt(env, s, Terminalize(s.db, id, state, message, s.now).runs, t);
    case Vanish(_) =>
    case Watchdog =>
      SweepOnlyEnds(s.db, OwnedIds(s.live), s.now);
      EndingKeepsDebt(env, s, Sweep(s.db, OwnedIds(s.live), s.now).runs, t);
    case Restart =>
      ReconcileStaleOnlyEnds(s.db, s.now);
      EndingKeepsDebt(env, s, ReconcileStale(s.db, s.now).runs, t);
    case Edit(u, config) => EditKeepsDebt(env, s, u, config, t);
    case Delete(u) => DeletionKeepsDebt(env, s, u, t);
  }

  lemma {:induction false} DebtHolds(env: Env, states: seq<Sys>, steps: seq<Step>, k: nat, t: int)
    requires Regular(env.cal) && IsTrace(env, states, steps) && k < |states|
    requires forall i :: 0 <= i < k ==> Disciplined(env, states[i], steps[i], t)
    ensures DebtOf(env, states[k], t)
  {
    if k > 0 {
      DebtHolds(env, states, steps, k - 1, t);
      TraceIsSound(env, states, steps, k - 1);
      DebtNext(env, states[k - 1], steps[k - 1], t);
    }
  }

  /** In every state of every run that is disciplined for task `t`, whatever befalls other tasks, each occurrence of
      its current generation that was folded is covered by a success or the obligation of `t` is in the table. */
  lemma NoOccurrenceIsLost(env: Env, states: seq<Sys>, steps: seq<Step>, k: nat, t: int)
    requires Regular(env.cal) && IsTrace(env, states, steps) && k < |states|
    requires forall i :: 0 <= i < k ==> Disciplined(env, states[i], steps[i], t)
    ensures NothingLost(env, states[k], t)
  {
    DebtHolds(env, states, steps, k, t);
    DebtMeansNothingLost(env, states[k], t);
  }

  /** And its next payment cannot delete that obligation without covering the occurrence. */
  lemma NextPaymentKeepsTheDebt(env: Env, states: seq<Sys>, steps: seq<Step>, k: nat, t: int, o: int)
    requires Regular(env.cal) && IsTrace(env, states, steps) && k < |states|
    requires forall i :: 0 <= i < k ==> Disciplined(env, states[i], steps[i], t)
    requires t in states[k].db.tasks && t in states[k].origin
    requires Outstanding(env.cal, states[k].db.tasks[t], states[k].db.runs, t, states[k].origin[t], o)
    ensures PaymentsKeep(states[k].db, t, o)
  {
    DebtHolds(env, states, steps, k, t);
    DebtKeepsPayments(env.cal, states[k].db, t, o, states[k].origin[t], states[k].now);
  }

  lemma DebtKeepsPayments(cal: Calendar, db: Db, t: int, o: int, origin: int, now: int)
    requires t in db.tasks && DebtAt(cal, db, t, origin, now) && Outstanding(cal, db.tasks[t], db.runs, t, origin, o)
    ensures PaymentsKeep(db, t, o)
  {
  }
}

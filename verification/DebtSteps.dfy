/** Settling, folding, ticking and editing keep the invariant of the task they touch. */
module DebtSteps {
  import opened Prelude
  import opened Records
  import opened Schedule
  import opened DueWork
  import opened Dispatching
  import opened Lifecycle
  import opened Protocol
  import opened DebtInvariant

  function RowOf(db: Db, t: int): Option<Row> {
    if t in db.rows then Some(db.rows[t]) else None
  }

  ghost predicate DebtAt(cal: Calendar, db: Db, t: int, origin: int, now: int)
    requires t in db.tasks
  {
    DebtInv(cal, db.tasks[t], db.runs, t, RowOf(db, t), origin, now)
  }

  ghost predicate InPast(run: Run, now: int) {
    && run.startedAt <= now
    && (run.finishedAt.Some? ==> run.startedAt <= run.finishedAt.value <= now && !run.state.Active())
  }

  ghost predicate RunsInPast(runs: map<int, Run>, now: int) {
    forall id :: id in runs ==> InPast(runs[id], now)
  }

  lemma DerivedFollowsEveryRun(runs: map<int, Run>, t: int, createdAt: int, now: int)
    requires RunsInPast(runs, now) && createdAt <= now
    ensures DeriveBaseline(runs, t, createdAt) <= now
    ensures forall id :: OfTask(runs, t, id) ==> runs[id].startedAt <= DeriveBaseline(runs, t, createdAt)
  {
    var p := (r: Run) => true;
    var starts := StartsOf(runs, t, p);
    forall id | OfTask(runs, t, id)
      ensures runs[id].startedAt in starts
    {
      assert p(runs[id]);
    }
    var newest := Latest(starts);
    if newest.Some? {
      var ids := set id | id in runs && runs[id].task == t && runs[id].startedAt == newest.value;
      var any :| any in runs && runs[any].task == t && runs[any].startedAt == newest.value;
      assert any in ids;
      var first := Earliest(ids).value;
      assert InPast(runs[first], now);
    }
  }

  /** Where counting starts once the watermark of `t` exists. */
  function StartOfCount(db: Db, t: int, origin: int): int
    requires t in db.tasks
  {
    if db.tasks[t].baseline.Some? then origin else BaselineOf(db, t)
  }

  lemma BaselineIsAhead(cal: Calendar, db: Db, t: int, origin: int, now: int)
    requires t in db.tasks && DebtAt(cal, db, t, origin, now)
    requires RunsInPast(db.runs, now) && db.tasks[t].createdAt <= now
    ensures BaselineOf(db, t) <= now + TICK_EARLY_TOLERANCE
    ensures var n := NextOccurrence(cal, db.tasks[t].config.cron, BaselineOf(db, t));
            n.Some? ==> RanBefore(db.runs, t, n.value)
  {
    DerivedFollowsEveryRun(db.runs, t, db.tasks[t].createdAt, now);
    var n := NextOccurrence(cal, db.tasks[t].config.cron, BaselineOf(db, t));
    if db.tasks[t].baseline.None? && n.Some? {
      forall id | Ran(db.runs, t, id)
        ensures db.runs[id].startedAt < n.value
      {
        assert OfTask(db.runs, t, id);
      }
    }
  }

  lemma StartingTheCount(cal: Calendar, db: Db, t: int, origin: int, now: int)
    requires t in db.tasks && db.tasks[t].config.enabled && DebtAt(cal, db, t, origin, now)
    requires RunsInPast(db.runs, now) && db.tasks[t].createdAt <= now
    ensures DebtAt(cal, SetBaseline(db, t, BaselineOf(db, t)), t, StartOfCount(db, t, origin), now)
  {
    BaselineIsAhead(cal, db, t, origin, now);
    var after := SetBaseline(db, t, BaselineOf(db, t));
    if db.tasks[t].baseline.Some? {
      assert after.tasks[t] == db.tasks[t];
    } else {
      forall o
        ensures !Folded(cal, after.tasks[t], StartOfCount(db, t, origin), o)
      {
      }
    }
  }

  /** A row that retains every occurrence up to `latest`, whatever past or running execution pays it. */
  ghost predicate Carries(runs: map<int, Run>, t: int, row: Row, latest: int) {
    && Shape(runs, t, row) && Stands(runs, t, Some(row))
    && (forall id :: Executing(runs, t, id) ==> StandsBehind(runs, id, Some(row)))
    && (!row.status.Blocked? && row.newer.Some? ==> RanBefore(runs, t, row.newer.value))
    && (row.status.Dispatched? ==> forall id :: Ran(runs, t, id) && Some(id) != row.runId
                                     ==> runs[id].startedAt < row.dueAt)
    && row.dueAt <= latest && (row.newer.Some? ==> row.dueAt < row.newer.value <= latest)
  }

  lemma ActiveIncludesExecuting(runs: map<int, Run>, t: int)
    ensures forall id :: Executing(runs, t, id) ==> Ran(runs, t, id) && ActiveStart(runs, t).Some?
                                                    && ActiveStart(runs, t).value <= runs[id].startedAt
    ensures forall id :: Succeeded(runs, t, id) ==> Ran(runs, t, id)
  {
    ActiveStartIsEarliest(runs, t);
    forall id | Executing(runs, t, id)
      ensures ActiveStart(runs, t).Some? && ActiveStart(runs, t).value <= runs[id].startedAt
    {
      assert runs[id].state.Active();
    }
  }

  lemma NotedRowCarries(cal: Calendar, db: Db, t: int, origin: int, now: int, first: int, latest: int)
    requires t in db.tasks && t in db.rows
    requires DebtAt(cal, db, t, origin, now) && Unpaid(db.runs, t, RowOf(db, t))
    requires db.tasks[t].baseline.Some? && db.tasks[t].baseline.value < first <= latest
    requires RanBefore(db.runs, t, first)
    ensures var noted := Note(db.runs, t, db.rows[t], first, Some(latest));
            Carries(db.runs, t, if noted.Some? then noted.value else db.rows[t], latest)
  {
    ActiveIncludesExecuting(db.runs, t);
    assert forall id :: Executing(db.runs, t, id) ==> db.runs[id].startedAt < first;
  }

  /** The watermark may advance over a row that carries what it passes. */
  lemma AdvanceWatermark(cal: Calendar, task: Task, runs: map<int, Run>, t: int, was: Option<Row>, row: Row,
                         origin: int, now: int, latest: int)
    requires DebtInv(cal, task, runs, t, was, origin, now) && task.config.enabled
    requires task.baseline.Some? && task.baseline.value <= latest <= now + TICK_EARLY_TOLERANCE
    requires task.baseline.value <= row.dueAt || (was.Some? && was.value.dueAt == row.dueAt)
    requires Carries(runs, t, row, latest)
    requires var n := NextOccurrence(cal, task.config.cron, latest); n.Some? ==> RanBefore(runs, t, n.value)
    ensures DebtInv(cal, task.(baseline := Some(latest)), runs, t, Some(row), origin, now)
  {
  }

  lemma NextIsAheadOfNow(cal: Calendar, cron: string, w: int, runs: map<int, Run>, t: int, now: int)
    requires RunsInPast(runs, now) && FoldedUpTo(cal, cron, w, now)
    ensures var n := NextOccurrence(cal, cron, w); n.Some? ==> RanBefore(runs, t, n.value)
  {
  }

  lemma OwedFoldKeepsDebt(cal: Calendar, db: Db, t: int, origin: int, now: int)
    requires t in db.tasks && db.tasks[t].config.enabled && db.tasks[t].baseline.Some?
    requires DebtAt(cal, db, t, origin, now) && Unpaid(db.runs, t, RowOf(db, t))
    requires RunsInPast(db.runs, now) && Owes(cal, db, t, now)
    ensures var after := FoldFrom(cal, db, t, now);
            DebtAt(cal, after, t, origin, now) && Unpaid(after.runs, t, RowOf(after, t))
  {
    var task := db.tasks[t];
    var first := NextOccurrence(cal, task.config.cron, task.baseline.value).value;
    var latest := Schedule.Walk(cal, task.config.cron, first, now, MAX_OCCURRENCE_SCAN);
    var row := FoldRow(db, t, first, latest, now);
    if t in db.rows {
      NotedRowCarries(cal, db, t, origin, now, first, latest);
    }
    assert Carries(db.runs, t, row, latest);
    NextIsAheadOfNow(cal, task.config.cron, latest, db.runs, t, now);
    AdvanceWatermark(cal, task, db.runs, t, RowOf(db, t), row, origin, now, latest);
    ActiveIncludesExecuting(db.runs, t);
  }

  lemma FoldKeepsDebt(cal: Calendar, db: Db, t: int, origin: int, now: int)
    requires t in db.tasks && db.tasks[t].config.enabled
    requires DebtAt(cal, db, t, origin, now) && Unpaid(db.runs, t, RowOf(db, t))
    requires RunsInPast(db.runs, now) && db.tasks[t].createdAt <= now
    ensures var after := FoldFrom(cal, db, t, now);
            && DebtAt(cal, after, t, StartOfCount(db, t, origin), now)
            && Unpaid(after.runs, t, RowOf(after, t))
            && after.tasks[t].baseline.Some?
            && FoldedUpTo(cal, after.tasks[t].config.cron, after.tasks[t].baseline.value, now)
  {
    StartingTheCount(cal, db, t, origin, now);
    if Owes(cal, db, t, now) {
      var based := SetBaseline(db, t, BaselineOf(db, t));
      OwedFoldKeepsDebt(cal, based, t, StartOfCount(db, t, origin), now);
      assert FoldFrom(cal, based, t, now) == FoldFrom(cal, db, t, now);
    }
  }

  lemma SettleAtKeepsDebt(cal: Calendar, db: Db, t: int, origin: int, now: int)
    requires t in db.tasks && DebtAt(cal, db, t, origin, now)
    ensures var after := SettleAt(db, t, now);
            var start := if t in db.rows then OriginAfterSettle(db.tasks[t], db.runs, db.rows[t], origin) else origin;
            DebtAt(cal, after, t, start, now) && Unpaid(after.runs, t, RowOf(after, t))
  {
    if t in db.rows {
      SettleKeepsDebt(cal, db.tasks, db.runs, t, db.rows[t], origin, now);
      assert RowOf(SettleAt(db, t, now), t) == Settle(db.tasks, db.runs, t, db.rows[t], now);
    }
  }

  /** Where counting starts once a scan has settled the row of `t`. */
  function SettledOrigin(db: Db, t: int, origin: int): int
    requires t in db.tasks
  {
    if t in db.rows then OriginAfterSettle(db.tasks[t], db.runs, db.rows[t], origin) else origin
  }

  /** A scan waives a cancelled obligation exactly when it drops it, and starts counting when it first sets a watermark. */
  lemma OriginAfterScan(cal: Calendar, db: Db, t: int, origin: map<int, int>, now: int)
    requires t in db.tasks && t in origin && (t in db.rows ==> Shape(db.runs, t, db.rows[t]))
    ensures var settled := SettleAt(db, t, now);
      OriginOf(db, FoldFrom(cal, settled, t, now), t, origin) == StartOfCount(settled, t, SettledOrigin(db, t, origin[t]))
  {
  }

  lemma ScanKeepsDebt(cal: Calendar, db: Db, t: int, origin: int, now: int)
    requires t in db.tasks && db.tasks[t].config.enabled && DebtAt(cal, db, t, origin, now)
    requires RunsInPast(db.runs, now) && db.tasks[t].createdAt <= now
    ensures var settled := SettleAt(db, t, now);
            var after := FoldFrom(cal, settled, t, now);
            && DebtAt(cal, after, t, StartOfCount(settled, t, SettledOrigin(db, t, origin)), now)
            && Unpaid(after.runs, t, RowOf(after, t))
            && after.tasks[t].baseline.Some?
            && FoldedUpTo(cal, after.tasks[t].config.cron, after.tasks[t].baseline.value, now)
  {
    SettleAtKeepsDebt(cal, db, t, origin, now);
    FoldKeepsDebt(cal, SettleAt(db, t, now), t, SettledOrigin(db, t, origin), now);
  }

  lemma ReconcileKeepsDebt(cal: Calendar, db: Db, t: int, origin: map<int, int>, now: int)
    requires Regular(cal) && t in db.tasks && t in origin && cal.parses(db.tasks[t].config.cron)
    requires DebtAt(cal, db, t, origin[t], now)
    requires RunsInPast(db.runs, now) && db.tasks[t].createdAt <= now
    ensures var after := Reconcile(cal, db, t, now);
            && DebtAt(cal, after, t, OriginOf(db, after, t, origin), now)
            && (db.tasks[t].config.enabled ==>
                  && Unpaid(after.runs, t, RowOf(after, t))
                  && after.tasks[t].baseline.Some?
                  && FoldedUpTo(cal, after.tasks[t].config.cron, after.tasks[t].baseline.value, now))
  {
    if db.tasks[t].config.enabled {
      ScanKeepsDebt(cal, db, t, origin[t], now);
      OriginAfterScan(cal, db, t, origin, now);
    }
  }

  /** The early callback stands for `upcoming`, at most one second ahead. */
  lemma EarlyTickKeepsDebt(cal: Calendar, db: Db, t: int, origin: int, now: int, upcoming: int)
    requires t in db.tasks && db.tasks[t].config.enabled && db.tasks[t].baseline.Some?
    requires DebtAt(cal, db, t, origin, now) && Unpaid(db.runs, t, RowOf(db, t))
    requires RunsInPast(db.runs, now) && now < upcoming <= now + TICK_EARLY_TOLERANCE
    requires NextOccurrence(cal, db.tasks[t].config.cron, db.tasks[t].baseline.value) == Some(upcoming)
    requires db.tasks[t].epoch.Some? ==> db.tasks[t].epoch.value <= now
    ensures DebtAt(cal, SetBaseline(db, t, upcoming).(rows := db.rows[t := TickRow(db, t, upcoming, now)]), t, origin, now)
  {
    var task := db.tasks[t];
    NextIsAheadOfNow(cal, task.config.cron, upcoming, db.runs, t, now);
    if t in db.rows {
      NotedRowCarries(cal, db, t, origin, now, upcoming, upcoming);
      AdvanceWatermark(cal, task, db.runs, t, RowOf(db, t), TickRow(db, t, upcoming, now), origin, now, upcoming);
    } else {
      ActiveIncludesExecuting(db.runs, t);
      var advanced := task.(baseline := Some(upcoming));
      assert forall o :: !Outstanding(cal, task, db.runs, t, origin, o);
      assert Retained(cal, advanced, db.runs, t, Some(NewRow(now, now)), origin);
    }
  }

  lemma LateTickKeepsDebt(cal: Calendar, db: Db, t: int, origin: int, now: int)
    requires Regular(cal) && t in db.tasks && db.tasks[t].config.enabled && t !in db.rows
    requires DebtAt(cal, db, t, origin, now) && RunsInPast(db.runs, now) && db.tasks[t].baseline.Some?
    requires FoldedUpTo(cal, db.tasks[t].config.cron, db.tasks[t].baseline.value, now)
    requires db.tasks[t].epoch.Some? ==> db.tasks[t].epoch.value <= now
    ensures DebtAt(cal, SetBaseline(db, t, Max(db.tasks[t].baseline.value, now)).(rows := db.rows[t := NewRow(now, now)]),
                   t, origin, now)
  {
    NewRowAtTheWatermark(cal, db.tasks[t], db.runs, t, origin, now);
  }

  lemma NewRowAtTheWatermark(cal: Calendar, task: Task, runs: map<int, Run>, t: int, origin: int, now: int)
    requires Regular(cal) && task.config.enabled && DebtInv(cal, task, runs, t, None, origin, now)
    requires RunsInPast(runs, now) && task.baseline.Some? && FoldedUpTo(cal, task.config.cron, task.baseline.value, now)
    requires task.epoch.Some? ==> task.epoch.value <= now
    ensures DebtInv(cal, task.(baseline := Some(Max(task.baseline.value, now))), runs, t, Some(NewRow(now, now)), origin, now)
  {
    var w := Max(task.baseline.value, now);
    NextIsAheadOfNow(cal, task.config.cron, w, runs, t, now);
    assert forall o :: !Outstanding(cal, task, runs, t, origin, o);
    NothingOutstandingPastTheFold(cal, task, runs, t, origin, now);
  }

  /** Nothing lies between a folded watermark and now, so moving it to now makes nothing outstanding. */
  lemma NothingOutstandingPastTheFold(cal: Calendar, task: Task, runs: map<int, Run>, t: int, origin: int, now: int)
    requires task.baseline.Some? && FoldedUpTo(cal, task.config.cron, task.baseline.value, now) && Regular(cal)
    requires forall o :: !Outstanding(cal, task, runs, t, origin, o)
    ensures forall o :: !Outstanding(cal, task.(baseline := Some(Max(task.baseline.value, now))), runs, t, origin, o)
  {
    forall o
      ensures !Outstanding(cal, task.(baseline := Some(Max(task.baseline.value, now))), runs, t, origin, o)
    {
      assert !Outstanding(cal, task, runs, t, origin, o);
    }
  }

  lemma CancelledIsDropped(cal: Calendar, db: Db, t: int, now: int)
    requires t in db.tasks && db.tasks[t].config.enabled && cal.parses(db.tasks[t].config.cron)
    requires t in db.rows && DropsCancelled(db.runs, db.rows[t])
    ensures var folded := Reconcile(cal, db, t, now);
            t in folded.rows ==> folded.rows[t].status.Due? && folded.rows[t].newer.None?
  {
  }

  lemma AddTickKeepsDebt(cal: Calendar, db: Db, t: int, origin: int, now: int)
    requires Regular(cal) && t in db.tasks && db.tasks[t].config.enabled && db.tasks[t].baseline.Some?
    requires DebtAt(cal, db, t, origin, now) && Unpaid(db.runs, t, RowOf(db, t))
    requires RunsInPast(db.runs, now)
    requires FoldedUpTo(cal, db.tasks[t].config.cron, db.tasks[t].baseline.value, now)
    ensures var after := AddTick(cal, db, t, now);
            && DebtAt(cal, after, t, origin, now) && after.tasks[t].baseline.Some?
            && (t in after.rows && after.rows[t].status.Dispatched? ==> t in db.rows && db.rows[t].status.Dispatched?)
  {
    var early := EarlyOccurrence(cal, db.tasks[t], now);
    if early.Some? {
      EarlyTickKeepsDebt(cal, db, t, origin, now, early.value);
    } else if TickIsUnaccounted(db, t) {
      LateTickKeepsDebt(cal, db, t, origin, now);
    }
  }

  /** `after` differs from `db` at most in the watermark and the obligation of task `t`. */
  ghost predicate TouchesOnly(db: Db, after: Db, t: int)
    requires t in db.tasks
  {
    && after.runs == db.runs
    && t in after.tasks && after.tasks == db.tasks[t := db.tasks[t].(baseline := after.tasks[t].baseline)]
    && after.rows == Put(db.rows, t, RowOf(after, t))
  }

  lemma ReconcileTouchesOnly(cal: Calendar, db: Db, t: int, now: int)
    requires t in db.tasks
    ensures TouchesOnly(db, Reconcile(cal, db, t, now), t)
  {
    if db.tasks[t].config.enabled && cal.parses(db.tasks[t].config.cron) {
      var settled := SettleAt(db, t, now);
    }
  }

  lemma TickTouchesOnly(cal: Calendar, db: Db, t: int, now: int)
    requires t in db.tasks
    ensures TouchesOnly(db, RecordTick(cal, db, t, now), t)
  {
    ReconcileTouchesOnly(cal, db, t, now);
    if db.tasks[t].config.enabled {
      var folded := Reconcile(cal, db, t, now);
      AddTickTouchesOnly(cal, folded, t, now);
    }
  }

  lemma AddTickTouchesOnly(cal: Calendar, db: Db, t: int, now: int)
    requires t in db.tasks
    ensures TouchesOnly(db, AddTick(cal, db, t, now), t)
  {
  }

  lemma TickKeepsDebt(cal: Calendar, db: Db, t: int, origin: map<int, int>, now: int)
    requires Regular(cal) && t in db.tasks && t in origin && cal.parses(db.tasks[t].config.cron)
    requires DebtAt(cal, db, t, origin[t], now)
    requires RunsInPast(db.runs, now) && db.tasks[t].createdAt <= now
    ensures var after := RecordTick(cal, db, t, now);
            DebtAt(cal, after, t, OriginOf(db, after, t, origin), now)
  {
    var after := RecordTick(cal, db, t, now);
    if db.tasks[t].config.enabled && after != db {
      var folded := Reconcile(cal, db, t, now);
      assert after == AddTick(cal, folded, t, now);
      ReconcileKeepsDebt(cal, db, t, origin, now);
      ReconcileTouchesOnly(cal, db, t, now);
      AddTickTouchesOnly(cal, folded, t, now);
      if t in db.rows && DropsCancelled(db.runs, db.rows[t]) {
        CancelledIsDropped(cal, db, t, now);
      }
      TickAfterFold(cal, db, folded, after, t, origin, now);
    }
  }

  lemma TickAfterFold(cal: Calendar, db: Db, folded: Db, after: Db, t: int, origin: map<int, int>, now: int)
    requires Regular(cal) && t in db.tasks && TouchesOnly(db, folded, t) && db.tasks[t].config.enabled
    requires after == AddTick(cal, folded, t, now) && TouchesOnly(folded, after, t)
    requires DebtAt(cal, folded, t, OriginOf(db, folded, t, origin), now) && Unpaid(folded.runs, t, RowOf(folded, t))
    requires RunsInPast(db.runs, now) && folded.tasks[t].baseline.Some?
    requires FoldedUpTo(cal, folded.tasks[t].config.cron, folded.tasks[t].baseline.value, now)
    requires t in db.rows && DropsCancelled(db.runs, db.rows[t]) ==> t in folded.rows ==> folded.rows[t].status.Due?
    ensures DebtAt(cal, after, t, OriginOf(db, after, t, origin), now)
  {
    AddTickKeepsDebt(cal, folded, t, OriginOf(db, folded, t, origin), now);
  }
}

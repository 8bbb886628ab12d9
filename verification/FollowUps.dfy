/** When exactly an occurrence folded behind a running execution outlives that execution's success. */
module FollowUps {
  import opened Prelude
  import opened Records
  import opened Schedule
  import opened DueWork
  import opened Dispatching
  import opened Lifecycle
  import opened DebtInvariant
  import opened DebtSteps

  /** The instant the obligation will carry once the running execution has paid it. */
  function NextClaim(row: Option<Row>, first: int, latest: int): int {
    if row.None? then first
    else if row.value.newer.Some? then row.value.newer.value
    else if row.value.status.Dispatched? then first
    else latest
  }

  /** The execution is the newest of its task; the row is its own, or an older one it would also pay. */
  ghost predicate RunsOver(db: Db, t: int, id: int) {
    && Executing(db.runs, t, id)
    && (forall k :: Succeeded(db.runs, t, k) ==> db.runs[k].startedAt <= db.runs[id].startedAt)
    && (t in db.rows ==>
          if db.rows[t].status.Dispatched? then db.rows[t].runId == Some(id)
          else !db.rows[t].status.Blocked? && db.rows[t].runId.None? && UnpaidSince(db.runs, t, db.rows[t].dueAt)
               && db.rows[t].dueAt <= db.runs[id].startedAt)
  }

  /** Fold at `folded`, succeed and settle at `settled`. */
  function AfterSuccess(cal: Calendar, db: Db, t: int, id: int, folded: int, settled: int): Db
    requires t in db.tasks && id in db.runs
  {
    SettleAll(Conclude(Reconcile(cal, db, t, folded), id, Success, "", settled), settled)
  }

  lemma SettlingRunsOver(db: Db, t: int, id: int, now: int)
    requires t in db.tasks && RunsOver(db, t, id)
    ensures SettleAt(db, t, now) == db
  {
    if t in db.rows {
      PaidIsLatest(db.runs, t, db.rows[t].dueAt);
      ActiveStartIsEarliest(db.runs, t);
      assert db.runs[id].state.Active();
      assert db.rows[t := db.rows[t]] == db.rows;
    }
  }

  /** What the fold leaves: an obligation whose next claim is as computed above. */
  lemma FoldBehind(cal: Calendar, db: Db, t: int, id: int, first: int, latest: int, now: int)
    requires t in db.tasks && RunsOver(db, t, id) && first <= latest && db.runs[id].startedAt < latest
    requires t in db.rows && !db.rows[t].status.Dispatched? ==> forall k ::
      k in db.runs && db.runs[k].task == t && db.runs[k].state.Active() ==> k == id
    ensures var row := FoldRow(db, t, first, latest, now);
      && row.runId == (if t in db.rows then db.rows[t].runId else None)
      && (row.runId.Some? ==> row.status.Dispatched?)
      && (t !in db.rows ==> row == NewRow(first, now))
      && (t in db.rows ==> row.dueAt == db.rows[t].dueAt && row.newer == Some(NextClaim(RowOf(db, t), first, latest)))
      && (row.status.Dispatched? <==> t in db.rows && db.rows[t].status.Dispatched?) && !row.status.Blocked?
  {
    ActiveStartIsEarliest(db.runs, t);
    assert db.runs[id].state.Active();
  }

  /** The obligation outlives the success exactly when what it will claim lies after the execution's start. */
  lemma StandsAfterSuccessIff(cal: Calendar, db: Db, t: int, id: int, folded: int, settled: int)
    requires t in db.tasks && db.tasks[t].config.enabled && cal.parses(db.tasks[t].config.cron)
    requires db.tasks[t].baseline.Some? && RunsOver(db, t, id) && Owes(cal, db, t, folded)
    requires forall k :: k in db.runs && db.runs[k].task == t && db.runs[k].state.Active() ==> k == id
    requires var first := NextOccurrence(cal, db.tasks[t].config.cron, db.tasks[t].baseline.value).value;
      db.runs[id].startedAt < Schedule.Walk(cal, db.tasks[t].config.cron, first, folded, MAX_OCCURRENCE_SCAN)
    ensures var first := NextOccurrence(cal, db.tasks[t].config.cron, db.tasks[t].baseline.value).value;
      var latest := Schedule.Walk(cal, db.tasks[t].config.cron, first, folded, MAX_OCCURRENCE_SCAN);
      t in AfterSuccess(cal, db, t, id, folded, settled).rows
      <==> db.runs[id].startedAt < NextClaim(RowOf(db, t), first, latest)
  {
    var cron := db.tasks[t].config.cron;
    var first := NextOccurrence(cal, cron, db.tasks[t].baseline.value).value;
    var latest := Schedule.Walk(cal, cron, first, folded, MAX_OCCURRENCE_SCAN);
    SettlingRunsOver(db, t, id, folded);
    FoldBehind(cal, db, t, id, first, latest, folded);
    var row := FoldRow(db, t, first, latest, folded);
    var afterFold := Reconcile(cal, db, t, folded);
    assert afterFold.runs == db.runs && t in afterFold.rows && afterFold.rows[t] == row;
    SuccessThenSettle(afterFold, t, id, row, settled);
  }

  lemma SuccessThenSettle(db: Db, t: int, id: int, row: Row, now: int)
    requires t in db.tasks && Executing(db.runs, t, id) && t in db.rows && db.rows[t] == row
    requires forall k :: Succeeded(db.runs, t, k) ==> db.runs[k].startedAt <= db.runs[id].startedAt
    requires !row.status.Blocked?
    requires if row.status.Dispatched? then row.runId == Some(id) && row.newer.Some? else row.runId.None?
    ensures var a := db.runs[id].startedAt;
      t in SettleAll(Conclude(db, id, Success, "", now), now).rows
      <==> (!row.status.Dispatched? && a < row.dueAt) || (row.newer.Some? && a < row.newer.value)
  {
    ASuccessLeavesTheRowIff(db, t, id, "", now, now);
  }

  /** When it does not, and the newest occurrence folded lies more than a second after that start, it is lost: owed by
      no row and covered by no success. */
  lemma OtherwiseTheNewestIsLost(cal: Calendar, db: Db, t: int, id: int, folded: int, settled: int)
    requires t in db.tasks && db.tasks[t].config.enabled && cal.parses(db.tasks[t].config.cron)
    requires db.tasks[t].baseline.Some? && RunsOver(db, t, id) && Owes(cal, db, t, folded)
    requires forall k :: k in db.runs && db.runs[k].task == t && db.runs[k].state.Active() ==> k == id
    requires var first := NextOccurrence(cal, db.tasks[t].config.cron, db.tasks[t].baseline.value).value;
      var latest := Schedule.Walk(cal, db.tasks[t].config.cron, first, folded, MAX_OCCURRENCE_SCAN);
      NextClaim(RowOf(db, t), first, latest) <= db.runs[id].startedAt < latest - TICK_EARLY_TOLERANCE
    ensures var first := NextOccurrence(cal, db.tasks[t].config.cron, db.tasks[t].baseline.value).value;
      var latest := Schedule.Walk(cal, db.tasks[t].config.cron, first, folded, MAX_OCCURRENCE_SCAN);
      var after := AfterSuccess(cal, db, t, id, folded, settled);
      t !in after.rows && !Covered(after.runs, t, latest)
  {
    StandsAfterSuccessIff(cal, db, t, id, folded, settled);
  }

  // ------------------------------------------------------------------ any row behind any execution

  /** No success of `t`, past or about to be that of `id`, began at or after `x`. */
  ghost predicate UnpaidWith(runs: map<int, Run>, t: int, id: int, x: int)
    requires id in runs
  {
    UnpaidSince(runs, t, x) && runs[id].startedAt < x
  }

  /** What keeps the row in the table when execution `id` succeeds and the tables are settled, judged before both. */
  ghost predicate OutlivesSuccess(runs: map<int, Run>, t: int, id: int, row: Row)
    requires id in runs
  {
    if row.runId == Some(id) then row.newer.Some? && UnpaidWith(runs, t, id, row.newer.value)
    else match row.status
      case Blocked => true
      case Dispatched =>
        row.runId.None? || row.runId.value !in runs
        || (!runs[row.runId.value].state.Cancelled? && (runs[row.runId.value].state.Success? ==> row.newer.Some?))
      case _ => UnpaidWith(runs, t, id, row.dueAt) || (row.newer.Some? && UnpaidWith(runs, t, id, row.newer.value))
  }

  /** Any row, any running execution of the task: the row survives its success exactly when this holds. */
  lemma ASuccessLeavesTheRowIff(db: Db, t: int, id: int, message: string, concluded: int, settled: int)
    requires t in db.tasks && t in db.rows && Executing(db.runs, t, id)
    ensures t in SettleAll(Conclude(db, id, Success, message, concluded), settled).rows
       <==> OutlivesSuccess(db.runs, t, id, db.rows[t])
  {
    var row, done := db.rows[t], Conclude(db, id, Success, message, concluded);
    forall k
      ensures Succeeded(done.runs, t, k) <==> Succeeded(db.runs, t, k) || k == id
      ensures k in db.runs && k != id ==> k in done.runs && done.runs[k] == db.runs[k]
    {
    }
    assert Succeeded(done.runs, t, id);
    UnpaidAfterwards(db.runs, done.runs, t, id, row.dueAt);
    if row.newer.Some? {
      UnpaidAfterwards(db.runs, done.runs, t, id, row.newer.value);
    }
    if t in done.rows {
      PaidIsLatest(done.runs, t, done.rows[t].dueAt);
      LatestIsAnySuccess(done.runs, t, done.rows[t].dueAt, done.rows[t].newer);
    }
  }

  lemma UnpaidAfterwards(runs: map<int, Run>, after: map<int, Run>, t: int, id: int, x: int)
    requires id in runs && id in after && after[id].startedAt == runs[id].startedAt
    requires forall k :: Succeeded(after, t, k) <==> Succeeded(runs, t, k) || k == id
    requires forall k :: k in runs && k != id ==> k in after && after[k] == runs[k]
    ensures UnpaidSince(after, t, x) <==> UnpaidWith(runs, t, id, x)
  {
    assert Succeeded(after, t, id);
  }

  /** A payment leaves the marker exactly when no success at all has reached it. */
  lemma LatestIsAnySuccess(runs: map<int, Run>, t: int, dueAt: int, newer: Option<int>)
    ensures var paid := PaidStart(runs, t, dueAt);
      paid.Some? && newer.Some? ==> (paid.value < newer.value <==> UnpaidSince(runs, t, newer.value))
  {
    PaidIsLatest(runs, t, dueAt);
    var paid := PaidStart(runs, t, dueAt);
    if paid.Some? && newer.Some? {
      var id :| Succeeded(runs, t, id) && runs[id].startedAt == paid.value;
    }
  }

  // ------------------------------------------------------------------ unblocking

  /** An edit that leaves the schedule alone unblocks the obligation. It outlives the next settling exactly when no
      success began since its due instant, or none since the follow-up it carries. */
  lemma UnblockedStandsIff(db: Db, t: int, config: Config, edited: int, settled: int)
    requires t in db.tasks && t in db.rows && db.rows[t].status.Blocked?
    requires var before := db.tasks[t].config;
      before.cron == config.cron && before.enabled == config.enabled && config.enabled
    ensures var row := db.rows[t];
      t in SettleAll(UpdateTask(db, t, config, edited), settled).rows
      <==> UnpaidSince(db.runs, t, row.dueAt) || (row.newer.Some? && UnpaidSince(db.runs, t, row.newer.value))
  {
    var row := db.rows[t];
    var after := UpdateTask(db, t, config, edited);
    assert after.runs == db.runs && after.rows[t] == Rearmed(row).(updatedAt := edited);
    PaidIsLatest(db.runs, t, row.dueAt);
    var paid := PaidStart(db.runs, t, row.dueAt);
    if paid.Some? {
      var id :| Succeeded(db.runs, t, id) && db.runs[id].startedAt == paid.value;
      assert !UnpaidSince(db.runs, t, row.dueAt);
    }
  }
}

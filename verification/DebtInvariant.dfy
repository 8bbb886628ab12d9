/** What one task's run rows, obligation and watermark have in common in every reachable state. */
module DebtInvariant {
  import opened Prelude
  import opened Records
  import opened Schedule
  import opened DueWork
  import opened Dispatching

  ghost predicate Succeeded(runs: map<int, Run>, t: int, id: int) {
    id in runs && runs[id].task == t && runs[id].state.Success?
  }

  ghost predicate Executing(runs: map<int, Run>, t: int, id: int) {
    id in runs && runs[id].task == t && runs[id].state.Running?
  }

  ghost predicate Ran(runs: map<int, Run>, t: int, id: int) {
    id in runs && runs[id].task == t && (runs[id].state.Success? || runs[id].state.Running?)
  }

  /** No execution that succeeded, or still may, began at or after `x`. */
  ghost predicate RanBefore(runs: map<int, Run>, t: int, x: int) {
    forall id :: Ran(runs, t, id) ==> runs[id].startedAt < x
  }

  ghost predicate UnpaidSince(runs: map<int, Run>, t: int, x: int) {
    forall id :: Succeeded(runs, t, id) ==> runs[id].startedAt < x
  }

  /** A success began no earlier than one second before the occurrence. */
  ghost predicate Covered(runs: map<int, Run>, t: int, o: int) {
    exists id :: Succeeded(runs, t, id) && o - TICK_EARLY_TOLERANCE <= runs[id].startedAt
  }

  ghost predicate Folded(cal: Calendar, task: Task, origin: int, o: int) {
    task.baseline.Some? && Occurs(cal, task.config.cron, o) && origin < o <= task.baseline.value
  }

  /** Folded in this generation and not covered. */
  ghost predicate Outstanding(cal: Calendar, task: Task, runs: map<int, Run>, t: int, origin: int, o: int) {
    Folded(cal, task, origin, o) && !Covered(runs, t, o)
  }

  ghost predicate AttemptsInRange(row: Row) {
    match row.status
    case Retry => 1 <= row.attempts <= MAX_AUTOMATIC_RETRIES && row.retryAt.Some?
    case Exhausted => row.attempts == MAX_AUTOMATIC_RETRIES + 1
    case _ => row.attempts <= MAX_AUTOMATIC_RETRIES
  }

  /** A row names a run exactly while it is dispatched, and that run has not been paid out. */
  ghost predicate Shape(runs: map<int, Run>, t: int, row: Row) {
    && (row.runId.Some? <==> row.status.Dispatched?)
    && (row.runId.Some? ==> row.runId.value in runs && runs[row.runId.value].task == t
                            && !runs[row.runId.value].state.Success?)
    && AttemptsInRange(row)
  }

  /** Everything a row mentions lies inside the folded part of the current generation. */
  ghost predicate Window(task: Task, row: Option<Row>, origin: int, now: int) {
    && (task.baseline.None? ==> row.None? && task.epoch.None?)
    && (task.baseline.Some? ==>
          && task.baseline.value <= now + TICK_EARLY_TOLERANCE
          && (!task.config.enabled ==> task.baseline.value <= origin)
          && (task.epoch.Some? ==> task.epoch.value <= task.baseline.value && task.epoch.value <= now)
          && (row.Some? ==>
                && row.value.dueAt <= task.baseline.value
                && (task.epoch.Some? ==> task.epoch.value <= row.value.dueAt)
                && (row.value.newer.Some? ==> row.value.dueAt < row.value.newer.value <= task.baseline.value)))
  }

  /** No execution has overtaken the schedule, the marker, or (for dispatched rows) the obligation itself. */
  ghost predicate NotOvertaken(cal: Calendar, task: Task, runs: map<int, Run>, t: int, row: Option<Row>) {
    && (task.baseline.Some? ==>
          var n := NextOccurrence(cal, task.config.cron, task.baseline.value);
          n.Some? ==> RanBefore(runs, t, n.value))
    && (row.Some? && !row.value.status.Blocked? && row.value.newer.Some? ==> RanBefore(runs, t, row.value.newer.value))
    && (row.Some? && row.value.status.Dispatched? ==>
          forall id :: Ran(runs, t, id) && Some(id) != row.value.runId ==> runs[id].startedAt < row.value.dueAt)
  }

  /** The row's next payment by a past success cannot delete it. */
  ghost predicate Stands(runs: map<int, Run>, t: int, row: Option<Row>) {
    row.Some? && (row.value.status.Blocked? || row.value.newer.Some? || UnpaidSince(runs, t, row.value.dueAt))
  }

  /** Nor can the success of execution `id`. */
  ghost predicate StandsBehind(runs: map<int, Run>, id: int, row: Option<Row>)
    requires id in runs
  {
    row.Some? && (row.value.status.Blocked? || row.value.newer.Some?
                  || (runs[id].startedAt < row.value.dueAt && row.value.runId != Some(id)))
  }

  ghost predicate Retained(cal: Calendar, task: Task, runs: map<int, Run>, t: int, row: Option<Row>, origin: int) {
    && (forall o :: Outstanding(cal, task, runs, t, origin, o) ==> Stands(runs, t, row))
    && (forall o, id ::
          Outstanding(cal, task, runs, t, origin, o) && Executing(runs, t, id) && runs[id].startedAt + TICK_EARLY_TOLERANCE < o
          ==> StandsBehind(runs, id, row))
  }

  ghost predicate DebtInv(cal: Calendar, task: Task, runs: map<int, Run>, t: int, row: Option<Row>,
                          origin: int, now: int) {
    && (row.Some? ==> Shape(runs, t, row.value))
    && Window(task, row, origin, now)
    && NotOvertaken(cal, task, runs, t, row)
    && Retained(cal, task, runs, t, row, origin)
  }

  ghost predicate OfTask(runs: map<int, Run>, t: int, id: int) {
    id in runs && runs[id].task == t
  }

  /** The two run tables agree on the runs of task `t`. */
  ghost predicate SameRuns(runs: map<int, Run>, after: map<int, Run>, t: int) {
    && (forall id :: OfTask(runs, t, id) ==> OfTask(after, t, id) && after[id] == runs[id])
    && (forall id :: OfTask(after, t, id) ==> OfTask(runs, t, id))
  }

  lemma FrameDebt(cal: Calendar, task: Task, runs: map<int, Run>, after: map<int, Run>, t: int,
                  row: Option<Row>, origin: int, now: int)
    requires DebtInv(cal, task, runs, t, row, origin, now)
    requires SameRuns(runs, after, t)
    ensures DebtInv(cal, task, after, t, row, origin, now)
  {
    if row.Some? && row.value.runId.Some? {
      assert OfTask(runs, t, row.value.runId.value);
    }
    forall id
      ensures Succeeded(runs, t, id) <==> Succeeded(after, t, id)
      ensures Ran(runs, t, id) <==> Ran(after, t, id)
      ensures Executing(runs, t, id) <==> Executing(after, t, id)
    {
      assert OfTask(runs, t, id) <==> OfTask(after, t, id);
    }
    forall o ensures Covered(runs, t, o) <==> Covered(after, t, o) {}
    forall o ensures Outstanding(cal, task, runs, t, origin, o) <==> Outstanding(cal, task, after, t, origin, o) {}
  }

  // ------------------------------------------------------------------ settling

  /** Which rows a settled table can hold: payable rows are unpaid. */
  ghost predicate Unpaid(runs: map<int, Run>, t: int, row: Option<Row>) {
    (row.Some? && !row.value.status.Blocked? && !row.value.status.Dispatched?)
    ==> UnpaidSince(runs, t, row.value.dueAt)
  }

  lemma PaidIsLatest(runs: map<int, Run>, t: int, dueAt: int)
    ensures PaidStart(runs, t, dueAt).None? <==> UnpaidSince(runs, t, dueAt)
    ensures PaidStart(runs, t, dueAt).Some? ==>
      && (exists id :: Succeeded(runs, t, id) && runs[id].startedAt == PaidStart(runs, t, dueAt).value)
      && dueAt <= PaidStart(runs, t, dueAt).value
      && forall id :: Succeeded(runs, t, id) ==> runs[id].startedAt <= PaidStart(runs, t, dueAt).value
  {
    var p := (r: Run) => r.state.Success? && dueAt <= r.startedAt;
    var starts := StartsOf(runs, t, p);
    forall id | Succeeded(runs, t, id) && dueAt <= runs[id].startedAt
      ensures runs[id].startedAt in starts
    {
      assert p(runs[id]);
    }
    if PaidStart(runs, t, dueAt).Some? {
      var id :| id in runs && runs[id].task == t && p(runs[id]) && runs[id].startedAt == PaidStart(runs, t, dueAt).value;
      assert Succeeded(runs, t, id);
    }
  }

  lemma ActiveStartIsEarliest(runs: map<int, Run>, t: int)
    ensures ActiveStart(runs, t).None? <==> !HasActiveRun(runs, t)
    ensures ActiveStart(runs, t).Some? ==>
      && (exists id :: id in runs && runs[id].task == t && runs[id].state.Active()
                       && runs[id].startedAt == ActiveStart(runs, t).value)
      && forall id :: id in runs && runs[id].task == t && runs[id].state.Active()
           ==> ActiveStart(runs, t).value <= runs[id].startedAt
  {
    var p := (r: Run) => r.state.Active();
    var starts := StartsOf(runs, t, p);
    forall id | id in runs && runs[id].task == t && runs[id].state.Active()
      ensures runs[id].startedAt in starts
    {
      assert p(runs[id]);
    }
    if ActiveStart(runs, t).Some? {
      var id :| id in runs && runs[id].task == t && p(runs[id]) && runs[id].startedAt == ActiveStart(runs, t).value;
      assert runs[id].state.Active();
    }
  }

  /** The obligation left by a cancelled run is dropped on purpose: counting restarts at the watermark. */
  ghost predicate DropsCancelled(runs: map<int, Run>, row: Row) {
    row.status.Dispatched? && row.runId.Some? && row.runId.value in runs && runs[row.runId.value].state.Cancelled?
  }

  function OriginAfterSettle(task: Task, runs: map<int, Run>, row: Row, origin: int): int {
    if row.status.Dispatched? && row.runId.Some? && row.runId.value in runs
       && runs[row.runId.value].state.Cancelled? && task.baseline.Some?
    then task.baseline.value else origin
  }

  lemma OutcomeKeepsDebt(cal: Calendar, task: Task, runs: map<int, Run>, t: int, row: Row, origin: int, now: int)
    requires DebtInv(cal, task, runs, t, Some(row), origin, now) && row.status.Dispatched?
    ensures DebtInv(cal, task, runs, t, ApplyOutcome(row, runs[row.runId.value], now),
                    OriginAfterSettle(task, runs, row, origin), now)
    ensures Unpaid(runs, t, ApplyOutcome(row, runs[row.runId.value], now))
  {
    assert forall id :: Succeeded(runs, t, id) ==> Ran(runs, t, id);
    var run := runs[row.runId.value];
    if run.state.Cancelled? {
      assert forall o :: !Folded(cal, task, task.baseline.value, o);
    } else if run.state.Failed? {
      var after := ApplyOutcome(row, run, now).value;
      assert after.dueAt == row.dueAt && after.newer == row.newer && after.runId.None?;
      assert Retained(cal, task, runs, t, Some(after), origin);
    }
  }

  lemma PaymentKeepsDebt(cal: Calendar, task: Task, runs: map<int, Run>, t: int, row: Row, paid: int, origin: int, now: int)
    requires DebtInv(cal, task, runs, t, Some(row), origin, now)
    requires !row.status.Dispatched? && !row.status.Blocked? && PaidStart(runs, t, row.dueAt) == Some(paid)
    ensures var left := Finish(row, After(row.newer, paid), now);
            DebtInv(cal, task, runs, t, left, origin, now) && Unpaid(runs, t, left)
  {
  }

  lemma SettleKeepsDebt(cal: Calendar, tasks: map<int, Task>, runs: map<int, Run>, t: int, row: Row,
                        origin: int, now: int)
    requires t in tasks && DebtInv(cal, tasks[t], runs, t, Some(row), origin, now)
    ensures DebtInv(cal, tasks[t], runs, t, Settle(tasks, runs, t, row, now),
                    OriginAfterSettle(tasks[t], runs, row, origin), now)
    ensures Unpaid(runs, t, Settle(tasks, runs, t, row, now))
  {
    if row.status.Dispatched? {
      OutcomeKeepsDebt(cal, tasks[t], runs, t, row, origin, now);
    } else if !row.status.Blocked? {
      PaidIsLatest(runs, t, row.dueAt);
      var paid := PaidStart(runs, t, row.dueAt);
      if paid.Some? {
        PaymentKeepsDebt(cal, tasks[t], runs, t, row, paid.value, origin, now);
      } else {
        ActiveStartIsEarliest(runs, t);
        assert forall id :: Executing(runs, t, id) ==> runs[id].state.Active();
      }
    }
  }
}

/** The tables and the operations of due.py, which write task and row fields in place. */
module Ledgers {
  import opened Prelude
  import opened Records
  import opened Schedule
  import opened DueWork

  class Ledger {
    const cal: Calendar
    var tasks: map<int, Task>
    var runs: map<int, Run>
    var rows: map<int, Row>

    constructor (cal: Calendar, db: Db)
      ensures this.cal == cal && Tables() == db
    {
      this.cal := cal;
      tasks, runs, rows := db.tasks, db.runs, db.rows;
    }

    function Tables(): Db
      reads this
    {
      Db(tasks, runs, rows)
    }

    method FinishRow(t: int, followUp: Option<int>, now: int)
      requires t in rows
      modifies this`rows
      ensures rows == Put(old(rows), t, Finish(old(rows[t]), followUp, now))
    {
      if followUp.None? {
        rows := rows - {t};
        return;
      }
      rows := rows[t := rows[t].(dueAt := followUp.value, newer := None)];
      rows := rows[t := rows[t].(status := Due, attempts := 0, retryAt := None)];
      rows := rows[t := rows[t].(runId := None, waitReason := None, lastError := "", updatedAt := now)];
    }

    method ApplyRunOutcome(t: int, run: Run, now: int)
      requires t in rows
      modifies this`rows
      ensures rows == Put(old(rows), t, ApplyOutcome(old(rows[t]), run, now))
    {
      if run.state.Active() {
        return;
      }
      var followUp := rows[t].newer;
      if run.state.Success? {
        FinishRow(t, followUp, now);
      } else if run.state.Cancelled? {
        rows := rows - {t};
      } else {
        var row := rows[t];
        if Infrastructure(run.error) {
          row := row.(status := Due, runId := None, waitReason := None);
          row := row.(retryAt := None);
        } else if Permanent(run.error) {
          row := row.(status := Blocked, runId := None, waitReason := None);
          row := row.(retryAt := None, lastError := Clip(run.error));
        } else {
          row := row.(attempts := row.attempts + 1);
          row := row.(lastError := Clip(run.error), runId := None, waitReason := None);
          if row.attempts > MAX_AUTOMATIC_RETRIES {
            row := row.(status := Exhausted, retryAt := None);
          } else {
            row := row.(status := Retry, retryAt := Some(now + BackoffSeconds(row.attempts) * SECOND));
          }
        }
        row := row.(updatedAt := now);
        rows := rows[t := row];
      }
    }

    method SettleRow(t: int, now: int)
      requires t in rows
      modifies this`rows
      ensures rows == Put(old(rows), t, Settle(tasks, runs, t, old(rows[t]), now))
    {
      if t !in tasks {
        rows := rows - {t};
        return;
      }
      var row := rows[t];
      if row.status.Dispatched? {
        if row.runId.None? || row.runId.value !in runs {
          rows := rows[t := row.(status := Due, runId := None)];
        } else {
          ApplyRunOutcome(t, runs[row.runId.value], now);
        }
        return;
      }
      if row.status.Due? || row.status.Retry? || row.status.Exhausted? {
        var paid := PaidStart(runs, t, row.dueAt);
        if paid.Some? {
          var followUp := row.newer;
          if followUp.Some? && followUp.value <= paid.value {
            followUp := None;
          }
          FinishRow(t, followUp, now);
        } else if row.newer.Some? && ActiveStart(runs, t).None? {
          row := row.(newer := None);
          if row.status.Exhausted? {
            row := row.(status := Due, attempts := 0, retryAt := None, lastError := "");
          }
          rows := rows[t := row.(updatedAt := now)];
        }
      }
    }

    /** `order` is the table's own answer to an unordered select. */
    method SettleAllRows(order: seq<int>, now: int)
      requires forall t :: t in order <==> t in rows
      requires forall i, j :: 0 <= i < j < |order| ==> order[i] != order[j]
      modifies this`rows
      ensures Tables() == SettleAll(old(Tables()), now)
    {
      ghost var was := rows;
      forall k | 0 <= k < |order|
        ensures order[k] in was
      {
        var t := order[k];
        assert t in order;
      }
      var i := 0;
      while i < |order|
        invariant 0 <= i <= |order|
        invariant forall k :: i <= k < |order| ==> order[k] in rows && order[k] in was && rows[order[k]] == was[order[k]]
        invariant rows.Keys <= was.Keys
        invariant forall k :: 0 <= k < i ==>
          (order[k] in rows <==> Settle(tasks, runs, order[k], was[order[k]], now).Some?)
        invariant forall k :: 0 <= k < i && order[k] in rows ==>
          Some(rows[order[k]]) == Settle(tasks, runs, order[k], was[order[k]], now)
      {
        SettleRow(order[i], now);
        i := i + 1;
      }
      forall t | t in was
        ensures t in rows <==> Settle(tasks, runs, t, was[t], now).Some?
        ensures t in rows ==> Some(rows[t]) == Settle(tasks, runs, t, was[t], now)
      {
        var k :| 0 <= k < |order| && order[k] == t;
      }
      assert rows == SettleAll(old(Tables()), now).rows;
    }

    method NoteOccurrenceDuringRun(t: int, at: int, latest: Option<int>) returns (noted: bool)
      requires t in rows
      modifies this`rows
      ensures noted == Note(runs, t, old(rows[t]), at, latest).Some?
      ensures rows == if noted then old(rows)[t := Note(runs, t, old(rows[t]), at, latest).value] else old(rows)
    {
      var row := rows[t];
      if row.status.Dispatched? {
        if row.newer.None? {
          rows := rows[t := row.(newer := Some(at))];
        }
        return true;
      }
      if row.status.Blocked? {
        return false;
      }
      var started := ActiveStart(runs, t);
      var newest := if latest.Some? then latest.value else at;
      if started.None? || newest <= started.value {
        return false;
      }
      if row.newer.None? {
        rows := rows[t := row.(newer := Some(newest))];
      }
      return true;
    }

    /** A cron that cannot be parsed is made visible as a blocked obligation. */
    method BlockInvalidCron(t: int, now: int)
      requires t in tasks
      modifies this`rows
      ensures Tables() == BlockInvalid(old(Tables()), t, now)
    {
      var row := if t in rows then rows[t] else NewRow(now, now);
      if !row.status.Blocked? || !Contains(row.lastError, "cron") {
        row := row.(status := Blocked, waitReason := None, retryAt := None);
        row := row.(lastError := InvalidCron(tasks[t].config.cron));
        rows := rows[t := row.(updatedAt := now)];
      }
    }

    method ReconcileTask(t: int, now: int)
      requires t in tasks
      modifies this`tasks, this`rows
      ensures Tables() == Reconcile(cal, old(Tables()), t, now)
    {
      var task := tasks[t];
      if !task.config.enabled {
        return;
      }
      if !cal.parses(task.config.cron) {
        BlockInvalidCron(t, now);
        return;
      }
      if t in rows {
        SettleRow(t, now);
      }
      assert Tables() == SettleAt(old(Tables()), t, now);
      FoldOccurrences(t, now);
    }

    method FoldOccurrences(t: int, now: int)
      requires t in tasks
      modifies this`tasks, this`rows
      ensures Tables() == FoldFrom(cal, old(Tables()), t, now)
    {
      var task := tasks[t];
      var baseline := if task.baseline.Some? then task.baseline.value
                      else DeriveBaseline(runs, t, task.createdAt);
      var first := NextOccurrence(cal, task.config.cron, baseline);
      if first.None? || now < first.value {
        if task.baseline.None? || task.baseline.value < baseline {
          tasks := tasks[t := task.(baseline := Some(baseline))];
        }
        assert tasks == old(tasks)[t := task.(baseline := Some(baseline))];
        return;
      }
      var latest := LatestOccurrence(cal, task.config.cron, first.value, now);
      tasks := tasks[t := task.(baseline := Some(latest))];
      if t !in rows {
        rows := rows[t := NewRow(first.value, now)];
      } else {
        var noted := NoteOccurrenceDuringRun(t, first.value, Some(latest));
        if !noted && rows[t].status.Exhausted? {
          rows := rows[t := rows[t].(status := Due, attempts := 0, retryAt := None, lastError := "")];
        }
      }
      rows := rows[t := rows[t].(updatedAt := now)];
    }

    method TickTask(t: int, now: int)
      modifies this`tasks, this`rows
      ensures Tables() == RecordTick(cal, old(Tables()), t, now)
    {
      if t !in tasks || !tasks[t].config.enabled {
        return;
      }
      var savedTasks, savedRows := tasks, rows;
      var committed := !cal.parses(tasks[t].config.cron) || Owes(cal, Tables(), t, now);
      ReconcileTask(t, now);
      var baseline := tasks[t].baseline;
      var upcoming := if baseline.None? then None
                      else NextOccurrence(cal, tasks[t].config.cron, baseline.value);
      if upcoming.Some? && 0 <= upcoming.value - now <= TICK_EARLY_TOLERANCE {
        tasks := tasks[t := tasks[t].(baseline := upcoming)];
        if t !in rows {
          rows := rows[t := NewRow(now, now)];
        } else {
          var noted := NoteOccurrenceDuringRun(t, upcoming.value, None);
          assert noted ==> rows == old(Reconcile(cal, Tables(), t, now)).rows[t := rows[t]];
        }
      } else if t !in rows && !RunCovers(runs, t, baseline) {
        rows := rows[t := NewRow(now, now)];
        tasks := tasks[t := tasks[t].(baseline := Some(if baseline.Some? then Max(baseline.value, now) else now))];
      } else if !committed {
        tasks, rows := savedTasks, savedRows;
      }
    }

    method TaskEdited(t: int, scheduleChanged: bool, now: int)
      requires t in tasks
      modifies this`tasks, this`rows
      ensures Tables() == OnTaskEdited(old(Tables()), t, scheduleChanged, now)
    {
      if scheduleChanged || !tasks[t].config.enabled {
        tasks := tasks[t := tasks[t].(baseline := Some(now))];
        tasks := tasks[t := tasks[t].(epoch := Some(now))];
        if t in rows {
          rows := rows - {t};
        }
        assert rows == old(rows) - {t};
      } else if t in rows && (rows[t].status.Blocked? || rows[t].status.Exhausted?) {
        var row := rows[t].(status := Due, attempts := 0, retryAt := None, lastError := "");
        rows := rows[t := row.(updatedAt := now)];
      }
    }
  }
}

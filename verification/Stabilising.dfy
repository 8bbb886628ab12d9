/** Settling reaches a fixed point in two rounds, from any tables whatever; and each occurrence is folded once. */
module Stabilising {
  import opened Prelude
  import opened Records
  import opened Schedule
  import opened DueWork
  import opened DebtInvariant
  import opened DebtSteps

  function SettleAgain(tasks: map<int, Task>, runs: map<int, Run>, t: int, row: Option<Row>, now: int): Option<Row> {
    if row.None? then None else Settle(tasks, runs, t, row.value, now)
  }

  /** Paid or waiting, a row that is not dispatched moves at most once more. */
  lemma UndispatchedSettlesOnce(tasks: map<int, Task>, runs: map<int, Run>, t: int, row: Row, now: int)
    requires !row.status.Dispatched?
    ensures var once := Settle(tasks, runs, t, row, now);
            SettleAgain(tasks, runs, t, once, now) == once
  {
    if t in tasks && !row.status.Blocked? {
      PaidIsLatest(runs, t, row.dueAt);
      var once := Settle(tasks, runs, t, row, now);
      if once.Some? {
        PaidIsLatest(runs, t, once.value.dueAt);
      }
    }
  }

  lemma RowSettlesInTwo(tasks: map<int, Task>, runs: map<int, Run>, t: int, row: Row, now: int)
    ensures var twice := SettleAgain(tasks, runs, t, Settle(tasks, runs, t, row, now), now);
            SettleAgain(tasks, runs, t, twice, now) == twice
  {
    var once := Settle(tasks, runs, t, row, now);
    if once.Some? && !once.value.status.Dispatched? {
      UndispatchedSettlesOnce(tasks, runs, t, once.value, now);
    }
  }

  /** With the run table and the clock fixed, two rounds are enough from any set of rows. */
  lemma SettlingStabilises(db: Db, now: int)
    ensures var twice := SettleAll(SettleAll(db, now), now); SettleAll(twice, now) == twice
  {
    var once := SettleAll(db, now);
    var twice := SettleAll(once, now);
    var thrice := SettleAll(twice, now);
    forall t
      ensures RowOf(thrice, t) == RowOf(twice, t)
    {
      if t in db.rows {
        RowSettlesInTwo(db.tasks, db.runs, t, db.rows[t], now);
      }
    }
    assert forall t :: t in thrice.rows <==> t in twice.rows by {
      forall t
        ensures t in thrice.rows <==> t in twice.rows
      {
        assert RowOf(thrice, t) == RowOf(twice, t);
      }
    }
    assert forall t :: t in thrice.rows ==> thrice.rows[t] == twice.rows[t] by {
      forall t | t in thrice.rows
        ensures thrice.rows[t] == twice.rows[t]
      {
        assert RowOf(thrice, t) == RowOf(twice, t);
      }
    }
    assert thrice.rows == twice.rows;
  }

  /** One round is not: a run that vanished leaves a payable row behind. */
  lemma OneRoundIsNotEnough()
    ensures exists db, now :: SettleAll(SettleAll(db, now), now) != SettleAll(db, now)
  {
    var config := Config(1, "", true, None, false, "", "");
    var success := Run(1, Success, 5, Some(6), "");
    var row := Row(5, Dispatched, None, 0, None, "", Some(9), None, 0);
    var db := Db(map[1 := Task(config, 0, Some(5), None)], map[2 := success], map[1 := row]);
    var once := SettleAll(db, 7);
    assert once.rows[1] == row.(status := Due, runId := None);
    PaidIsLatest(db.runs, 1, 5);
    assert Succeeded(db.runs, 1, 2);
    assert 1 !in SettleAll(once, 7).rows;
  }

  /** Requeued or charged, the row is where it stays: unpaid, and without a marker that nothing active justifies. */
  ghost predicate StaysWhenRequeued(runs: map<int, Run>, t: int, row: Row) {
    UnpaidSince(runs, t, row.dueAt) && (row.newer.None? || HasActiveRun(runs, t))
  }

  /** One round is enough for the row, judged by what the tables say before it. */
  ghost predicate SettlesInOneRound(runs: map<int, Run>, t: int, row: Row) {
    if !row.status.Dispatched? then true
    else if row.runId.None? || row.runId.value !in runs then StaysWhenRequeued(runs, t, row)
    else
      var run := runs[row.runId.value];
      match run.state
      case Pending => true
      case Running => true
      case Cancelled => true
      case Success => row.newer.None? || UnpaidSince(runs, t, row.newer.value)
      case Failed => (Permanent(run.error) && !Infrastructure(run.error)) || StaysWhenRequeued(runs, t, row)
  }

  /** One round settles a row exactly when it was not dispatched, or its run is active, cancelled or permanently failed,
      or succeeded and no success has reached the marker, or is gone or otherwise failed and the row is unpaid with no
      idle marker. */
  lemma OneRoundIsEnoughIff(tasks: map<int, Task>, runs: map<int, Run>, t: int, row: Row, now: int)
    requires t in tasks
    ensures var once := Settle(tasks, runs, t, row, now);
      SettleAgain(tasks, runs, t, once, now) == once <==> SettlesInOneRound(runs, t, row)
  {
    var once := Settle(tasks, runs, t, row, now);
    if !row.status.Dispatched? {
      UndispatchedSettlesOnce(tasks, runs, t, row, now);
    } else if once.Some? {
      PaidIsLatest(runs, t, once.value.dueAt);
      ActiveStartIsEarliest(runs, t);
    }
  }

  /** At the fixed point no payable row is payable, and only an active run justifies a marker. */
  lemma SettledRowsAreOwed(db: Db, t: int, now: int)
    requires SettleAll(db, now) == db && t in db.rows
    ensures t in db.tasks
    ensures var row := db.rows[t];
      && (row.status.Due? || row.status.Retry? || row.status.Exhausted? ==>
            && UnpaidSince(db.runs, t, row.dueAt)
            && (row.newer.Some? ==> HasActiveRun(db.runs, t)))
      && (row.status.Dispatched? ==> row.runId.Some? && row.runId.value in db.runs && db.runs[row.runId.value].state.Active())
  {
    var row := db.rows[t];
    assert Settle(db.tasks, db.runs, t, row, now) == Some(row);
    PaidIsLatest(db.runs, t, row.dueAt);
    ActiveStartIsEarliest(db.runs, t);
  }

  /** There is a follow-up, and no success has reached it. */
  ghost predicate StaysOwed(runs: map<int, Run>, t: int, newer: Option<int>) {
    newer.Some? && UnpaidSince(runs, t, newer.value)
  }

  /** What one settling makes of a row that waits for no run and is not held, by the run table: a success since its due
      instant pays it, and the follow-up no success has reached takes its place; unpaid and with nothing running it
      loses its follow-up, and if its retries were exhausted it is tried again from the start; else it stays as it is. */
  lemma WhatSettlingDoes(tasks: map<int, Task>, runs: map<int, Run>, t: int, row: Row, now: int)
    requires t in tasks && (row.status.Due? || row.status.Retry? || row.status.Exhausted?)
    ensures Settle(tasks, runs, t, row, now) ==
      if !UnpaidSince(runs, t, row.dueAt) then
        if StaysOwed(runs, t, row.newer) then Some(NewRow(row.newer.value, now)) else None
      else if row.newer.None? || HasActiveRun(runs, t) then Some(row)
      else if row.status.Exhausted? then
        Some(row.(status := Due, attempts := 0, retryAt := None, lastError := "", newer := None, updatedAt := now))
      else Some(row.(newer := None, updatedAt := now))
  {
    PaidIsLatest(runs, t, row.dueAt);
    ActiveStartIsEarliest(runs, t);
    var paid := PaidStart(runs, t, row.dueAt);
    if paid.Some? && row.newer.Some? {
      var id :| Succeeded(runs, t, id) && runs[id].startedAt == paid.value;
      assert StaysOwed(runs, t, row.newer) <==> paid.value < row.newer.value;
    }
  }

  /** A dispatched row follows its run: it stands while the run is active, is due again as it was if the run is gone, ends
      with a cancelled one, and is paid by a successful one up to its follow-up. The rest of what a failed run does to it
      is FailedWorkMayRestartIff of Blocking. */
  lemma ADispatchedRowFollowsItsRun(tasks: map<int, Task>, runs: map<int, Run>, t: int, row: Row, now: int)
    requires t in tasks && row.status.Dispatched?
    ensures var after := Settle(tasks, runs, t, row, now);
      if row.runId.None? || row.runId.value !in runs then after == Some(row.(status := Due, runId := None))
      else
        var run := runs[row.runId.value];
        && (run.state.Active() ==> after == Some(row))
        && (run.state.Cancelled? ==> after.None?)
        && (run.state.Success? ==> after == if row.newer.None? then None else Some(NewRow(row.newer.value, now)))
        && (run.state.Failed? ==> after == ApplyOutcome(row, run, now) && after.Some? && !after.value.status.Dispatched?)
  {
  }

  // ------------------------------------------------------------------ folding

  /** After a scan nothing up to `now` is left unfolded, even when the walk gives up. */
  lemma {:induction false} ScanFoldsEverything(cal: Calendar, db: Db, t: int, now: int)
    requires Regular(cal) && t in db.tasks && db.tasks[t].config.enabled && cal.parses(db.tasks[t].config.cron)
    ensures var after := Reconcile(cal, db, t, now);
      && after.tasks[t].baseline.Some?
      && (forall o :: Occurs(cal, db.tasks[t].config.cron, o) && after.tasks[t].baseline.value < o ==> now < o)
      && BaselineOf(db, t) <= after.tasks[t].baseline.value <= Max(BaselineOf(db, t), now)
  {
    var settled := SettleAt(db, t, now);
    assert BaselineOf(settled, t) == BaselineOf(db, t);
    var after := Reconcile(cal, db, t, now);
    FoldedMeansNoneMissed(cal, db.tasks[t].config.cron, after.tasks[t].baseline.value, now);
  }

  /** A second scan at the same instant folds nothing. */
  lemma ScanningTwiceFoldsOnce(cal: Calendar, db: Db, t: int, now: int)
    requires t in db.tasks && db.tasks[t].config.enabled && cal.parses(db.tasks[t].config.cron)
    ensures var once := Reconcile(cal, db, t, now); var twice := Reconcile(cal, once, t, now);
      twice == SettleAt(once, t, now)
  {
    ReconcileTouchesOnly(cal, db, t, now);
    var once := Reconcile(cal, db, t, now);
    var settled := SettleAt(once, t, now);
    assert FoldedUpTo(cal, db.tasks[t].config.cron, once.tasks[t].baseline.value, now);
    assert SetBaseline(settled, t, once.tasks[t].baseline.value) == settled;
  }

  /** Coalescing keeps the earliest instant: a fold changes the due instant of no standing row. */
  lemma CoalescingKeepsTheEarliest(cal: Calendar, db: Db, t: int, now: int)
    requires t in db.tasks && db.tasks[t].config.enabled && cal.parses(db.tasks[t].config.cron)
    ensures var settled := SettleAt(db, t, now); var after := Reconcile(cal, db, t, now);
      && (t in settled.rows ==> t in after.rows && after.rows[t].dueAt == settled.rows[t].dueAt
                                && (settled.rows[t].newer.Some? ==> after.rows[t].newer == settled.rows[t].newer))
      && (t !in settled.rows && t in after.rows ==>
            Some(after.rows[t].dueAt) == NextOccurrence(cal, db.tasks[t].config.cron, BaselineOf(db, t)))
  {
  }

  /** The row stands behind a run that may not cover an occurrence at `latest`: its own, or another that began before. */
  ghost predicate Behind(runs: map<int, Run>, t: int, row: Row, latest: int) {
    row.status.Dispatched?
    || (!row.status.Blocked? && exists id :: OfTask(runs, t, id) && runs[id].state.Active() && runs[id].startedAt < latest)
  }

  /** The row with occurrences `first`..`latest` as its follow-up, unless it has an earlier one: the first of them behind
      its own run, the latest behind another. */
  function WithFollowUp(row: Row, first: int, latest: int): Row {
    if row.newer.Some? then row else row.(newer := Some(if row.status.Dispatched? then first else latest))
  }

  lemma NotedIffBehind(runs: map<int, Run>, t: int, row: Row, first: int, latest: int)
    ensures Note(runs, t, row, first, Some(latest)) == if Behind(runs, t, row, latest) then Some(WithFollowUp(row, first, latest)) else None
    ensures Note(runs, t, row, first, None) == if Behind(runs, t, row, first) then Some(WithFollowUp(row, first, first)) else None
  {
    ActiveStartIsEarliest(runs, t);
    forall id | OfTask(runs, t, id) && runs[id].state.Active()
      ensures ActiveStart(runs, t).Some? && ActiveStart(runs, t).value <= runs[id].startedAt
    {
    }
  }

  /** What a fold makes of the obligation: a new one is due at the first occurrence; behind a run they become the
      follow-up; an exhausted one is tried again from the start; any other already stands for them. */
  ghost predicate FoldedInto(runs: map<int, Run>, t: int, was: Option<Row>, row: Row, first: int, latest: int, now: int) {
    if was.None? then row == NewRow(first, now)
    else if Behind(runs, t, was.value, latest) then row == WithFollowUp(was.value, first, latest).(updatedAt := now)
    else if was.value.status.Exhausted? then
      row == was.value.(status := Due, attempts := 0, retryAt := None, lastError := "", updatedAt := now)
    else row == was.value.(updatedAt := now)
  }

  /** At least `n` occurrences follow `from` up to now. */
  predicate Follow(cal: Calendar, cron: string, from: int, now: int, n: nat)
    decreases n
  {
    n == 0
    || (NextOccurrence(cal, cron, from).Some? && NextOccurrence(cal, cron, from).value <= now
        && Follow(cal, cron, NextOccurrence(cal, cron, from).value, now, n - 1))
  }

  /** `first` and `latest` are the ends of what lies in (w, now]: nothing comes before the first, and after the latest
      nothing is left. Where more than 20000 occurrences lie there, the walk gives up and `latest` is now itself. */
  ghost predicate Spans(cal: Calendar, cron: string, w: int, now: int, first: int, latest: int) {
    && Occurs(cal, cron, first) && w < first <= latest <= now
    && (forall o :: Occurs(cal, cron, o) && w < o ==> first <= o)
    && (forall o :: Occurs(cal, cron, o) && latest < o ==> now < o)
    && (if Follow(cal, cron, first, now, 20000) then latest == now else Occurs(cal, cron, latest))
  }

  lemma {:induction false} WalkEndsOnAnOccurrence(cal: Calendar, cron: string, latest: int, now: int, fuel: nat)
    requires forall x :: NextOccurrence(cal, cron, x).Some? ==> Occurs(cal, cron, NextOccurrence(cal, cron, x).value)
    requires latest <= now && Occurs(cal, cron, latest)
    ensures if Follow(cal, cron, latest, now, fuel) then Walk(cal, cron, latest, now, fuel) == now
            else Occurs(cal, cron, Walk(cal, cron, latest, now, fuel))
    decreases fuel
  {
    if fuel > 0 && !FoldedUpTo(cal, cron, latest, now) {
      WalkEndsOnAnOccurrence(cal, cron, NextOccurrence(cal, cron, latest).value, now, fuel - 1);
    }
  }

  /** What the fold of a scan leaves, by the calendar: with nothing in (w, now] it only writes the watermark down;
      otherwise the watermark moves to the latest and the obligation stands for all of them. */
  ghost predicate Folds(cal: Calendar, db: Db, after: Db, t: int, w: int, now: int)
    requires t in db.tasks
  {
    var cron := db.tasks[t].config.cron;
    if forall o :: Occurs(cal, cron, o) && w < o ==> now < o then after == SetBaseline(db, t, w)
    else
      && t in after.tasks && after.tasks[t].baseline.Some? && t in after.rows
      && var latest := after.tasks[t].baseline.value;
         after == SetBaseline(db, t, latest).(rows := db.rows[t := after.rows[t]])
         && exists first :: Spans(cal, cron, w, now, first, latest)
                            && FoldedInto(db.runs, t, RowOf(db, t), after.rows[t], first, latest, now)
  }

  lemma TheWalkSpans(cal: Calendar, cron: string, w: int, now: int, first: int)
    requires Regular(cal) && NextOccurrence(cal, cron, w) == Some(first) && first <= now
    ensures Spans(cal, cron, w, now, first, Walk(cal, cron, first, now, MAX_OCCURRENCE_SCAN))
  {
    FoldedMeansNoneMissed(cal, cron, Walk(cal, cron, first, now, MAX_OCCURRENCE_SCAN), now);
    WalkEndsOnAnOccurrence(cal, cron, first, now, MAX_OCCURRENCE_SCAN);
  }

  lemma TheRowIsFolded(db: Db, t: int, first: int, latest: int, now: int)
    ensures FoldedInto(db.runs, t, RowOf(db, t), FoldRow(db, t, first, latest, now), first, latest, now)
  {
    if t in db.rows {
      NotedIffBehind(db.runs, t, db.rows[t], first, latest);
    }
  }

  lemma FoldFromFolds(cal: Calendar, db: Db, t: int, now: int)
    requires Regular(cal) && t in db.tasks
    ensures Folds(cal, db, FoldFrom(cal, db, t, now), t, BaselineOf(db, t), now)
  {
    var cron, w := db.tasks[t].config.cron, BaselineOf(db, t);
    FoldedMeansNoneMissed(cal, cron, w, now);
    if Owes(cal, db, t, now) {
      var first := NextOccurrence(cal, cron, w).value;
      TheWalkSpans(cal, cron, w, now, first);
      TheRowIsFolded(db, t, first, Walk(cal, cron, first, now, MAX_OCCURRENCE_SCAN), now);
    }
  }

  /** A scan leaves a disabled task alone; of an enabled one it settles the obligation first and then folds everything
      from the watermark up to now. */
  lemma WhatAScanRecords(cal: Calendar, db: Db, t: int, now: int)
    requires Regular(cal) && t in db.tasks && cal.parses(db.tasks[t].config.cron)
    ensures var settled, after := SettleAt(db, t, now), Reconcile(cal, db, t, now);
      if db.tasks[t].config.enabled then Folds(cal, settled, after, t, BaselineOf(db, t), now) else after == db
  {
    if db.tasks[t].config.enabled {
      FoldFromFolds(cal, SettleAt(db, t, now), t, now);
    }
  }

  // ------------------------------------------------------------------ ticks

  /** A late tick that finds nothing owed adds an obligation exactly if every run of the task began before the watermark;
      if one has begun since, it leaves the tables alone. */
  lemma ALateTickCountsIff(cal: Calendar, db: Db, t: int, now: int)
    requires t in db.tasks && db.tasks[t].config.enabled && cal.parses(db.tasks[t].config.cron)
    requires t !in Reconcile(cal, db, t, now).rows && EarlyOccurrence(cal, Reconcile(cal, db, t, now).tasks[t], now).None?
    ensures var scanned, after := Reconcile(cal, db, t, now), RecordTick(cal, db, t, now);
      && scanned.tasks[t].baseline.Some?
      && var w := scanned.tasks[t].baseline.value;
         if forall id :: OfTask(db.runs, t, id) ==> db.runs[id].startedAt < w then
           after == SetBaseline(scanned, t, Max(w, now)).(rows := scanned.rows[t := NewRow(now, now)])
         else after == db
  {
    ReconcileTouchesOnly(cal, db, t, now);
    var w := Reconcile(cal, db, t, now).tasks[t].baseline;
    assert RunCovers(db.runs, t, w) <==> exists id :: OfTask(db.runs, t, id) && w.value <= db.runs[id].startedAt;
  }

  /** No tick is silent: afterwards an obligation stands, or a run has begun since the watermark the scan left. */
  lemma ATickIsAccountedFor(cal: Calendar, db: Db, t: int, now: int)
    requires t in db.tasks && db.tasks[t].config.enabled && cal.parses(db.tasks[t].config.cron)
    ensures t in Reconcile(cal, db, t, now).tasks && Reconcile(cal, db, t, now).tasks[t].baseline.Some?
    ensures t in RecordTick(cal, db, t, now).rows
      || exists id :: OfTask(db.runs, t, id) && Reconcile(cal, db, t, now).tasks[t].baseline.value <= db.runs[id].startedAt
  {
    ReconcileTouchesOnly(cal, db, t, now);
    if t !in Reconcile(cal, db, t, now).rows && EarlyOccurrence(cal, Reconcile(cal, db, t, now).tasks[t], now).None? {
      ALateTickCountsIff(cal, db, t, now);
    }
  }

  /** A tick a hair early stands for the next occurrence: without an obligation it makes one, due at once; behind a run
      that may not cover the occurrence it is the follow-up; any other obligation stands for it as it is. */
  lemma WhatAnEarlyTickRecords(cal: Calendar, db: Db, t: int, now: int, o: int)
    requires t in db.tasks && db.tasks[t].config.enabled && cal.parses(db.tasks[t].config.cron)
    requires EarlyOccurrence(cal, Reconcile(cal, db, t, now).tasks[t], now) == Some(o)
    ensures var scanned, after := Reconcile(cal, db, t, now), RecordTick(cal, db, t, now);
      && t in after.rows && after == SetBaseline(scanned, t, o).(rows := scanned.rows[t := after.rows[t]])
      && after.rows[t] == (if t !in scanned.rows then NewRow(now, now)
                           else if Behind(db.runs, t, scanned.rows[t], o) then WithFollowUp(scanned.rows[t], o, o)
                           else scanned.rows[t])
  {
    ReconcileTouchesOnly(cal, db, t, now);
    var scanned := Reconcile(cal, db, t, now);
    if t in scanned.rows {
      NotedIffBehind(db.runs, t, scanned.rows[t], o, o);
    }
  }

  /** And it takes that occurrence out of every later scan. */
  lemma AnEarlyTickCountsOnce(cal: Calendar, db: Db, t: int, now: int, o: int)
    requires Regular(cal) && t in db.tasks && db.tasks[t].config.enabled && cal.parses(db.tasks[t].config.cron)
    requires EarlyOccurrence(cal, Reconcile(cal, db, t, now).tasks[t], now) == Some(o)
    ensures var after := RecordTick(cal, db, t, now);
      && t in after.rows && after.tasks[t].baseline == Some(o) && now <= o <= now + TICK_EARLY_TOLERANCE
      && forall later :: o <= later && Owes(cal, after, t, later)
           ==> o < NextOccurrence(cal, db.tasks[t].config.cron, o).value <= later
  {
    ReconcileTouchesOnly(cal, db, t, now);
  }

  /** Whether a tick is early is decided by the watermark its scan leaves: the next occurrence after it lies no more than a
      second ahead. */
  lemma EarlyIff(cal: Calendar, task: Task, now: int, o: int)
    requires Regular(cal)
    ensures EarlyOccurrence(cal, task, now) == Some(o)
       <==> task.baseline.Some? && Occurs(cal, task.config.cron, o) && task.baseline.value < o && now <= o <= now + 1_000_000
            && forall other :: Occurs(cal, task.config.cron, other) && task.baseline.value < other ==> o <= other
  {
  }

  /** What a tick does not do: it writes nothing for a task that is gone or disabled; and one that is not early and finds an
      obligation leaves what its scan leaves, if the scan folded anything, and otherwise not even that, because nothing is
      committed. */
  lemma WhereATickAddsNothing(cal: Calendar, db: Db, t: int, now: int)
    ensures t !in db.tasks || !db.tasks[t].config.enabled ==> RecordTick(cal, db, t, now) == db
    ensures
      && t in db.tasks && db.tasks[t].config.enabled && cal.parses(db.tasks[t].config.cron)
      && t in Reconcile(cal, db, t, now).rows && EarlyOccurrence(cal, Reconcile(cal, db, t, now).tasks[t], now).None?
      ==> RecordTick(cal, db, t, now) == if FoldedUpTo(cal, db.tasks[t].config.cron, BaselineOf(db, t), now) then db
                                         else Reconcile(cal, db, t, now)
  {
  }

  /** The late callback of an occurrence already on record adds nothing and changes nothing. */
  lemma AnEchoChangesNothing(cal: Calendar, db: Db, t: int, now: int)
    requires t in db.tasks && t in db.rows && cal.parses(db.tasks[t].config.cron) && db.tasks[t].baseline.Some?
    requires Settle(db.tasks, db.runs, t, db.rows[t], now) == Some(db.rows[t])
    requires !Owes(cal, db, t, now) && EarlyOccurrence(cal, db.tasks[t], now).None?
    ensures RecordTick(cal, db, t, now) == db
  {
  }

  // ------------------------------------------------------------------ exhausted rows

  /** An exhausted obligation that no success has paid, with no run to wait for and no marker. */
  ghost predicate GivenUp(db: Db, t: int) {
    && t in db.tasks && db.tasks[t].config.enabled && t in db.rows && db.rows[t].status.Exhausted?
    && db.rows[t].newer.None? && UnpaidSince(db.runs, t, db.rows[t].dueAt) && !HasActiveRun(db.runs, t)
  }

  /** A tick re-arms an exhausted obligation exactly when an occurrence has come by then. A tick that is a hair early
      for its occurrence moves the watermark over it and leaves the obligation exhausted: the retries promised "until
      the next normal tick" wait for the occurrence after that. */
  lemma ATickRearmsIff(cal: Calendar, db: Db, t: int, now: int)
    requires GivenUp(db, t) && cal.parses(db.tasks[t].config.cron)
    ensures var after := RecordTick(cal, db, t, now);
      && t in after.rows
      && (after.rows[t].status.Due? <==> Owes(cal, db, t, now))
      && (!Owes(cal, db, t, now) ==> after.rows[t] == db.rows[t])
  {
    ActiveStartIsEarliest(db.runs, t);
    ReconcileTouchesOnly(cal, db, t, now);
  }

  /** For such a tick: the occurrence is behind the watermark afterwards and the obligation still exhausted. */
  lemma AnEarlyTickDoesNotRearm(cal: Calendar, db: Db, t: int, now: int, o: int)
    requires GivenUp(db, t) && cal.parses(db.tasks[t].config.cron) && db.tasks[t].baseline.Some?
    requires now < o && EarlyOccurrence(cal, db.tasks[t], now) == Some(o)
    ensures var after := RecordTick(cal, db, t, now);
      t in after.tasks && t in after.rows && after.tasks[t].baseline == Some(o) && after.rows[t].status.Exhausted?
  {
    ATickRearmsIff(cal, db, t, now);
    assert SetBaseline(db, t, BaselineOf(db, t)) == db;
  }
}

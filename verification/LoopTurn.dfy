/** A turn of the dispatcher's loop: scan every schedule, then dispatch. What it starts is settled, folded and carries no
    follow-up; what becomes of that until the execution begins is the subject of LoopTrace. */
module LoopTurn {
  import opened Prelude
  import opened Records
  import opened Schedule
  import opened DueWork
  import opened Dispatching
  import opened Protocol
  import opened DebtInvariant
  import opened DebtSteps
  import opened PassFacts
  import opened Fairness
  import opened NoLoss
  import opened Soundness
  import opened Ledgers

  /** `reconcile_all` over the tasks listed in `order`. */
  function ReconcileEach(cal: Calendar, db: Db, order: seq<int>, now: int): (after: Db)
    requires forall k :: 0 <= k < |order| ==> order[k] in db.tasks
    ensures after.tasks.Keys == db.tasks.Keys && after.runs == db.runs
    decreases |order|
  {
    if order == [] then db
    else Reconcile(cal, ReconcileEach(cal, db, order[..|order| - 1], now), order[|order| - 1], now)
  }

  /** Scanning one schedule reads nothing of any other task. */
  lemma ReconcileIsLocal(cal: Calendar, db: Db, other: Db, t: int, now: int)
    requires t in db.tasks && t in other.tasks && db.tasks[t] == other.tasks[t] && db.runs == other.runs
    requires RowOf(db, t) == RowOf(other, t)
    ensures var here, there := Reconcile(cal, db, t, now), Reconcile(cal, other, t, now);
      here.tasks[t] == there.tasks[t] && RowOf(here, t) == RowOf(there, t)
  {
    if db.tasks[t].config.enabled && cal.parses(db.tasks[t].config.cron) {
      var here, there := SettleAt(db, t, now), SettleAt(other, t, now);
      assert RowOf(here, t) == RowOf(there, t);
      FoldIsLocal(cal, here, there, t, now);
    }
  }

  lemma FoldIsLocal(cal: Calendar, db: Db, other: Db, t: int, now: int)
    requires t in db.tasks && t in other.tasks && db.tasks[t] == other.tasks[t] && db.runs == other.runs
    requires RowOf(db, t) == RowOf(other, t)
    ensures var here, there := FoldFrom(cal, db, t, now), FoldFrom(cal, other, t, now);
      here.tasks[t] == there.tasks[t] && RowOf(here, t) == RowOf(there, t)
  {
  }

  /** Each listed task ends up as if it had been scanned alone. */
  lemma {:induction false} EachIsScanned(cal: Calendar, db: Db, order: seq<int>, now: int, t: int)
    requires (forall k :: 0 <= k < |order| ==> order[k] in db.tasks) && Distinct(order) && t in db.tasks
    ensures var after := ReconcileEach(cal, db, order, now);
      if t in order then
        after.tasks[t] == Reconcile(cal, db, t, now).tasks[t] && RowOf(after, t) == RowOf(Reconcile(cal, db, t, now), t)
      else after.tasks[t] == db.tasks[t] && RowOf(after, t) == RowOf(db, t)
    decreases |order|
  {
    if order != [] {
      var front, last := order[..|order| - 1], order[|order| - 1];
      EachIsScanned(cal, db, front, now, t);
      var before := ReconcileEach(cal, db, front, now);
      ReconcileTouchesOnly(cal, before, last, now);
      if t == last {
        assert t !in front;
        ReconcileIsLocal(cal, before, db, t, now);
      } else {
        assert t in order <==> t in front;
        assert RowOf(Reconcile(cal, before, last, now), t) == RowOf(before, t);
      }
    }
  }

  /** The tasks of `order` that have an obligation. */
  function Owing(db: Db, order: seq<int>): set<int> {
    set t | t in order && t in db.rows
  }

  lemma OthersOweAsBefore(db: Db, after: Db, front: seq<int>, t: int)
    requires t !in front && t in db.tasks && TouchesOnly(db, after, t)
    ensures Owing(after, front) == Owing(db, front)
  {
    forall u | u in front
      ensures u in after.rows <==> u in db.rows
    {
      assert u != t;
    }
  }

  lemma OwingExtends(db: Db, front: seq<int>, t: int)
    requires t !in front
    ensures |Owing(db, front + [t])| == |Owing(db, front)| + if t in db.rows then 1 else 0
  {
    assert Owing(db, front + [t]) == Owing(db, front) + if t in db.rows then {t} else {};
  }

  ghost predicate ScannedSoFar(cal: Calendar, start: Db, db: Db, order: seq<int>, i: int, now: int, owed: nat) {
    && 0 <= i <= |order| && (forall k :: 0 <= k < |order| ==> order[k] in start.tasks)
    && db == ReconcileEach(cal, start, order[..i], now) && owed == |Owing(db, order[..i])|
  }

  lemma NothingScannedYet(cal: Calendar, start: Db, order: seq<int>, now: int)
    requires forall k :: 0 <= k < |order| ==> order[k] in start.tasks
    ensures ScannedSoFar(cal, start, start, order, 0, now, 0)
  {
    assert order[..0] == [] && Owing(start, []) == {};
  }

  lemma AllScanned(cal: Calendar, start: Db, db: Db, order: seq<int>, now: int, owed: nat)
    requires ScannedSoFar(cal, start, db, order, |order|, now, owed)
    ensures db == ReconcileEach(cal, start, order, now) && owed == |Owing(db, order)|
  {
    assert order[..|order|] == order;
  }

  lemma OneMoreScanned(cal: Calendar, start: Db, before: Db, order: seq<int>, i: nat, now: int, owed: nat)
    requires i < |order| && Distinct(order) && ScannedSoFar(cal, start, before, order, i, now, owed)
    ensures order[i] in before.tasks
    ensures var after := Reconcile(cal, before, order[i], now);
      ScannedSoFar(cal, start, after, order, i + 1, now, owed + if order[i] in after.rows then 1 else 0)
  {
    var t, after := order[i], Reconcile(cal, before, order[i], now);
    assert t !in order[..i];
    assert order[..i + 1] == order[..i] + [t] && (order[..i] + [t])[..i] == order[..i];
    ReconcileTouchesOnly(cal, before, t, now);
    OthersOweAsBefore(before, after, order[..i], t);
    OwingExtends(after, order[..i], t);
  }

  /** `reconcile_all` as it runs over the enabled tasks; it answers how many of them owe work. */
  method ReconcileAll(ledger: Ledger, order: seq<int>, now: int) returns (owed: nat)
    requires Distinct(order)
    requires forall k :: 0 <= k < |order| ==> order[k] in ledger.tasks && ledger.tasks[order[k]].config.enabled
    modifies ledger`tasks, ledger`rows
    ensures ledger.Tables() == ReconcileEach(ledger.cal, old(ledger.Tables()), order, now)
    ensures owed == |Owing(ledger.Tables(), order)|
  {
    ghost var start := ledger.Tables();
    NothingScannedYet(ledger.cal, start, order, now);
    owed := 0;
    var i := 0;
    while i < |order|
      invariant ScannedSoFar(ledger.cal, start, ledger.Tables(), order, i, now, owed)
    {
      OneMoreScanned(ledger.cal, start, ledger.Tables(), order, i, now, owed);
      ledger.ReconcileTask(order[i], now);
      owed := owed + if order[i] in ledger.rows then 1 else 0;
      i := i + 1;
    }
    AllScanned(ledger.cal, start, ledger.Tables(), order, now, owed);
  }

  // ------------------------------------------------------------------ what a turn starts

  /** A dispatched row's run is active, or there is nothing left to wait for. */
  ghost predicate SettledOnce(tasks: map<int, Task>, runs: map<int, Run>, t: int, row: Row) {
    row.status.Dispatched? ==> row.runId.Some? && row.runId.value in runs && runs[row.runId.value].state.Active()
  }

  lemma FirstSettle(tasks: map<int, Task>, runs: map<int, Run>, t: int, row: Row, now: int)
    ensures Settle(tasks, runs, t, row, now).Some? ==> SettledOnce(tasks, runs, t, Settle(tasks, runs, t, row, now).value)
  {
  }

  lemma FoldLeavesSettled(cal: Calendar, db: Db, t: int, now: int)
    requires t in db.tasks && (t in db.rows ==> SettledOnce(db.tasks, db.runs, t, db.rows[t]))
    ensures var after := FoldFrom(cal, db, t, now);
      t in after.rows ==> SettledOnce(after.tasks, after.runs, t, after.rows[t])
  {
  }

  /** Settled, folded and settled again, a row that could start carries no follow-up. */
  lemma SecondSettleClearsTheMarker(tasks: map<int, Task>, runs: map<int, Run>, t: int, row: Row, now: int)
    requires t in tasks && SettledOnce(tasks, runs, t, row) && !HasActiveRun(runs, t)
    requires row.status.Dispatched? ==> runs[row.runId.value].task == t
    ensures var after := Settle(tasks, runs, t, row, now);
      after.Some? && (after.value.status.Due? || after.value.status.Retry?) ==> after.value.newer.None?
  {
  }

  /** After the second settling, what the pass starts stands at rest. */
  lemma StartedAtRest(folded: Db, settled: Db, p: Pass, t: int, now: int)
    requires settled == SettleAll(folded, now) && PassInv(settled, p, now) && WasStarted(settled, p, t)
    requires t in folded.rows ==> SettledOnce(folded.tasks, folded.runs, t, folded.rows[t])
                                  && (folded.rows[t].status.Dispatched? ==> folded.runs[folded.rows[t].runId.value].task == t)
    ensures t in folded.tasks && folded.tasks[t].config.enabled
    ensures AtRest(Db(settled.tasks, p.runs, p.rows), t, now)
  {
    assert RowOutcome(settled, p, t, now);
    SecondSettleClearsTheMarker(folded.tasks, folded.runs, t, folded.rows[t], now);
  }

  /** Scanned alone, an enabled task is folded up to now and its row is settled. */
  lemma ScannedAlone(cal: Calendar, db: Db, t: int, now: int)
    requires t in db.tasks && db.tasks[t].config.enabled && cal.parses(db.tasks[t].config.cron)
    requires t in db.rows ==> NamesOwnRun(db.runs, t, db.rows[t])
    ensures var after := Reconcile(cal, db, t, now);
      && after.tasks[t].baseline.Some? && after.tasks[t].config == db.tasks[t].config
      && FoldedUpTo(cal, after.tasks[t].config.cron, after.tasks[t].baseline.value, now)
      && (t in after.rows ==> SettledOnce(after.tasks, after.runs, t, after.rows[t])
                              && (after.rows[t].status.Dispatched? ==> db.runs[after.rows[t].runId.value].task == t))
  {
    var settled := SettleAt(db, t, now);
    if t in db.rows {
      FirstSettle(db.tasks, db.runs, t, db.rows[t], now);
      assert RowOf(settled, t) == Settle(db.tasks, db.runs, t, db.rows[t], now);
    }
    FoldLeavesSettled(cal, settled, t, now);
  }
}

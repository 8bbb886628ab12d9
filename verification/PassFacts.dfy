/** What a dispatch pass may change, row by row and run by run. */
module PassFacts {
  import opened Prelude
  import opened Records
  import opened DueWork
  import opened Dispatching

  /** At most one pending or running run per source. */
  ghost predicate SoleActive(tasks: map<int, Task>, runs: map<int, Run>) {
    forall i, j :: ActiveAt(tasks, runs, i) && ActiveAt(tasks, runs, j) && i != j
      ==> tasks[runs[i].task].config.sourceId != tasks[runs[j].task].config.sourceId
  }

  ghost predicate ActiveAt(tasks: map<int, Task>, runs: map<int, Run>, id: int) {
    id in runs && runs[id].state.Active() && runs[id].task in tasks
  }

  /** Only the reason shown for waiting differs. */
  ghost predicate SameDebt(before: Row, after: Row) {
    after == before.(waitReason := after.waitReason, updatedAt := after.updatedAt)
  }

  /** The obligation was handed to a run created by this pass, while its task and source were idle. */
  ghost predicate HandedOver(db: Db, p: Pass, t: int, now: int)
    requires t in db.rows && t in p.rows
  {
    var before, after := db.rows[t], p.rows[t];
    && Eligible(before, now) && t in db.tasks && db.tasks[t].config.enabled
    && after.runId.Some? && after.runId.value in p.runs && after.runId.value !in db.runs
    && p.runs[after.runId.value] == PendingRun(t, now)
    && after == before.(status := Dispatched, runId := after.runId, waitReason := None, retryAt := None, updatedAt := now)
    && !HasActiveRun(db.runs, t)
  }

  ghost predicate RowOutcome(db: Db, p: Pass, t: int, now: int)
    requires t in db.rows
  {
    if t in p.rows then SameDebt(db.rows[t], p.rows[t]) || HandedOver(db, p, t, now)
    else t in db.tasks && !db.tasks[t].config.enabled && !db.rows[t].status.Dispatched?
  }

  ghost predicate PassInv(db: Db, p: Pass, now: int) {
    && (forall id :: id in db.runs ==> id in p.runs && p.runs[id] == db.runs[id])
    && (forall id :: id in p.runs && id !in db.runs ==>
          p.runs[id] == PendingRun(p.runs[id].task, now) && p.runs[id].task in db.tasks && id in p.started)
    && (forall id :: id in p.started ==> id in p.runs && id !in db.runs)
    && p.rows.Keys <= db.rows.Keys
    && (forall t :: t in db.rows ==> RowOutcome(db, p, t, now))
    && (forall id :: ActiveAt(db.tasks, p.runs, id) ==>
          p.runs[id].task in p.activeTasks && db.tasks[p.runs[id].task].config.sourceId in p.activeSources)
  }

  lemma OpenFacts(db: Db, now: int)
    ensures PassInv(db, Open(db), now)
  {
  }

  lemma StartFacts(db: Db, p: Pass, t: int, now: int)
    requires PassInv(db, p, now) && t in db.rows && t in p.rows && p.rows[t] == db.rows[t]
    requires t in db.tasks && db.tasks[t].config.enabled && Eligible(db.rows[t], now) && t !in p.activeTasks
    requires db.tasks[t].config.sourceId !in p.activeSources
    ensures PassInv(db, Start(p, t, db.tasks[t], now), now)
    ensures SoleActive(db.tasks, p.runs) ==> SoleActive(db.tasks, Start(p, t, db.tasks[t], now).runs)
  {
    var q := Start(p, t, db.tasks[t], now);
    var id := NextId(p.runs);
    forall k | ActiveAt(db.tasks, db.runs, k)
      ensures db.runs[k].task != t
    {
      assert ActiveAt(db.tasks, p.runs, k);
    }
    assert forall k :: k in db.runs && db.runs[k].state.Active() && db.runs[k].task in db.tasks ==> ActiveAt(db.tasks, db.runs, k);
    assert HandedOver(db, q, t, now);
    forall u | u in db.rows && u != t
      ensures RowOutcome(db, q, u, now)
    {
      assert RowOutcome(db, p, u, now);
      if u in p.rows {
        assert q.rows[u] == p.rows[u];
      }
    }
    forall k | ActiveAt(db.tasks, q.runs, k)
      ensures q.runs[k].task in q.activeTasks && db.tasks[q.runs[k].task].config.sourceId in q.activeSources
      ensures k != id ==> ActiveAt(db.tasks, p.runs, k)
    {
      if k != id {
        assert ActiveAt(db.tasks, p.runs, k);
      }
    }
  }

  lemma HoldFacts(db: Db, p: Pass, t: int, reason: WaitReason, now: int)
    requires PassInv(db, p, now) && t in db.rows && t in p.rows && p.rows[t] == db.rows[t] && t in db.tasks
    ensures PassInv(db, Hold(p, t, db.tasks[t], reason, now), now)
  {
  }

  lemma VisitFacts(db: Db, sources: set<int>, limit: int, p: Pass, t: int, now: int)
    requires PassInv(db, p, now) && t in db.rows && t in p.rows && p.rows[t] == db.rows[t]
    ensures PassInv(db, Visit(db.tasks, sources, limit, p, t, now), now)
    ensures SoleActive(db.tasks, p.runs) ==> SoleActive(db.tasks, Visit(db.tasks, sources, limit, p, t, now).runs)
    ensures forall u :: u in p.rows && u != t ==>
      u in Visit(db.tasks, sources, limit, p, t, now).rows && Visit(db.tasks, sources, limit, p, t, now).rows[u] == p.rows[u]
  {
    var row := p.rows[t];
    if !row.status.Dispatched? && t in db.tasks && !db.tasks[t].config.enabled {
    } else if !Eligible(row, now) || t !in db.tasks || db.tasks[t].config.sourceId !in sources {
    } else {
      var reason := Reason(p, t, db.tasks[t], limit);
      if reason.Some? {
        HoldFacts(db, p, t, reason.value, now);
      } else {
        StartFacts(db, p, t, now);
      }
    }
  }

  lemma {:induction false} RunPassFacts(db: Db, sources: set<int>, limit: int, p: Pass, order: seq<int>, now: int)
    requires PassInv(db, p, now) && Distinct(order)
    requires forall t :: t in order ==> t in db.rows && t in p.rows && p.rows[t] == db.rows[t]
    ensures PassInv(db, RunPass(db.tasks, sources, limit, p, order, now), now)
    ensures SoleActive(db.tasks, p.runs) ==> SoleActive(db.tasks, RunPass(db.tasks, sources, limit, p, order, now).runs)
    decreases |order|
  {
    if order != [] {
      var t := order[0];
      VisitFacts(db, sources, limit, p, t, now);
      RunPassFacts(db, sources, limit, Visit(db.tasks, sources, limit, p, t, now), order[1..], now);
    }
  }

  /** Everything a pass over settled tables may do, and one active run per source afterwards. */
  lemma PassChangesOnly(db: Db, sources: set<int>, limit: int, order: seq<int>, now: int)
    requires ByAge(db.rows, order)
    ensures PassInv(db, DispatchPass(db, sources, limit, order, now), now)
    ensures SoleActive(db.tasks, db.runs) ==> SoleActive(db.tasks, DispatchPass(db, sources, limit, order, now).runs)
  {
    OpenFacts(db, now);
    RunPassFacts(db, sources, limit, Open(db), order, now);
  }
}

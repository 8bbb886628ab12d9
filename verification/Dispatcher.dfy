/** `dispatch_due` as it runs: one loop over the retained obligations, oldest first, in place on the tables. */
module Dispatchers {
  import opened Prelude
  import opened Records
  import opened DueWork
  import opened Dispatching
  import opened Ledgers

  /** The run's task still exists. */
  predicate Attached(db: Db, id: int) {
    id in db.runs && db.runs[id].task in db.tasks
  }

  function TasksOf(db: Db, ids: set<int>): set<int> {
    set id | id in ids && Attached(db, id) :: db.runs[id].task
  }

  function SourcesOf(db: Db, ids: set<int>): set<int> {
    set id | id in ids && Attached(db, id) :: db.tasks[db.runs[id].task].config.sourceId
  }

  function DestsOf(db: Db, ids: set<int>): set<Key> {
    set id | id in ids && Attached(db, id) && db.tasks[db.runs[id].task].config.destination.Some?
      :: db.tasks[db.runs[id].task].config.destination.value
  }

  lemma OneMoreDestination(db: Db, ids: set<int>, id: int)
    ensures DestsOf(db, ids + {id})
         == With(DestsOf(db, ids), if Attached(db, id) then db.tasks[db.runs[id].task].config.destination else None)
  {
  }

  class Dispatcher {
    const ledger: Ledger
    const limit: int

    constructor (ledger: Ledger, limit: int)
      ensures this.ledger == ledger && this.limit == limit
    {
      this.ledger := ledger;
      this.limit := limit;
    }

    /** Scopes in use by the active runs listed in `active`. */
    method ActiveScopes(active: seq<int>) returns (tasks: set<int>, sources: set<int>, dests: set<Key>)
      requires forall id :: id in active <==> id in ActiveIds(ledger.runs)
      ensures tasks == Open(ledger.Tables()).activeTasks
      ensures sources == Open(ledger.Tables()).activeSources
      ensures dests == Open(ledger.Tables()).dests
    {
      tasks, sources, dests := {}, {}, {};
      var db := ledger.Tables();
      ghost var seen: set<int> := {};
      var i := 0;
      while i < |active|
        invariant 0 <= i <= |active|
        invariant forall id :: id in seen <==> id in active[..i]
        invariant tasks == TasksOf(db, seen) && sources == SourcesOf(db, seen) && dests == DestsOf(db, seen)
      {
        var id := active[i];
        assert id in active;
        assert id in ActiveIds(db.runs);
        var t := db.runs[id].task;
        OneMoreDestination(db, seen, id);
        if t in db.tasks {
          tasks := tasks + {t};
          sources := sources + {db.tasks[t].config.sourceId};
          dests := With(dests, db.tasks[t].config.destination);
        }
        seen := seen + {id};
        i := i + 1;
      }
      assert active[..i] == active;
      forall id
        ensures id in seen <==> id in ActiveIds(db.runs)
      {
        assert id in active[..i] <==> id in active;
      }
      assert seen == ActiveIds(db.runs);
    }

    /** One obligation of the walk: drop it, leave it, make it wait and claim its scopes, or start it. */
    method Consider(t: int, sources: set<int>, now: int, tasks0: set<int>, sources0: set<int>, dests0: set<Key>,
                    heldSources0: set<int>, heldDests0: set<Key>, count0: nat, started0: seq<int>)
        returns (activeTasks: set<int>, activeSources: set<int>, dests: set<Key>,
                 claimedSources: set<int>, claimedDests: set<Key>, count: nat, started: seq<int>)
      requires t in ledger.rows
      modifies ledger`runs, ledger`rows
      ensures Pass(ledger.runs, ledger.rows, activeTasks, activeSources, dests, claimedSources, claimedDests, count, started)
           == Visit(ledger.tasks, sources, limit,
                    Pass(old(ledger.runs), old(ledger.rows), tasks0, sources0, dests0, heldSources0, heldDests0, count0, started0), t, now)
    {
      activeTasks, activeSources, dests := tasks0, sources0, dests0;
      claimedSources, claimedDests, count, started := heldSources0, heldDests0, count0, started0;
      var row := ledger.rows[t];
      if !row.status.Dispatched? && t in ledger.tasks && !ledger.tasks[t].config.enabled {
        ledger.rows := ledger.rows - {t};
        return;
      }
      if !Eligible(row, now) || t !in ledger.tasks || ledger.tasks[t].config.sourceId !in sources {
        return;
      }
      var task := ledger.tasks[t];
      var source := task.config.sourceId;
      var key := ClaimKey(task);
      var reason: Option<WaitReason> := None;
      if t in activeTasks {
        reason := Some(TaskActive);
      } else if source in activeSources || source in claimedSources {
        reason := Some(SourceBusy);
      } else if ConflictsWithAny(key, dests + claimedDests) {
        reason := Some(DestinationBusy);
      } else if count >= limit {
        reason := Some(WaitReason.Capacity);
      }
      if reason.Some? {
        claimedSources := claimedSources + {source};
        claimedDests := With(claimedDests, key);
        if row.waitReason != reason {
          row := row.(waitReason := reason, updatedAt := now);
        }
        ledger.rows := ledger.rows[t := row];
        return;
      }
      var id := NextId(ledger.runs);
      ledger.runs := ledger.runs[id := PendingRun(t, now)];
      row := row.(status := Dispatched, runId := Some(id), waitReason := None);
      row := row.(retryAt := None, updatedAt := now);
      ledger.rows := ledger.rows[t := row];
      activeTasks := activeTasks + {t};
      activeSources := activeSources + {source};
      dests := With(dests, key);
      count := count + 1;
      started := started + [id];
    }

    /** Settle everything, then walk the obligations. The three sequences are what the selects answer:
        the obligations in any order, the active runs, and the settled obligations by age. */
    method DispatchDue(unordered: seq<int>, active: seq<int>, byAge: seq<int>, sources: set<int>, now: int)
        returns (started: seq<int>)
      requires forall t :: t in unordered <==> t in ledger.rows
      requires forall i, j :: 0 <= i < j < |unordered| ==> unordered[i] != unordered[j]
      requires forall id :: id in active <==> id in ActiveIds(ledger.runs)
      requires Distinct(active) && ByAge(SettleAll(ledger.Tables(), now).rows, byAge)
      modifies ledger
      ensures var p := DispatchPass(SettleAll(old(ledger.Tables()), now), sources, limit, byAge, now);
        ledger.Tables() == Db(old(ledger.tasks), p.runs, p.rows) && started == p.started
    {
      ledger.SettleAllRows(unordered, now);
      ghost var settled := ledger.Tables();
      ghost var end := DispatchPass(settled, sources, limit, byAge, now);
      var activeTasks, activeSources, dests := ActiveScopes(active);
      var count: nat := |active|;
      CountIsActive(active, ledger.runs);
      var claimedSources: set<int>, claimedDests: set<Key> := {}, {};
      started := [];
      ghost var p := Open(settled);
      WalkOpens(settled, sources, limit, byAge, now);
      var i := 0;
      while i < |byAge|
        invariant 0 <= i <= |byAge| && ledger.tasks == settled.tasks
        invariant p == Pass(ledger.runs, ledger.rows, activeTasks, activeSources, dests, claimedSources, claimedDests, count, started)
        invariant WalkLeads(settled.tasks, sources, limit, p, byAge, i, now, end)
      {
        var t := byAge[i];
        OneVisit(settled.tasks, sources, limit, p, byAge, i, now, end);
        ghost var next := Visit(settled.tasks, sources, limit, p, t, now);
        activeTasks, activeSources, dests, claimedSources, claimedDests, count, started :=
          Consider(t, sources, now, activeTasks, activeSources, dests, claimedSources, claimedDests, count, started);
        p := next;
        i := i + 1;
      }
      WalkEnds(settled.tasks, sources, limit, p, byAge, now, end);
    }
  }

  /** The obligations from `i` on are still there, each once, and visiting them leads from `p` to `end`. */
  ghost predicate WalkLeads(tasks: map<int, Task>, sources: set<int>, limit: int, p: Pass, byAge: seq<int>, i: int, now: int, end: Pass) {
    && 0 <= i <= |byAge| && Distinct(byAge[i..]) && (forall t :: t in byAge[i..] ==> t in p.rows)
    && RunPass(tasks, sources, limit, p, byAge[i..], now) == end
  }

  lemma WalkOpens(settled: Db, sources: set<int>, limit: int, byAge: seq<int>, now: int)
    requires Distinct(byAge) && forall t :: t in byAge ==> t in settled.rows
    ensures WalkLeads(settled.tasks, sources, limit, Open(settled), byAge, 0, now, DispatchPass(settled, sources, limit, byAge, now))
  {
    assert byAge[0..] == byAge;
  }

  lemma OneVisit(tasks: map<int, Task>, sources: set<int>, limit: int, p: Pass, byAge: seq<int>, i: int, now: int, end: Pass)
    requires i < |byAge| && WalkLeads(tasks, sources, limit, p, byAge, i, now, end)
    ensures byAge[i] in p.rows
    ensures WalkLeads(tasks, sources, limit, Visit(tasks, sources, limit, p, byAge[i], now), byAge, i + 1, now, end)
  {
    assert byAge[i] in byAge[i..];
  }

  lemma WalkEnds(tasks: map<int, Task>, sources: set<int>, limit: int, p: Pass, byAge: seq<int>, now: int, end: Pass)
    requires WalkLeads(tasks, sources, limit, p, byAge, |byAge|, now, end)
    ensures p == end
  {
  }

  lemma {:induction false} CountIsActive(active: seq<int>, runs: map<int, Run>)
    requires Distinct(active) && forall id :: id in active <==> id in ActiveIds(runs)
    ensures |active| == |ActiveIds(runs)|
  {
    ListedOnce(active);
    forall id
      ensures id in (set x | x in active) <==> id in ActiveIds(runs)
    {
    }
    assert (set x | x in active) == ActiveIds(runs);
  }

  lemma {:induction false} ListedOnce(s: seq<int>)
    requires Distinct(s)
    ensures |set x | x in s| == |s|
  {
    if s != [] {
      var front := s[..|s| - 1];
      ListedOnce(front);
      assert (set x | x in s) == (set x | x in front) + {s[|s| - 1]};
    }
  }
}

/** What a dispatch pass decides of every row, told from the tables before it and the decisions on older rows alone. */
module Verdicts {
  import opened Prelude
  import opened Records
  import opened DueWork
  import opened Dispatching
  import opened PassFacts
  import opened Fairness
  import Execution

  // ------------------------------------------------------------------ who has a scope, by the tables

  /** The obligation asks to be started: its task is enabled, its source exists, and it is due or its retry instant, if it
      has one, has come. */
  predicate Asks(db: Db, sources: set<int>, t: int, now: int) {
    && t in db.rows && t in db.tasks && db.tasks[t].config.enabled && db.tasks[t].config.sourceId in sources
    && (db.rows[t].status.Due? || (db.rows[t].status.Retry? && (db.rows[t].retryAt.Some? ==> db.rows[t].retryAt.value <= now)))
  }

  /** Among the first `k` rows, row `j` asks for source `s`: it starts, or it waits and nobody younger may pass it. */
  predicate AsksForSource(db: Db, sources: set<int>, order: seq<int>, now: int, k: int, j: int, s: int) {
    0 <= j < k <= |order| && Asks(db, sources, order[j], now) && db.tasks[order[j]].config.sourceId == s
  }

  /** It asks for destination `key`; one that does not validate is asked for by nobody. */
  predicate AsksForKey(db: Db, sources: set<int>, order: seq<int>, now: int, k: int, j: int, key: Key) {
    && 0 <= j < k <= |order| && Asks(db, sources, order[j], now)
    && db.tasks[order[j]].config.destinationValid && db.tasks[order[j]].config.destination == Some(key)
  }

  ghost predicate TaskTaken(db: Db, t: int) {
    exists id :: RunsTask(db, db.runs, id, t)
  }

  ghost predicate SourceTaken(db: Db, sources: set<int>, order: seq<int>, now: int, k: int, s: int) {
    (exists id :: RunsSource(db, db.runs, id, s)) || exists j :: AsksForSource(db, sources, order, now, k, j, s)
  }

  /** An active run writes to `key`, or one of the first `k` rows asks for it. */
  ghost predicate KeyTaken(db: Db, sources: set<int>, order: seq<int>, now: int, k: int, key: Key) {
    (exists id :: WritesTo(db, db.runs, id, key)) || exists j :: AsksForKey(db, sources, order, now, k, j, key)
  }

  /** The destination validates and overlaps one that is taken. */
  ghost predicate Overlaps(db: Db, sources: set<int>, order: seq<int>, now: int, k: int, config: Config) {
    && config.destinationValid && config.destination.Some?
    && exists key :: KeyTaken(db, sources, order, now, k, key) && Conflicts(config.destination.value, key)
  }

  /** How many of the first `k` rows were started. */
  function StartedAmong(db: Db, p: Pass, order: seq<int>, k: nat): nat
    requires k <= |order|
  {
    if k == 0 then 0 else StartedAmong(db, p, order, k - 1) + if WasStarted(db, p, order[k - 1]) then 1 else 0
  }

  /** Why row `k` has to wait when `started` older rows have been started; None if it starts. */
  ghost function Obstacle(db: Db, sources: set<int>, limit: int, order: seq<int>, now: int, k: int, started: int): Option<WaitReason>
    requires 0 <= k < |order| && order[k] in db.tasks
  {
    var task := db.tasks[order[k]];
    if TaskTaken(db, order[k]) then Some(TaskActive)
    else if SourceTaken(db, sources, order, now, k, task.config.sourceId) then Some(SourceBusy)
    else if Overlaps(db, sources, order, now, k, task.config) then Some(DestinationBusy)
    else if limit <= |ActiveIds(db.runs)| + started then Some(Capacity)
    else None
  }

  // ------------------------------------------------------------------ the pass keeps these accounts

  ghost predicate TasksAccounted(db: Db, p: Pass, order: seq<int>, k: int)
    requires 0 <= k <= |order|
  {
    forall t :: t in p.activeTasks <==> TaskTaken(db, t) || (t in order[..k] && WasStarted(db, p, t))
  }

  ghost predicate SourcesAccounted(db: Db, sources: set<int>, p: Pass, order: seq<int>, now: int, k: int) {
    forall s :: s in p.activeSources + p.claimedSources <==> SourceTaken(db, sources, order, now, k, s)
  }

  ghost predicate KeysAccounted(db: Db, sources: set<int>, p: Pass, order: seq<int>, now: int, k: int) {
    forall d :: d in p.dests + p.claimedDests <==> KeyTaken(db, sources, order, now, k, d)
  }

  /** What the pass has gathered after `k` rows is what the tables say. */
  ghost predicate Accounts(db: Db, sources: set<int>, p: Pass, order: seq<int>, now: int, k: int)
    requires 0 <= k <= |order|
  {
    && TasksAccounted(db, p, order, k) && SourcesAccounted(db, sources, p, order, now, k)
    && KeysAccounted(db, sources, p, order, now, k)
    && p.count == |ActiveIds(db.runs)| + StartedAmong(db, p, order, k)
  }

  lemma OpenTasks(db: Db, t: int)
    ensures t in Open(db).activeTasks <==> TaskTaken(db, t)
  {
    var known := set id | id in ActiveIds(db.runs) && db.runs[id].task in db.tasks;
    if id :| RunsTask(db, db.runs, id, t) {
      assert id in known;
    }
    if t in Open(db).activeTasks {
      var id :| id in known && db.runs[id].task == t;
      assert RunsTask(db, db.runs, id, t);
    }
  }

  lemma OpenSources(db: Db, s: int)
    ensures s in Open(db).activeSources <==> exists id :: RunsSource(db, db.runs, id, s)
  {
    var known := set id | id in ActiveIds(db.runs) && db.runs[id].task in db.tasks;
    if id :| RunsSource(db, db.runs, id, s) {
      assert id in known;
    }
    if s in Open(db).activeSources {
      var id :| id in known && db.tasks[db.runs[id].task].config.sourceId == s;
      assert RunsSource(db, db.runs, id, s);
    }
  }

  lemma OpenKeys(db: Db, d: Key)
    ensures d in Open(db).dests <==> exists id :: WritesTo(db, db.runs, id, d)
  {
    var known := set id | id in ActiveIds(db.runs) && db.runs[id].task in db.tasks;
    if id :| WritesTo(db, db.runs, id, d) {
      assert id in known;
    }
    if d in Open(db).dests {
      var id :| id in known && db.tasks[db.runs[id].task].config.destination == Some(d);
      assert WritesTo(db, db.runs, id, d);
    }
  }

  lemma OpenAccounts(db: Db, sources: set<int>, order: seq<int>, now: int)
    ensures Accounts(db, sources, Open(db), order, now, 0)
  {
    var p := Open(db);
    assert TasksAccounted(db, p, order, 0) by {
      forall t
        ensures t in p.activeTasks <==> TaskTaken(db, t)
      {
        OpenTasks(db, t);
      }
    }
    assert SourcesAccounted(db, sources, p, order, now, 0) by {
      forall s
        ensures s in p.activeSources <==> exists id :: RunsSource(db, db.runs, id, s)
      {
        OpenSources(db, s);
      }
    }
    assert KeysAccounted(db, sources, p, order, now, 0) by {
      forall d
        ensures d in p.dests <==> exists id :: WritesTo(db, db.runs, id, d)
      {
        OpenKeys(db, d);
      }
    }
  }

  /** A visited row adds its source exactly if it is considered, whether it starts or waits. */
  lemma VisitAddsSource(db: Db, sources: set<int>, limit: int, p: Pass, order: seq<int>, now: int, k: int, m: int)
    requires Lists(db, order) && 0 <= k < |order| && m == k + 1 && order[k] in p.rows && p.rows[order[k]] == db.rows[order[k]]
    requires SourcesAccounted(db, sources, p, order, now, k)
    ensures SourcesAccounted(db, sources, Visit(db.tasks, sources, limit, p, order[k], now), order, now, m)
  {
    var q := Visit(db.tasks, sources, limit, p, order[k], now);
    forall s
      ensures s in q.activeSources + q.claimedSources <==> SourceTaken(db, sources, order, now, m, s)
    {
      assert s in p.activeSources + p.claimedSources <==> SourceTaken(db, sources, order, now, k, s);
      assert s in q.activeSources + q.claimedSources
        <==> s in p.activeSources + p.claimedSources || AsksForSource(db, sources, order, now, m, k, s);
      if j :| AsksForSource(db, sources, order, now, m, j, s) {
        assert j == k || AsksForSource(db, sources, order, now, k, j, s);
      }
      if j :| AsksForSource(db, sources, order, now, k, j, s) {
        assert AsksForSource(db, sources, order, now, m, j, s);
      }
    }
  }

  lemma VisitAddsKey(db: Db, sources: set<int>, limit: int, p: Pass, order: seq<int>, now: int, k: int, m: int)
    requires Lists(db, order) && 0 <= k < |order| && m == k + 1 && order[k] in p.rows && p.rows[order[k]] == db.rows[order[k]]
    requires KeysAccounted(db, sources, p, order, now, k)
    ensures KeysAccounted(db, sources, Visit(db.tasks, sources, limit, p, order[k], now), order, now, m)
  {
    var q := Visit(db.tasks, sources, limit, p, order[k], now);
    forall d
      ensures d in q.dests + q.claimedDests <==> KeyTaken(db, sources, order, now, m, d)
    {
      assert d in p.dests + p.claimedDests <==> KeyTaken(db, sources, order, now, k, d);
      assert d in q.dests + q.claimedDests <==> d in p.dests + p.claimedDests || AsksForKey(db, sources, order, now, m, k, d);
      if j :| AsksForKey(db, sources, order, now, m, j, d) {
        assert j == k || AsksForKey(db, sources, order, now, k, j, d);
      }
      if j :| AsksForKey(db, sources, order, now, k, j, d) {
        assert AsksForKey(db, sources, order, now, m, j, d);
      }
    }
  }

  lemma VisitAddsTask(db: Db, sources: set<int>, limit: int, p: Pass, order: seq<int>, now: int, k: int, m: int)
    requires Lists(db, order) && 0 <= k < |order| && m == k + 1 && order[k] in p.rows && p.rows[order[k]] == db.rows[order[k]]
    requires TasksAccounted(db, p, order, k)
    ensures TasksAccounted(db, Visit(db.tasks, sources, limit, p, order[k], now), order, m)
  {
    var q := Visit(db.tasks, sources, limit, p, order[k], now);
    VisitTouchesOne(db, sources, limit, p, order[k], now);
    assert order[..m] == order[..k] + [order[k]];
    forall t
      ensures t in q.activeTasks <==> TaskTaken(db, t) || (t in order[..m] && WasStarted(db, q, t))
    {
      assert t in p.activeTasks <==> TaskTaken(db, t) || (t in order[..k] && WasStarted(db, p, t));
      if t != order[k] {
        assert WasStarted(db, q, t) <==> WasStarted(db, p, t);
      } else {
        assert t !in order[..k];
        assert t in q.activeTasks <==> t in p.activeTasks || WasStarted(db, q, t);
      }
    }
  }

  lemma {:induction false} SameStarted(db: Db, p: Pass, q: Pass, order: seq<int>, k: nat)
    requires k <= |order| && forall j :: 0 <= j < k ==> (WasStarted(db, q, order[j]) <==> WasStarted(db, p, order[j]))
    ensures StartedAmong(db, q, order, k) == StartedAmong(db, p, order, k)
  {
    if k > 0 {
      SameStarted(db, p, q, order, k - 1);
    }
  }

  lemma VisitCounts(db: Db, sources: set<int>, limit: int, p: Pass, order: seq<int>, now: int, k: int)
    requires 0 <= k < |order| && order[k] in db.rows && order[k] in p.rows && p.rows[order[k]] == db.rows[order[k]]
    ensures var q := Visit(db.tasks, sources, limit, p, order[k], now);
      && q.count == p.count + (if WasStarted(db, q, order[k]) then 1 else 0)
      && forall u :: u != order[k] ==> (WasStarted(db, q, u) <==> WasStarted(db, p, u))
  {
    VisitTouchesOne(db, sources, limit, p, order[k], now);
  }

  lemma AccountsNext(db: Db, sources: set<int>, limit: int, p: Pass, order: seq<int>, now: int, k: int, m: int)
    requires Lists(db, order) && 0 <= k < |order| && m == k + 1 && order[k] in p.rows && p.rows[order[k]] == db.rows[order[k]]
    requires Accounts(db, sources, p, order, now, k)
    ensures Accounts(db, sources, Visit(db.tasks, sources, limit, p, order[k], now), order, now, m)
  {
    var q := Visit(db.tasks, sources, limit, p, order[k], now);
    VisitAddsTask(db, sources, limit, p, order, now, k, m);
    VisitAddsSource(db, sources, limit, p, order, now, k, m);
    VisitAddsKey(db, sources, limit, p, order, now, k, m);
    VisitCounts(db, sources, limit, p, order, now, k);
    SameStarted(db, p, q, order, k);
  }

  lemma {:induction false} AccountsThroughout(db: Db, sources: set<int>, limit: int, order: seq<int>, now: int, k: int)
    requires Lists(db, order) && 0 <= k <= |order|
    ensures Accounts(db, sources, Upto(db, sources, limit, order, now, k), order, now, k)
    decreases k
  {
    if k == 0 {
      OpenAccounts(db, sources, order, now);
    } else {
      AccountsThroughout(db, sources, limit, order, now, k - 1);
      AccountsNext(db, sources, limit, Upto(db, sources, limit, order, now, k - 1), order, now, k - 1, k);
    }
  }

  // ------------------------------------------------------------------ the verdict on every row

  /** What the pass leaves of row `k`: gone if its task is disabled, otherwise untouched, handed over, or told why not. */
  ghost predicate Decided(db: Db, sources: set<int>, limit: int, p: Pass, order: seq<int>, now: int, k: int, started: int)
    requires 0 <= k < |order| && order[k] in db.rows
  {
    var t, row := order[k], db.rows[order[k]];
    if !Asks(db, sources, t, now) then
      if t in db.tasks && !db.tasks[t].config.enabled && !row.status.Dispatched? then t !in p.rows
      else t in p.rows && p.rows[t] == row
    else
      var obstacle := Obstacle(db, sources, limit, order, now, k, started);
      && (WasStarted(db, p, t) <==> obstacle.None?)
      && (obstacle.Some? ==>
            t in p.rows && p.rows[t] == row.(waitReason := obstacle, updatedAt := p.rows[t].updatedAt)
            && p.rows[t].updatedAt == if row.waitReason == obstacle then row.updatedAt else now)
  }

  lemma ReasonIsTheObstacle(db: Db, sources: set<int>, limit: int, p: Pass, order: seq<int>, now: int, k: int)
    requires Lists(db, order) && 0 <= k < |order| && order[k] in db.tasks && Accounts(db, sources, p, order, now, k)
    ensures Reason(p, order[k], db.tasks[order[k]], limit)
         == Obstacle(db, sources, limit, order, now, k, StartedAmong(db, p, order, k))
  {
    var t, task := order[k], db.tasks[order[k]];
    assert t !in order[..k];
    assert t in p.activeTasks <==> TaskTaken(db, t);
    assert task.config.sourceId in p.activeSources + p.claimedSources <==> SourceTaken(db, sources, order, now, k, task.config.sourceId);
    assert ConflictsWithAny(ClaimKey(task), p.dests + p.claimedDests) <==> Overlaps(db, sources, order, now, k, task.config);
  }

  lemma DecidedWhenVisited(db: Db, sources: set<int>, limit: int, p: Pass, order: seq<int>, now: int, k: int)
    requires Lists(db, order) && 0 <= k < |order| && order[k] in p.rows && p.rows[order[k]] == db.rows[order[k]]
    requires Accounts(db, sources, p, order, now, k)
    ensures Decided(db, sources, limit, Visit(db.tasks, sources, limit, p, order[k], now), order, now, k, StartedAmong(db, p, order, k))
  {
    if order[k] in db.tasks {
      ReasonIsTheObstacle(db, sources, limit, p, order, now, k);
    }
  }

  lemma DecisionsLast(db: Db, sources: set<int>, limit: int, order: seq<int>, now: int, k: int)
    requires Lists(db, order) && 0 <= k < |order|
    ensures var p, q := Upto(db, sources, limit, order, now, k), Upto(db, sources, limit, order, now, k + 1);
      var end := Upto(db, sources, limit, order, now, |order|);
      && StartedAmong(db, end, order, k) == StartedAmong(db, p, order, k)
      && (order[k] in end.rows <==> order[k] in q.rows) && (order[k] in q.rows ==> end.rows[order[k]] == q.rows[order[k]])
  {
    VerdictsLast(db, sources, limit, order, now, k, |order|);
    VerdictsLast(db, sources, limit, order, now, k + 1, |order|);
    SameStarted(db, Upto(db, sources, limit, order, now, k), Upto(db, sources, limit, order, now, |order|), order, k);
  }

  /** Every row of a pass is decided by the tables before it: a row the pass considers starts exactly if its task is
      idle, no active run and no older considered row has its source or overlaps its destination, and the active runs
      and the older rows started leave room; otherwise the first of these obstacles is what it is told. */
  lemma EveryRowIsDecided(db: Db, sources: set<int>, limit: int, order: seq<int>, now: int, k: int)
    requires ByAge(db.rows, order) && 0 <= k < |order|
    ensures var p := DispatchPass(db, sources, limit, order, now);
      Decided(db, sources, limit, p, order, now, k, StartedAmong(db, p, order, k))
  {
    assert Lists(db, order);
    PassIsUptoAll(db, sources, limit, order, now);
    AccountsThroughout(db, sources, limit, order, now, k);
    DecidedWhenVisited(db, sources, limit, Upto(db, sources, limit, order, now, k), order, now, k);
    DecisionsLast(db, sources, limit, order, now, k);
  }

  /** What started had no obstacle in its way. */
  lemma StartedUnobstructed(db: Db, sources: set<int>, limit: int, order: seq<int>, now: int, k: int)
    requires ByAge(db.rows, order) && 0 <= k < |order| && WasStarted(db, DispatchPass(db, sources, limit, order, now), order[k])
    ensures Asks(db, sources, order[k], now)
    ensures var task := db.tasks[order[k]];
      !SourceTaken(db, sources, order, now, k, task.config.sourceId) && !Overlaps(db, sources, order, now, k, task.config)
  {
    EveryRowIsDecided(db, sources, limit, order, now, k);
  }

  /** The two tasks share neither a source nor, where both destinations validate, a path. */
  predicate Apart(left: Config, right: Config) {
    && left.sourceId != right.sourceId
    && (left.destinationValid && right.destinationValid && left.destination.Some? && right.destination.Some?
        ==> !Conflicts(left.destination.value, right.destination.value))
  }

  lemma YoungerIsApart(db: Db, sources: set<int>, limit: int, order: seq<int>, now: int, j: int, k: int)
    requires ByAge(db.rows, order) && 0 <= j < k < |order|
    requires var p := DispatchPass(db, sources, limit, order, now); WasStarted(db, p, order[j]) && WasStarted(db, p, order[k])
    ensures order[j] in db.tasks && order[k] in db.tasks
    ensures var older, younger := db.tasks[order[j]].config, db.tasks[order[k]].config; Apart(older, younger) && Apart(younger, older)
  {
    StartedUnobstructed(db, sources, limit, order, now, j);
    StartedUnobstructed(db, sources, limit, order, now, k);
    var older, younger := db.tasks[order[j]].config, db.tasks[order[k]].config;
    assert AsksForSource(db, sources, order, now, k, j, older.sourceId);
    if older.destinationValid && older.destination.Some? {
      var key := older.destination.value;
      assert AsksForKey(db, sources, order, now, k, j, key);
      if younger.destination.Some? {
        Execution.ConflictIsSymmetric(key, younger.destination.value);
      }
    }
  }

  /** No two runs on one destination, nor on one source: what a pass starts overlaps neither a run that was active before
      nor anything else it starts. */
  lemma StartedWorkIsApart(db: Db, sources: set<int>, limit: int, order: seq<int>, now: int, t: int)
    requires ByAge(db.rows, order) && WasStarted(db, DispatchPass(db, sources, limit, order, now), t)
    ensures t in db.tasks
    ensures forall id :: ActiveAt(db.tasks, db.runs, id) ==>
      var own, other := db.tasks[t].config, db.tasks[db.runs[id].task].config;
      && own.sourceId != other.sourceId
      && (own.destinationValid && own.destination.Some? && other.destination.Some?
          ==> !Conflicts(own.destination.value, other.destination.value))
    ensures forall u :: u != t && WasStarted(db, DispatchPass(db, sources, limit, order, now), u) ==>
      u in db.tasks && Apart(db.tasks[t].config, db.tasks[u].config)
  {
    var k :| 0 <= k < |order| && order[k] == t;
    StartedUnobstructed(db, sources, limit, order, now, k);
    forall id | ActiveAt(db.tasks, db.runs, id)
      ensures var own, other := db.tasks[t].config, db.tasks[db.runs[id].task].config;
        && own.sourceId != other.sourceId
        && (own.destinationValid && own.destination.Some? && other.destination.Some?
            ==> !Conflicts(own.destination.value, other.destination.value))
    {
      var other := db.tasks[db.runs[id].task].config;
      assert RunsSource(db, db.runs, id, other.sourceId);
      if other.destination.Some? {
        assert WritesTo(db, db.runs, id, other.destination.value);
      }
    }
    forall u | u != t && WasStarted(db, DispatchPass(db, sources, limit, order, now), u)
      ensures u in db.tasks && Apart(db.tasks[t].config, db.tasks[u].config)
    {
      var j :| 0 <= j < |order| && order[j] == u;
      if j < k {
        YoungerIsApart(db, sources, limit, order, now, j, k);
      } else {
        YoungerIsApart(db, sources, limit, order, now, k, j);
      }
    }
  }
}

/** The dispatch pass is fair to older obligations, starts work when it can, and keeps the limit. */
module Fairness {
  import opened Prelude
  import opened Records
  import opened DueWork
  import opened Dispatching
  import opened PassFacts

  ghost predicate Lists(db: Db, order: seq<int>) {
    Distinct(order) && forall i :: 0 <= i < |order| ==> order[i] in db.rows
  }

  /** An obligation the pass considers at all. */
  predicate Considered(db: Db, sources: set<int>, t: int, now: int) {
    && t in db.rows && t in db.tasks && db.tasks[t].config.enabled
    && Eligible(db.rows[t], now) && db.tasks[t].config.sourceId in sources
  }

  predicate WasStarted(db: Db, p: Pass, t: int) {
    t in db.rows && t in p.rows && p.rows[t].status.Dispatched? && !db.rows[t].status.Dispatched?
  }

  predicate Waits(db: Db, p: Pass, sources: set<int>, t: int, now: int) {
    Considered(db, sources, t, now) && !WasStarted(db, p, t)
  }

  /** The pass after its first `k` rows. */
  ghost function Upto(db: Db, sources: set<int>, limit: int, order: seq<int>, now: int, k: nat): Pass
    requires Lists(db, order) && k <= |order|
    ensures forall i :: k <= i < |order| ==>
      order[i] in Upto(db, sources, limit, order, now, k).rows
      && Upto(db, sources, limit, order, now, k).rows[order[i]] == db.rows[order[i]]
  {
    if k == 0 then Open(db)
    else
      var p := Upto(db, sources, limit, order, now, k - 1);
      assert order[k - 1] in p.rows;
      Visit(db.tasks, sources, limit, p, order[k - 1], now)
  }

  lemma {:induction false} PassFromUpto(db: Db, sources: set<int>, limit: int, order: seq<int>, now: int, k: nat)
    requires Lists(db, order) && k <= |order|
    ensures DispatchPass(db, sources, limit, order, now)
         == RunPass(db.tasks, sources, limit, Upto(db, sources, limit, order, now, k), order[k..], now)
  {
    if k == 0 {
      assert order[0..] == order;
    } else {
      PassFromUpto(db, sources, limit, order, now, k - 1);
      var rest := order[k - 1..];
      assert rest != [] && rest[0] == order[k - 1] && rest[1..] == order[k..];
    }
  }

  lemma PassIsUptoAll(db: Db, sources: set<int>, limit: int, order: seq<int>, now: int)
    requires Lists(db, order)
    ensures DispatchPass(db, sources, limit, order, now) == Upto(db, sources, limit, order, now, |order|)
  {
    PassFromUpto(db, sources, limit, order, now, |order|);
    assert order[|order|..] == [];
  }

  /** Two tasks compete: one source, or destinations of which one contains the other. */
  predicate Compete(left: Task, right: Task) {
    left.config.sourceId == right.config.sourceId || ClaimsConflict(ClaimKey(left), ClaimKey(right))
  }

  predicate ClaimsConflict(left: Option<Key>, right: Option<Key>) {
    left.Some? && right.Some? && Conflicts(left.value, right.value)
  }

  /** What the first `k` rows left behind: waiting rows hold their scopes, started ones occupy theirs. */
  ghost predicate Held(db: Db, sources: set<int>, p: Pass, order: seq<int>, now: int, k: nat)
    requires Lists(db, order) && k <= |order|
  {
    && PassInv(db, p, now)
    && (forall i :: 0 <= i < k && Waits(db, p, sources, order[i], now) ==>
          && db.tasks[order[i]].config.sourceId in p.claimedSources
          && (ClaimKey(db.tasks[order[i]]).Some? ==> ClaimKey(db.tasks[order[i]]).value in p.claimedDests))
    && (forall i :: k <= i < |order| ==> order[i] in p.rows && p.rows[order[i]] == db.rows[order[i]])
    && p.count == |ActiveIds(p.runs)|
  }

  lemma OneMoreActive(runs: map<int, Run>, t: int, now: int)
    ensures |ActiveIds(runs[NextId(runs) := PendingRun(t, now)])| == |ActiveIds(runs)| + 1
  {
    var id := NextId(runs);
    assert ActiveIds(runs[id := PendingRun(t, now)]) == ActiveIds(runs) + {id};
  }

  /** Visiting one row leaves the verdict on every other row as it was. */
  lemma VisitTouchesOne(db: Db, sources: set<int>, limit: int, p: Pass, t: int, now: int)
    requires t in p.rows
    ensures var q := Visit(db.tasks, sources, limit, p, t, now);
      && (forall u :: u != t ==> (u in q.rows <==> u in p.rows) && (u in p.rows ==> q.rows[u] == p.rows[u]))
      && p.claimedSources <= q.claimedSources && p.claimedDests <= q.claimedDests
      && p.activeSources <= q.activeSources && p.dests <= q.dests
  {
  }

  /** The visited row, if it has to wait, adds its scopes to the claims. */
  lemma VisitedRowIsHeld(db: Db, sources: set<int>, limit: int, p: Pass, t: int, now: int)
    requires t in p.rows && t in db.rows && p.rows[t] == db.rows[t]
    ensures var q := Visit(db.tasks, sources, limit, p, t, now);
      Waits(db, q, sources, t, now) ==>
        && db.tasks[t].config.sourceId in q.claimedSources
        && (ClaimKey(db.tasks[t]).Some? ==> ClaimKey(db.tasks[t]).value in q.claimedDests)
  {
  }

  lemma CountFollows(db: Db, sources: set<int>, limit: int, p: Pass, t: int, now: int)
    requires t in p.rows && p.count == |ActiveIds(p.runs)|
    ensures var q := Visit(db.tasks, sources, limit, p, t, now); q.count == |ActiveIds(q.runs)|
  {
    OneMoreActive(p.runs, t, now);
  }

  lemma VisitKeepsHeld(db: Db, sources: set<int>, limit: int, p: Pass, order: seq<int>, now: int, k: nat)
    requires Lists(db, order) && k < |order| && Held(db, sources, p, order, now, k)
    ensures Held(db, sources, Visit(db.tasks, sources, limit, p, order[k], now), order, now, k + 1)
  {
    var t := order[k];
    var q := Visit(db.tasks, sources, limit, p, t, now);
    VisitFacts(db, sources, limit, p, t, now);
    VisitTouchesOne(db, sources, limit, p, t, now);
    VisitedRowIsHeld(db, sources, limit, p, t, now);
    CountFollows(db, sources, limit, p, t, now);
    HeldAfter(db, sources, p, q, order, now, k);
  }

  lemma HeldAfter(db: Db, sources: set<int>, p: Pass, q: Pass, order: seq<int>, now: int, k: nat)
    requires Lists(db, order) && k < |order| && Held(db, sources, p, order, now, k) && PassInv(db, q, now)
    requires forall u :: u != order[k] ==> (u in q.rows <==> u in p.rows) && (u in p.rows ==> q.rows[u] == p.rows[u])
    requires p.claimedSources <= q.claimedSources && p.claimedDests <= q.claimedDests && q.count == |ActiveIds(q.runs)|
    requires Waits(db, q, sources, order[k], now) ==>
      && db.tasks[order[k]].config.sourceId in q.claimedSources
      && (ClaimKey(db.tasks[order[k]]).Some? ==> ClaimKey(db.tasks[order[k]]).value in q.claimedDests)
    ensures Held(db, sources, q, order, now, k + 1)
  {
  }

  lemma {:induction false} HeldThroughout(db: Db, sources: set<int>, limit: int, order: seq<int>, now: int, k: nat)
    requires Lists(db, order) && k <= |order|
    ensures Held(db, sources, Upto(db, sources, limit, order, now, k), order, now, k)
  {
    if k == 0 {
      OpenFacts(db, now);
    } else {
      HeldThroughout(db, sources, limit, order, now, k - 1);
      VisitKeepsHeld(db, sources, limit, Upto(db, sources, limit, order, now, k - 1), order, now, k - 1);
    }
  }

  /** Later visits change neither the verdict on an earlier row nor what is already held or occupied. */
  lemma {:induction false} VerdictsLast(db: Db, sources: set<int>, limit: int, order: seq<int>, now: int, k: nat, m: nat)
    requires Lists(db, order) && k <= m <= |order|
    ensures var p, q := Upto(db, sources, limit, order, now, k), Upto(db, sources, limit, order, now, m);
      && (forall i :: 0 <= i < k ==> (order[i] in q.rows <==> order[i] in p.rows)
                                     && (order[i] in p.rows ==> q.rows[order[i]] == p.rows[order[i]]))
      && p.claimedSources <= q.claimedSources && p.claimedDests <= q.claimedDests
      && Extends(p.runs, q.runs)
  {
    if k < m {
      VerdictsLast(db, sources, limit, order, now, k, m - 1);
      var p := Upto(db, sources, limit, order, now, m - 1);
      VisitTouchesOne(db, sources, limit, p, order[m - 1], now);
    }
  }

  /** What was decided of row `i` once it was visited is what the whole pass decided. */
  lemma VerdictStands(db: Db, sources: set<int>, limit: int, order: seq<int>, now: int, i: nat, k: nat)
    requires Lists(db, order) && i < k <= |order|
    ensures WasStarted(db, Upto(db, sources, limit, order, now, k), order[i])
       <==> WasStarted(db, Upto(db, sources, limit, order, now, |order|), order[i])
  {
    VerdictsLast(db, sources, limit, order, now, k, |order|);
  }

  lemma StartedAfterHeld(db: Db, sources: set<int>, limit: int, order: seq<int>, now: int, i: nat, j: nat)
    requires Lists(db, order) && i < j < |order|
    requires Waits(db, Upto(db, sources, limit, order, now, j), sources, order[i], now)
    requires WasStarted(db, Upto(db, sources, limit, order, now, j + 1), order[j])
    ensures order[j] in db.tasks && !Compete(db.tasks[order[j]], db.tasks[order[i]])
  {
    HeldThroughout(db, sources, limit, order, now, j);
  }

  /** A younger obligation that starts competes with no older one that waits. */
  lemma NoYoungerRowJumps(db: Db, sources: set<int>, limit: int, order: seq<int>, now: int, i: nat, j: nat)
    requires ByAge(db.rows, order) && i < j < |order|
    requires var p := DispatchPass(db, sources, limit, order, now);
      Waits(db, p, sources, order[i], now) && WasStarted(db, p, order[j])
    ensures order[j] in db.tasks && !Compete(db.tasks[order[j]], db.tasks[order[i]])
  {
    assert Lists(db, order);
    PassIsUptoAll(db, sources, limit, order, now);
    VerdictStands(db, sources, limit, order, now, i, j);
    VerdictStands(db, sources, limit, order, now, j, j + 1);
    StartedAfterHeld(db, sources, limit, order, now, i, j);
  }

  // ------------------------------------------------------------------ why a row waits

  ghost predicate RunsTask(db: Db, runs: map<int, Run>, id: int, t: int) {
    ActiveAt(db.tasks, runs, id) && runs[id].task == t
  }

  ghost predicate RunsSource(db: Db, runs: map<int, Run>, id: int, source: int) {
    ActiveAt(db.tasks, runs, id) && db.tasks[runs[id].task].config.sourceId == source
  }

  ghost predicate WritesTo(db: Db, runs: map<int, Run>, id: int, key: Key) {
    ActiveAt(db.tasks, runs, id) && db.tasks[runs[id].task].config.destination == Some(key)
  }

  ghost predicate HoldsSource(db: Db, sources: set<int>, p: Pass, order: seq<int>, now: int, k: nat, i: int, source: int) {
    0 <= i < k <= |order| && Waits(db, p, sources, order[i], now) && db.tasks[order[i]].config.sourceId == source
  }

  ghost predicate HoldsKey(db: Db, sources: set<int>, p: Pass, order: seq<int>, now: int, k: nat, i: int, key: Key) {
    0 <= i < k <= |order| && Waits(db, p, sources, order[i], now) && ClaimKey(db.tasks[order[i]]) == Some(key)
  }

  /** Every scope the pass calls active belongs to an active run. */
  ghost predicate InUse(db: Db, p: Pass) {
    && (forall t :: t in p.activeTasks ==> exists id :: RunsTask(db, p.runs, id, t))
    && (forall s :: s in p.activeSources ==> exists id :: RunsSource(db, p.runs, id, s))
    && (forall d :: d in p.dests ==> exists id :: WritesTo(db, p.runs, id, d))
  }

  /** Every scope the pass calls claimed is held by one of the first `k` rows, which waits. */
  ghost predicate Claimed(db: Db, sources: set<int>, p: Pass, order: seq<int>, now: int, k: nat) {
    && (forall s :: s in p.claimedSources ==> exists i :: HoldsSource(db, sources, p, order, now, k, i, s))
    && (forall d :: d in p.claimedDests ==> exists i :: HoldsKey(db, sources, p, order, now, k, i, d))
  }

  lemma OpenInUse(db: Db)
    ensures InUse(db, Open(db))
  {
    var p := Open(db);
    var known := set id | id in ActiveIds(db.runs) && db.runs[id].task in db.tasks;
    forall t | t in p.activeTasks
      ensures exists id :: RunsTask(db, p.runs, id, t)
    {
      var id :| id in known && db.runs[id].task == t;
      assert RunsTask(db, p.runs, id, t);
    }
    forall s | s in p.activeSources
      ensures exists id :: RunsSource(db, p.runs, id, s)
    {
      var id :| id in known && db.tasks[db.runs[id].task].config.sourceId == s;
      assert RunsSource(db, p.runs, id, s);
    }
    forall d | d in p.dests
      ensures exists id :: WritesTo(db, p.runs, id, d)
    {
      var id :| id in known && db.tasks[db.runs[id].task].config.destination == Some(d);
      assert WritesTo(db, p.runs, id, d);
    }
  }

  ghost predicate Extends(runs: map<int, Run>, after: map<int, Run>) {
    forall id :: id in runs ==> id in after && after[id] == runs[id]
  }

  /** Scopes in use stay in use while runs are only added. */
  lemma InUseLasts(db: Db, p: Pass, runs: map<int, Run>)
    requires InUse(db, p) && Extends(p.runs, runs)
    ensures InUse(db, p.(runs := runs))
  {
    forall t | t in p.activeTasks
      ensures exists id :: RunsTask(db, runs, id, t)
    {
      var id :| RunsTask(db, p.runs, id, t);
      assert RunsTask(db, runs, id, t);
    }
    forall s | s in p.activeSources
      ensures exists id :: RunsSource(db, runs, id, s)
    {
      var id :| RunsSource(db, p.runs, id, s);
      assert RunsSource(db, runs, id, s);
    }
    forall d | d in p.dests
      ensures exists id :: WritesTo(db, runs, id, d)
    {
      var id :| WritesTo(db, p.runs, id, d);
      assert WritesTo(db, runs, id, d);
    }
  }

  lemma StartInUse(db: Db, p: Pass, t: int, now: int)
    requires InUse(db, p) && t in db.tasks && t in p.rows
    ensures InUse(db, Start(p, t, db.tasks[t], now))
  {
    var q := Start(p, t, db.tasks[t], now);
    var id := NextId(p.runs);
    InUseLasts(db, p, q.runs);
    assert RunsTask(db, q.runs, id, t) && RunsSource(db, q.runs, id, db.tasks[t].config.sourceId);
    if ClaimKey(db.tasks[t]).Some? {
      assert WritesTo(db, q.runs, id, ClaimKey(db.tasks[t]).value);
    }
  }

  lemma VisitInUse(db: Db, sources: set<int>, limit: int, p: Pass, t: int, now: int)
    requires InUse(db, p) && t in p.rows
    ensures InUse(db, Visit(db.tasks, sources, limit, p, t, now))
  {
    var q := Visit(db.tasks, sources, limit, p, t, now);
    if t in db.tasks && q == Start(p, t, db.tasks[t], now) {
      StartInUse(db, p, t, now);
    }
  }

  /** Claims outlive a visit, and the visited row adds its own exactly when it has to wait. */
  lemma VisitClaimed(db: Db, sources: set<int>, limit: int, p: Pass, order: seq<int>, now: int, k: nat, m: nat)
    requires Lists(db, order) && k < |order| && m == k + 1 && Held(db, sources, p, order, now, k)
    requires Claimed(db, sources, p, order, now, k)
    ensures Claimed(db, sources, Visit(db.tasks, sources, limit, p, order[k], now), order, now, m)
  {
    var t := order[k];
    var q := Visit(db.tasks, sources, limit, p, t, now);
    VisitTouchesOne(db, sources, limit, p, t, now);
    forall s | s in q.claimedSources
      ensures exists i :: HoldsSource(db, sources, q, order, now, m, i, s)
    {
      if s in p.claimedSources {
        var i :| HoldsSource(db, sources, p, order, now, k, i, s);
        assert order[i] != t;
        assert HoldsSource(db, sources, q, order, now, m, i, s);
      } else {
        assert HoldsSource(db, sources, q, order, now, m, k, s);
      }
    }
    forall d | d in q.claimedDests
      ensures exists i :: HoldsKey(db, sources, q, order, now, m, i, d)
    {
      if d in p.claimedDests {
        var i :| HoldsKey(db, sources, p, order, now, k, i, d);
        assert order[i] != t;
        assert HoldsKey(db, sources, q, order, now, m, i, d);
      } else {
        assert HoldsKey(db, sources, q, order, now, m, k, d);
      }
    }
  }

  lemma JustifiedNext(db: Db, sources: set<int>, limit: int, p: Pass, q: Pass, order: seq<int>, now: int, k: nat, m: nat)
    requires Lists(db, order) && k < |order| && m == k + 1 && Held(db, sources, p, order, now, k)
    requires q == Visit(db.tasks, sources, limit, p, order[k], now)
    requires InUse(db, p) && Claimed(db, sources, p, order, now, k)
    ensures InUse(db, q) && Claimed(db, sources, q, order, now, m)
  {
    VisitInUse(db, sources, limit, p, order[k], now);
    VisitClaimed(db, sources, limit, p, order, now, k, m);
  }

  lemma {:induction false} JustifiedThroughout(db: Db, sources: set<int>, limit: int, order: seq<int>, now: int, k: nat)
    requires Lists(db, order) && k <= |order|
    ensures InUse(db, Upto(db, sources, limit, order, now, k))
    ensures Claimed(db, sources, Upto(db, sources, limit, order, now, k), order, now, k)
  {
    if k == 0 {
      OpenInUse(db);
    } else {
      JustifiedThroughout(db, sources, limit, order, now, k - 1);
      HeldThroughout(db, sources, limit, order, now, k - 1);
      var p, q := Upto(db, sources, limit, order, now, k - 1), Upto(db, sources, limit, order, now, k);
      assert q == Visit(db.tasks, sources, limit, p, order[k - 1], now);
      JustifiedNext(db, sources, limit, p, q, order, now, k - 1, k);
    }
  }

  /** An active run uses the task's source or writes where it would write, or the limit is reached. */
  ghost predicate Grounded(db: Db, p: Pass, t: int, limit: int)
    requires t in db.tasks
  {
    || (exists id :: Occupies(db, p, id, t))
    || limit <= |ActiveIds(p.runs)|
  }

  ghost predicate Occupies(db: Db, p: Pass, id: int, t: int)
    requires t in db.tasks
  {
    && ActiveAt(db.tasks, p.runs, id)
    && var other := db.tasks[p.runs[id].task].config;
       other.sourceId == db.tasks[t].config.sourceId || ClaimsConflict(ClaimKey(db.tasks[t]), other.destination)
  }

  /** Row `i` competes with the earlier waiting row `j`. */
  ghost predicate Behind(db: Db, sources: set<int>, p: Pass, order: seq<int>, now: int, i: int, j: int)
    requires 0 <= i < |order| && order[i] in db.tasks
  {
    0 <= j < i && Waits(db, p, sources, order[j], now) && Compete(db.tasks[order[i]], db.tasks[order[j]])
  }

  /** Row `i` waits behind the earlier waiting row `j`. */
  ghost predicate Blames(db: Db, sources: set<int>, p: Pass, order: seq<int>, now: int, i: int, j: int) {
    0 <= i < |order| && Waits(db, p, sources, order[i], now) && Behind(db, sources, p, order, now, i, j)
  }

  lemma MoreActive(runs: map<int, Run>, after: map<int, Run>)
    requires Extends(runs, after)
    ensures |ActiveIds(runs)| <= |ActiveIds(after)|
  {
    forall id | id in ActiveIds(runs)
      ensures id in ActiveIds(after)
    {
    }
    SubsetIsSmaller(ActiveIds(runs), ActiveIds(after));
  }

  /** What each reason asserts about the runs and the earlier rows. */
  ghost predicate Holds(db: Db, sources: set<int>, limit: int, p: Pass, order: seq<int>, now: int, i: int, reason: WaitReason)
    requires 0 <= i < |order| && order[i] in db.tasks
  {
    var t := order[i];
    var task := db.tasks[t];
    match reason
    case TaskActive => exists id :: RunsTask(db, p.runs, id, t)
    case SourceBusy =>
      || (exists id :: RunsSource(db, p.runs, id, task.config.sourceId))
      || (exists j :: HoldsSource(db, sources, p, order, now, i, j, task.config.sourceId))
    case DestinationBusy =>
      exists key :: ClaimsConflict(ClaimKey(task), Some(key))
        && ((exists id :: WritesTo(db, p.runs, id, key)) || (exists j :: HoldsKey(db, sources, p, order, now, i, j, key)))
    case Capacity => limit <= |ActiveIds(p.runs)|
  }

  /** The reason found is true, and a task with an active run of its own is told so before anything else. */
  lemma TheReasonIsTrue(db: Db, sources: set<int>, limit: int, p: Pass, order: seq<int>, now: int, i: nat)
    requires i < |order| && order[i] in db.tasks && Reason(p, order[i], db.tasks[order[i]], limit).Some?
    requires InUse(db, p) && Claimed(db, sources, p, order, now, i) && p.count == |ActiveIds(p.runs)| && PassInv(db, p, now)
    ensures var reason := Reason(p, order[i], db.tasks[order[i]], limit).value;
      && Holds(db, sources, limit, p, order, now, i, reason)
      && (reason.TaskActive? <==> exists id :: RunsTask(db, p.runs, id, order[i]))
  {
  }

  /** The reason shown on a waiting row is true of the pass at the moment the row was considered. */
  lemma ShownReasonIsTrue(db: Db, sources: set<int>, limit: int, order: seq<int>, now: int, i: nat)
    requires ByAge(db.rows, order) && i < |order|
    requires Waits(db, DispatchPass(db, sources, limit, order, now), sources, order[i], now)
    ensures Lists(db, order) && order[i] in DispatchPass(db, sources, limit, order, now).rows
    ensures var shown := DispatchPass(db, sources, limit, order, now).rows[order[i]].waitReason;
      var p := Upto(db, sources, limit, order, now, i);
      && shown.Some? && Holds(db, sources, limit, p, order, now, i, shown.value)
      && (shown.value.TaskActive? <==> exists id :: RunsTask(db, p.runs, id, order[i]))
  {
    assert Lists(db, order);
    PassIsUptoAll(db, sources, limit, order, now);
    HeldThroughout(db, sources, limit, order, now, i);
    JustifiedThroughout(db, sources, limit, order, now, i);
    ReasonIsRecorded(db, sources, limit, order, now, i);
    TheReasonIsTrue(db, sources, limit, Upto(db, sources, limit, order, now, i), order, now, i);
  }

  lemma ReasonIsRecorded(db: Db, sources: set<int>, limit: int, order: seq<int>, now: int, i: nat)
    requires Lists(db, order) && i < |order|
    requires Waits(db, Upto(db, sources, limit, order, now, |order|), sources, order[i], now)
    ensures var p, end := Upto(db, sources, limit, order, now, i), Upto(db, sources, limit, order, now, |order|);
      var reason := Reason(p, order[i], db.tasks[order[i]], limit);
      reason.Some? && order[i] in end.rows && end.rows[order[i]].waitReason == reason
  {
    VerdictsLast(db, sources, limit, order, now, i + 1, |order|);
  }

  /** The reason given to row `i` names something active or an earlier waiting competitor. */
  lemma ReasonIsExplained(db: Db, sources: set<int>, limit: int, p: Pass, order: seq<int>, now: int, i: nat)
    requires i < |order| && order[i] in db.tasks && Reason(p, order[i], db.tasks[order[i]], limit).Some?
    requires InUse(db, p) && Claimed(db, sources, p, order, now, i) && p.count == |ActiveIds(p.runs)|
    ensures Grounded(db, p, order[i], limit) || exists j :: Behind(db, sources, p, order, now, i, j)
  {
    var t := order[i];
    var task := db.tasks[t];
    match Reason(p, t, task, limit).value
    case TaskActive =>
      var id :| RunsTask(db, p.runs, id, t);
      assert Occupies(db, p, id, t);
    case SourceBusy =>
      if task.config.sourceId in p.activeSources {
        var id :| RunsSource(db, p.runs, id, task.config.sourceId);
        assert Occupies(db, p, id, t);
      } else {
        var j :| HoldsSource(db, sources, p, order, now, i, j, task.config.sourceId);
        assert Behind(db, sources, p, order, now, i, j);
      }
    case DestinationBusy =>
      var k :| k in p.dests + p.claimedDests && Conflicts(ClaimKey(task).value, k);
      if k in p.dests {
        var id :| WritesTo(db, p.runs, id, k);
        assert Occupies(db, p, id, t);
      } else {
        var j :| HoldsKey(db, sources, p, order, now, i, j, k);
        assert Behind(db, sources, p, order, now, i, j);
      }
    case Capacity =>
  }

  /** A row that waits at the end was given a reason when it was visited. */
  lemma WaitingHadAReason(db: Db, sources: set<int>, limit: int, order: seq<int>, now: int, i: nat)
    requires Lists(db, order) && i < |order|
    requires Waits(db, Upto(db, sources, limit, order, now, |order|), sources, order[i], now)
    ensures Reason(Upto(db, sources, limit, order, now, i), order[i], db.tasks[order[i]], limit).Some?
  {
    VerdictsLast(db, sources, limit, order, now, i + 1, |order|);
  }

  lemma ExplanationsLast(db: Db, sources: set<int>, p: Pass, end: Pass, order: seq<int>, now: int, limit: int, i: nat)
    requires i < |order| && order[i] in db.tasks && Extends(p.runs, end.runs)
    requires forall j :: 0 <= j < i ==> (order[j] in end.rows <==> order[j] in p.rows)
                                        && (order[j] in p.rows ==> end.rows[order[j]] == p.rows[order[j]])
    requires Grounded(db, p, order[i], limit) || exists j :: Behind(db, sources, p, order, now, i, j)
    ensures Grounded(db, end, order[i], limit) || exists j :: Behind(db, sources, end, order, now, i, j)
  {
    MoreActive(p.runs, end.runs);
    if id :| Occupies(db, p, id, order[i]) {
      assert Occupies(db, end, id, order[i]);
    } else if j :| Behind(db, sources, p, order, now, i, j) {
      assert Behind(db, sources, end, order, now, i, j);
    }
  }

  /** Every waiting row has a reason: something active, a full house, or an earlier waiting competitor. */
  lemma WaitingIsExplained(db: Db, sources: set<int>, limit: int, order: seq<int>, now: int, i: nat)
    requires ByAge(db.rows, order) && i < |order|
    requires Waits(db, DispatchPass(db, sources, limit, order, now), sources, order[i], now)
    ensures var p := DispatchPass(db, sources, limit, order, now);
      Grounded(db, p, order[i], limit) || exists j :: Blames(db, sources, p, order, now, i, j)
  {
    assert Lists(db, order);
    var p, end := Upto(db, sources, limit, order, now, i), Upto(db, sources, limit, order, now, |order|);
    PassIsUptoAll(db, sources, limit, order, now);
    HeldThroughout(db, sources, limit, order, now, i);
    JustifiedThroughout(db, sources, limit, order, now, i);
    WaitingHadAReason(db, sources, limit, order, now, i);
    VerdictsLast(db, sources, limit, order, now, i, |order|);
    ReasonIsExplained(db, sources, limit, p, order, now, i);
    ExplanationsLast(db, sources, p, end, order, now, limit, i);
    if j :| Behind(db, sources, end, order, now, i, j) {
      assert Blames(db, sources, end, order, now, i, j);
    }
  }

  /** A chain of blame: strictly earlier waiting rows, the last of them grounded. */
  ghost predicate Chain(db: Db, sources: set<int>, p: Pass, order: seq<int>, now: int, limit: int, chain: seq<int>) {
    && |chain| > 0
    && (forall k :: 0 <= k < |chain| - 1 ==> Blames(db, sources, p, order, now, chain[k], chain[k + 1]))
    && var last := chain[|chain| - 1];
       0 <= last < |order| && Waits(db, p, sources, order[last], now) && Grounded(db, p, order[last], limit)
  }

  /** Following the reasons from any waiting row leads, through earlier rows only, to active work. */
  lemma {:induction false} EveryWaitIsGrounded(db: Db, sources: set<int>, limit: int, order: seq<int>, now: int, i: nat)
    returns (chain: seq<int>)
    requires ByAge(db.rows, order) && i < |order|
    requires Waits(db, DispatchPass(db, sources, limit, order, now), sources, order[i], now)
    ensures Chain(db, sources, DispatchPass(db, sources, limit, order, now), order, now, limit, chain) && chain[0] == i
    decreases i
  {
    var p := DispatchPass(db, sources, limit, order, now);
    WaitingIsExplained(db, sources, limit, order, now, i);
    if Grounded(db, p, order[i], limit) {
      chain := [i];
    } else {
      var j :| Blames(db, sources, p, order, now, i, j);
      var rest := EveryWaitIsGrounded(db, sources, limit, order, now, j);
      chain := [i] + rest;
      forall k | 0 <= k < |chain| - 1
        ensures Blames(db, sources, p, order, now, chain[k], chain[k + 1])
      {
        if k > 0 {
          assert chain[k] == rest[k - 1] && chain[k + 1] == rest[k];
        }
      }
      assert chain[|chain| - 1] == rest[|rest| - 1];
    }
  }

  /** With nothing active and room for one run, some considered obligation starts. */
  lemma AnIdleHouseStartsSomething(db: Db, sources: set<int>, limit: int, order: seq<int>, now: int, t: int)
    requires ByAge(db.rows, order) && ActiveIds(db.runs) == {} && 1 <= limit
    requires Considered(db, sources, t, now)
    ensures exists u :: WasStarted(db, DispatchPass(db, sources, limit, order, now), u)
  {
    var p := DispatchPass(db, sources, limit, order, now);
    if !WasStarted(db, p, t) {
      var i :| 0 <= i < |order| && order[i] == t;
      var chain := EveryWaitIsGrounded(db, sources, limit, order, now, i);
      var last := order[chain[|chain| - 1]];
      PassChangesOnly(db, sources, limit, order, now);
      SomethingActiveWasStarted(db, sources, limit, order, now);
      if id :| id in ActiveIds(p.runs) {
        assert id !in ActiveIds(db.runs);
      } else {
        assert forall id :: id in ActiveIds(p.runs) ==> id in ActiveIds(db.runs);
        SubsetIsSmaller(ActiveIds(p.runs), ActiveIds(db.runs));
        assert forall id :: Occupies(db, p, id, last) ==> id in ActiveIds(p.runs);
      }
    }
  }

  /** What a pass makes active belongs to obligations it started. */
  lemma SomethingActiveWasStarted(db: Db, sources: set<int>, limit: int, order: seq<int>, now: int)
    requires ByAge(db.rows, order)
    ensures var p := DispatchPass(db, sources, limit, order, now);
      forall id :: id in ActiveIds(p.runs) && id !in db.runs ==> exists u :: WasStarted(db, p, u)
  {
    PassIsUptoAll(db, sources, limit, order, now);
    NewRunsAreStarts(db, sources, limit, order, now, |order|);
  }

  lemma {:induction false} NewRunsAreStarts(db: Db, sources: set<int>, limit: int, order: seq<int>, now: int, k: nat)
    requires Lists(db, order) && k <= |order|
    ensures var p := Upto(db, sources, limit, order, now, k);
      forall id :: id in p.runs && id !in db.runs ==> exists i :: 0 <= i < k && WasStarted(db, p, order[i])
  {
    if k > 0 {
      NewRunsAreStarts(db, sources, limit, order, now, k - 1);
      var p := Upto(db, sources, limit, order, now, k - 1);
      var q := Upto(db, sources, limit, order, now, k);
      HeldThroughout(db, sources, limit, order, now, k - 1);
      VisitTouchesOne(db, sources, limit, p, order[k - 1], now);
      forall id | id in q.runs && id !in db.runs
        ensures exists i :: 0 <= i < k && WasStarted(db, q, order[i])
      {
        if id in p.runs {
          var i :| 0 <= i < k - 1 && WasStarted(db, p, order[i]);
          assert WasStarted(db, q, order[i]);
        } else {
          assert WasStarted(db, q, order[k - 1]);
        }
      }
    }
  }

  lemma LimitNext(db: Db, sources: set<int>, limit: int, p: Pass, t: int, now: int)
    requires t in p.rows && p.count == |ActiveIds(p.runs)|
    ensures var q := Visit(db.tasks, sources, limit, p, t, now);
      |ActiveIds(q.runs)| <= |ActiveIds(p.runs)| || |ActiveIds(q.runs)| <= limit
  {
    OneMoreActive(p.runs, t, now);
  }

  lemma {:induction false} LimitThroughout(db: Db, sources: set<int>, limit: int, order: seq<int>, now: int, k: nat)
    requires Lists(db, order) && k <= |order|
    ensures var active := |ActiveIds(Upto(db, sources, limit, order, now, k).runs)|;
      active <= limit || active <= |ActiveIds(db.runs)|
  {
    if k > 0 {
      LimitThroughout(db, sources, limit, order, now, k - 1);
      HeldThroughout(db, sources, limit, order, now, k - 1);
      LimitNext(db, sources, limit, Upto(db, sources, limit, order, now, k - 1), order[k - 1], now);
    }
  }

  /** A pass never takes the number of active runs past the limit. */
  lemma TheLimitIsKept(db: Db, sources: set<int>, limit: int, order: seq<int>, now: int)
    requires ByAge(db.rows, order)
    ensures |ActiveIds(DispatchPass(db, sources, limit, order, now).runs)| <= Max(|ActiveIds(db.runs)|, limit)
  {
    PassIsUptoAll(db, sources, limit, order, now);
    LimitThroughout(db, sources, limit, order, now, |order|);
  }

  /** Only an enabled task is started, and never before its retry instant. */
  lemma OnlyRipeWorkStarts(db: Db, sources: set<int>, limit: int, order: seq<int>, now: int, t: int)
    requires ByAge(db.rows, order) && WasStarted(db, DispatchPass(db, sources, limit, order, now), t)
    ensures t in db.tasks && db.tasks[t].config.enabled
    ensures db.rows[t].status.Due? || (db.rows[t].status.Retry? && (db.rows[t].retryAt.Some? ==> db.rows[t].retryAt.value <= now))
  {
    PassChangesOnly(db, sources, limit, order, now);
    assert RowOutcome(db, DispatchPass(db, sources, limit, order, now), t, now);
  }
}

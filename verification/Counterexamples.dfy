/** Three runs of the service that lose an occurrence: no part of the discipline of NoLoss can be dropped. */
module Counterexamples {
  import opened Prelude
  import opened Records
  import opened Schedule
  import opened DueWork
  import opened Dispatching
  import opened Lifecycle
  import opened Protocol
  import opened DebtInvariant
  import opened NoLoss

  const HOUR: int := 3600 * SECOND

  /** Every hour on the hour. */
  function HourlyFires(cron: string, after: int): Option<int> {
    Some((after / HOUR + 1) * HOUR)
  }

  const HOURLY: Calendar := Calendar((cron: string) => true, HourlyFires)
  const ENV: Env := Env(HOURLY, 2)
  const CONFIG: Config := Config(7, "0 * * * *", true, None, false, "", "")

  lemma NextHour(after: int)
    ensures var next := (after / HOUR + 1) * HOUR;
      after < next && next % HOUR == 0 && forall o :: o % HOUR == 0 && after < o ==> next <= o
  {
  }

  lemma HourlyIsRegular()
    ensures Regular(HOURLY)
  {
    forall c, o
      ensures Occurs(HOURLY, c, o) <==> o % HOUR == 0
    {
      NextHour(o - 1);
    }
    forall c, t
      ensures NextOccurrence(HOURLY, c, t) == Some((t / HOUR + 1) * HOUR)
      ensures Occurs(HOURLY, c, (t / HOUR + 1) * HOUR)
      ensures forall o :: Occurs(HOURLY, c, o) && t < o ==> (t / HOUR + 1) * HOUR <= o
    {
      NextHour(t);
    }
  }

  /** One hourly task, created at instant 0. */
  function One(config: Config, baseline: Option<int>, runs: map<int, Run>, rows: map<int, Row>,
               live: map<int, Phase>, issued: nat, now: int): Sys
    requires 0 < issued
  {
    Sys(Db(map[1 := Task(config, 0, baseline, None)], runs, rows), live, map[1 := issued - 1], issued, map[1 := 0], now)
  }

  const EMPTY: Sys := Sys(Db(map[], map[], map[]), map[], map[], 0, map[], 0)

  /** The one part of the discipline that may be broken: only edits, only the rest of the obligation when an
      execution begins, or only the scan before it. */
  datatype Breach = ByEdit | ByMarker | ByStaleScan

  ghost predicate Allowed(env: Env, breach: Breach, s: Sys, step: Step) {
    match breach
    case ByEdit => !step.Edit? ==> Disciplined(env, s, step, 1)
    case ByMarker => if step.Begin? then BeginsScanned(env, s, step.id) else Disciplined(env, s, step, 1)
    case ByStaleScan => if step.Begin? then BeginsAtRest(s, step.id) else Disciplined(env, s, step, 1)
  }

  /** `steps` lead from `s` to `end`, every one of them possible and allowed. */
  ghost predicate Leads(env: Env, breach: Breach, s: Sys, steps: seq<Step>, end: Sys)
    decreases |steps|
  {
    if steps == [] then s == end
    else
      && Enabled(env, s, steps[0]) && Allowed(env, breach, s, steps[0])
      && Leads(env, breach, Next(env, s, steps[0]), steps[1..], end)
  }

  lemma {:induction false} Then(env: Env, breach: Breach, s: Sys, steps: seq<Step>, mid: Sys, step: Step)
    returns (longer: seq<Step>)
    requires Leads(env, breach, s, steps, mid) && Enabled(env, mid, step) && Allowed(env, breach, mid, step)
    ensures Leads(env, breach, s, longer, Next(env, mid, step)) && longer == steps + [step]
    decreases |steps|
  {
    longer := steps + [step];
    if steps == [] {
      assert longer[1..] == [];
    } else {
      var rest := Then(env, breach, Next(env, s, steps[0]), steps[1..], mid, step);
      assert longer[1..] == rest;
    }
  }

  ghost predicate AllowedThroughout(env: Env, breach: Breach, states: seq<Sys>, steps: seq<Step>) {
    |states| == |steps| + 1 && forall i :: 0 <= i < |steps| ==> Allowed(env, breach, states[i], steps[i])
  }

  /** A run found step by step is a trace of the service. */
  lemma {:induction false} LeadsIsTrace(env: Env, breach: Breach, s: Sys, steps: seq<Step>, end: Sys)
    returns (states: seq<Sys>)
    requires Leads(env, breach, s, steps, end)
    ensures |states| == |steps| + 1 && states[0] == s && states[|steps|] == end
    ensures forall i :: 0 <= i < |steps| ==> Enabled(env, states[i], steps[i]) && states[i + 1] == Next(env, states[i], steps[i])
    ensures AllowedThroughout(env, breach, states, steps)
    decreases |steps|
  {
    if steps == [] {
      states := [s];
    } else {
      var rest := LeadsIsTrace(env, breach, Next(env, s, steps[0]), steps[1..], end);
      states := [s] + rest;
      forall i | 0 <= i < |steps|
        ensures Enabled(env, states[i], steps[i]) && states[i + 1] == Next(env, states[i], steps[i])
        ensures Allowed(env, breach, states[i], steps[i])
      {
        if i > 0 {
          assert states[i] == rest[i - 1] && steps[i] == steps[1..][i - 1] && states[i + 1] == rest[i];
        }
      }
    }
  }

  /** Some trace from the empty installation that breaks the discipline in one way only loses an occurrence. */
  ghost predicate LosesAnOccurrence(env: Env, breach: Breach) {
    exists states, steps :: IsTrace(env, states, steps) && AllowedThroughout(env, breach, states, steps)
      && !NothingLost(env, states[|steps|], 1)
  }

  lemma Created()
    ensures Enabled(ENV, EMPTY, Create(1, CONFIG))
    ensures Next(ENV, EMPTY, Create(1, CONFIG)) == One(CONFIG, None, map[], map[], map[], 1, 0)
  {
  }

  lemma FirstScan()
    ensures Next(ENV, One(CONFIG, None, map[], map[], map[], 1, 0), ReconcileOne(1))
         == One(CONFIG, Some(0), map[], map[], map[], 1, 0)
  {
  }

  // ------------------------------------------------------------------ a requeued obligation keeps its marker

  function Pended(at: int): Run { Run(1, Pending, at, None, "") }

  const REAPED: Run := Run(1, Failed, HOUR, Some(2 * HOUR), ORPHANED)

  function HandedTo(id: int, newer: Option<int>, at: int): Row {
    Row(HOUR, Dispatched, None, 0, None, "", Some(id), newer, at)
  }

  lemma FirstOccurrence()
    ensures Next(ENV, One(CONFIG, Some(0), map[], map[], map[], 1, HOUR), ReconcileOne(1))
         == One(CONFIG, Some(HOUR), map[], map[1 := NewRow(HOUR, HOUR)], map[], 1, HOUR)
  {
    assert NextOccurrence(HOURLY, CONFIG.cron, 0) == Some(HOUR);
    assert Schedule.Walk(HOURLY, CONFIG.cron, HOUR, HOUR, MAX_OCCURRENCE_SCAN) == HOUR;
  }

  lemma LonePass(baseline: Option<int>, runs: map<int, Run>, row: Row, now: int)
    requires row.status.Due? && forall id :: id in runs ==> !runs[id].state.Active()
    ensures var db := Db(map[1 := Task(CONFIG, 0, baseline, None)], runs, map[1 := row]);
      var p := DispatchPass(db, {7}, 2, [1], now);
      var id := NextId(runs);
      && p.runs == runs[id := PendingRun(1, now)] && p.started == [id]
      && p.rows == map[1 := row.(status := Dispatched, runId := Some(id), waitReason := None, retryAt := None, updatedAt := now)]
  {
  }

  lemma FirstDispatch()
    ensures var s := One(CONFIG, Some(HOUR), map[], map[1 := NewRow(HOUR, HOUR)], map[], 1, HOUR);
      && Enabled(ENV, s, DispatchDue({7}, [1]))
      && Next(ENV, s, DispatchDue({7}, [1]))
         == One(CONFIG, Some(HOUR), map[1 := Pended(HOUR)], map[1 := HandedTo(1, None, HOUR)], map[1 := Scheduled], 1, HOUR)
  {
    var s := One(CONFIG, Some(HOUR), map[], map[1 := NewRow(HOUR, HOUR)], map[], 1, HOUR);
    var settled := SettleAll(s.db, HOUR);
    assert settled == s.db;
    assert ByAge(settled.rows, [1]);
    assert NextId(map[]) == 1;
    LonePass(Some(HOUR), map[], NewRow(HOUR, HOUR), HOUR);
    AfterPass(s, settled, [1], 1, map[1 := Pended(HOUR)], map[1 := HandedTo(1, None, HOUR)]);
  }

  lemma SecondOccurrence()
    ensures Next(ENV, One(CONFIG, Some(HOUR), map[1 := Pended(HOUR)], map[1 := HandedTo(1, None, HOUR)], map[], 1, 2 * HOUR),
                 ReconcileOne(1))
         == One(CONFIG, Some(2 * HOUR), map[1 := Pended(HOUR)], map[1 := HandedTo(1, Some(2 * HOUR), 2 * HOUR)], map[], 1, 2 * HOUR)
  {
  }

  lemma Reaped()
    ensures Next(ENV, One(CONFIG, Some(2 * HOUR), map[1 := Pended(HOUR)], map[1 := HandedTo(1, Some(2 * HOUR), 2 * HOUR)], map[], 1, 2 * HOUR),
                 Watchdog)
         == One(CONFIG, Some(2 * HOUR), map[1 := REAPED], map[1 := HandedTo(1, Some(2 * HOUR), 2 * HOUR)], map[], 1, 2 * HOUR)
  {
  }

  const REQUEUED: Row := Row(HOUR, Due, None, 0, None, "", None, Some(2 * HOUR), 2 * HOUR)

  lemma Requeued(tasks: map<int, Task>)
    requires 1 in tasks
    ensures SettleAll(Db(tasks, map[1 := REAPED], map[1 := HandedTo(1, Some(2 * HOUR), 2 * HOUR)]), 2 * HOUR)
         == Db(tasks, map[1 := REAPED], map[1 := REQUEUED])
  {
  }

  lemma SecondDispatch()
    ensures var s := One(CONFIG, Some(2 * HOUR), map[1 := REAPED], map[1 := HandedTo(1, Some(2 * HOUR), 2 * HOUR)], map[], 1, 2 * HOUR);
      && Enabled(ENV, s, DispatchDue({7}, [1]))
      && Next(ENV, s, DispatchDue({7}, [1]))
         == One(CONFIG, Some(2 * HOUR), map[1 := REAPED, 2 := Pended(2 * HOUR)],
                map[1 := HandedTo(2, Some(2 * HOUR), 2 * HOUR)], map[2 := Scheduled], 1, 2 * HOUR)
  {
    var s := One(CONFIG, Some(2 * HOUR), map[1 := REAPED], map[1 := HandedTo(1, Some(2 * HOUR), 2 * HOUR)], map[], 1, 2 * HOUR);
    Requeued(s.db.tasks);
    var settled := SettleAll(s.db, 2 * HOUR);
    assert ByAge(settled.rows, [1]);
    assert NextId(map[1 := REAPED]) == 2;
    LonePass(Some(2 * HOUR), map[1 := REAPED], REQUEUED, 2 * HOUR);
    AfterPass(s, settled, [1], 2, map[1 := REAPED, 2 := Pended(2 * HOUR)], map[1 := HandedTo(2, Some(2 * HOUR), 2 * HOUR)]);
  }

  /** What a pass makes of the whole state, given what it makes of the tables. */
  lemma AfterPass(s: Sys, settled: Db, order: seq<int>, id: int, runs: map<int, Run>, rows: map<int, Row>)
    requires s.live == map[] && s.origin == map[1 := 0] && s.db.tasks.Keys == {1} && s.db.tasks[1].baseline.Some?
    requires settled == SettleAll(s.db, s.now) && ByAge(settled.rows, order)
    requires var p := DispatchPass(settled, {7}, 2, order, s.now); p.runs == runs && p.rows == rows && p.started == [id]
    requires !Waived(s.db, Db(s.db.tasks, runs, rows), 1)
    ensures Next(ENV, s, DispatchDue({7}, order))
         == s.(db := Db(s.db.tasks, runs, rows), live := map[id := Scheduled])
  {
    assert WithRuns(map[], [id]) == map[id := Scheduled];
    assert Track(s.db, Db(s.db.tasks, runs, rows), s.origin) == s.origin;
  }

  /** The marker is taken: a third occurrence moves the watermark and leaves no other trace. */
  lemma ThirdScan(runs: map<int, Run>)
    requires 2 in runs && runs[2].state.Running?
    ensures Reconcile(HOURLY, Db(map[1 := Task(CONFIG, 0, Some(2 * HOUR), None)], runs, map[1 := HandedTo(2, Some(2 * HOUR), 2 * HOUR)]),
                      1, 3 * HOUR)
         == Db(map[1 := Task(CONFIG, 0, Some(3 * HOUR), None)], runs, map[1 := HandedTo(2, Some(2 * HOUR), 3 * HOUR)])
  {
    assert NextOccurrence(HOURLY, CONFIG.cron, 2 * HOUR) == Some(3 * HOUR);
    assert Schedule.Walk(HOURLY, CONFIG.cron, 3 * HOUR, 3 * HOUR, MAX_OCCURRENCE_SCAN) == 3 * HOUR;
  }

  lemma ThirdOccurrence()
    ensures var runs := map[1 := REAPED, 2 := Began(Pended(2 * HOUR), 2 * HOUR)];
      Next(ENV, One(CONFIG, Some(2 * HOUR), runs, map[1 := HandedTo(2, Some(2 * HOUR), 2 * HOUR)], map[2 := Inside], 1, 3 * HOUR),
                 ReconcileOne(1))
         == One(CONFIG, Some(3 * HOUR), runs, map[1 := HandedTo(2, Some(2 * HOUR), 3 * HOUR)], map[2 := Inside], 1, 3 * HOUR)
  {
    ThirdScan(map[1 := REAPED, 2 := Began(Pended(2 * HOUR), 2 * HOUR)]);
  }

  lemma PaidOnce()
    ensures var before := map[1 := REAPED, 2 := Began(Pended(2 * HOUR), 2 * HOUR)];
      var after := map[1 := REAPED, 2 := Ended(before[2], Success, "", 3 * HOUR)];
      Next(ENV, One(CONFIG, Some(3 * HOUR), before, map[1 := HandedTo(2, Some(2 * HOUR), 3 * HOUR)], map[2 := Inside], 1, 3 * HOUR),
           Finalize(2, Success, ""))
         == One(CONFIG, Some(3 * HOUR), after, map[1 := NewRow(2 * HOUR, 3 * HOUR)], map[2 := Written], 1, 3 * HOUR)
  {
  }

  lemma PaidAgain(tasks: map<int, Task>, runs: map<int, Run>, id: int)
    requires 1 in tasks && Succeeded(runs, 1, id) && runs[id].startedAt == 2 * HOUR
    ensures SettleAll(Db(tasks, runs, map[1 := NewRow(2 * HOUR, 3 * HOUR)]), 3 * HOUR) == Db(tasks, runs, map[])
  {
    PaidIsLatest(runs, 1, 2 * HOUR);
  }

  lemma PaidAndDropped()
    ensures var before := map[1 := REAPED, 2 := Began(Pended(2 * HOUR), 2 * HOUR)];
      var after := map[1 := REAPED, 2 := Ended(before[2], Success, "", 3 * HOUR)];
      && Next(ENV, One(CONFIG, Some(3 * HOUR), before, map[1 := HandedTo(2, Some(2 * HOUR), 3 * HOUR)], map[2 := Inside], 1, 3 * HOUR),
              Finalize(2, Success, ""))
         == One(CONFIG, Some(3 * HOUR), after, map[1 := NewRow(2 * HOUR, 3 * HOUR)], map[2 := Written], 1, 3 * HOUR)
      && Next(ENV, One(CONFIG, Some(3 * HOUR), after, map[1 := NewRow(2 * HOUR, 3 * HOUR)], map[2 := Written], 1, 3 * HOUR), SettleEvery)
         == One(CONFIG, Some(3 * HOUR), after, map[], map[2 := Written], 1, 3 * HOUR)
  {
    PaidOnce();
    var before := map[1 := REAPED, 2 := Began(Pended(2 * HOUR), 2 * HOUR)];
    var after := map[1 := REAPED, 2 := Ended(before[2], Success, "", 3 * HOUR)];
    var paid := One(CONFIG, Some(3 * HOUR), after, map[1 := NewRow(2 * HOUR, 3 * HOUR)], map[2 := Written], 1, 3 * HOUR);
    assert Succeeded(after, 1, 2);
    PaidAgain(paid.db.tasks, after, 2);
    AfterSettling(paid, paid.db.(rows := map[]));
  }

  /** Until the first obligation is handed to run 1. */
  lemma Opening(breach: Breach) returns (steps: seq<Step>)
    ensures Leads(ENV, breach, EMPTY, steps,
                  One(CONFIG, Some(HOUR), map[1 := Pended(HOUR)], map[1 := HandedTo(1, None, HOUR)], map[1 := Scheduled], 1, HOUR))
  {
    Created();
    steps := Then(ENV, breach, EMPTY, [], EMPTY, Create(1, CONFIG));
    FirstScan();
    steps := Then(ENV, breach, EMPTY, steps, One(CONFIG, None, map[], map[], map[], 1, 0), ReconcileOne(1));
    steps := Then(ENV, breach, EMPTY, steps, One(CONFIG, Some(0), map[], map[], map[], 1, 0), Advance(HOUR));
    FirstOccurrence();
    steps := Then(ENV, breach, EMPTY, steps, One(CONFIG, Some(0), map[], map[], map[], 1, HOUR), ReconcileOne(1));
    FirstDispatch();
    steps := Then(ENV, breach, EMPTY, steps, One(CONFIG, Some(HOUR), map[], map[1 := NewRow(HOUR, HOUR)], map[], 1, HOUR),
                  DispatchDue({7}, [1]));
  }

  /** Every write of run 1 fails, so it vanishes from an active row; a second occurrence is marked behind it, and the
      watchdog fails the row. */
  lemma Orphaning() returns (steps: seq<Step>)
    ensures Leads(ENV, ByMarker, EMPTY, steps,
      One(CONFIG, Some(2 * HOUR), map[1 := REAPED], map[1 := HandedTo(1, Some(2 * HOUR), 2 * HOUR)], map[], 1, 2 * HOUR))
  {
    var pended, row := map[1 := Pended(HOUR)], HandedTo(1, None, HOUR);
    steps := Opening(ByMarker);
    steps := Then(ENV, ByMarker, EMPTY, steps, One(CONFIG, Some(HOUR), pended, map[1 := row], map[1 := Scheduled], 1, HOUR), Register(1));
    assert map[1 := Phase.Scheduled][1 := Owned] == map[1 := Owned];
    steps := Then(ENV, ByMarker, EMPTY, steps, One(CONFIG, Some(HOUR), pended, map[1 := row], map[1 := Owned], 1, HOUR), Vanish(1));
    assert map[1 := Phase.Owned] - {1} == map[];
    steps := Then(ENV, ByMarker, EMPTY, steps, One(CONFIG, Some(HOUR), pended, map[1 := row], map[], 1, HOUR), Advance(2 * HOUR));
    SecondOccurrence();
    steps := Then(ENV, ByMarker, EMPTY, steps, One(CONFIG, Some(HOUR), pended, map[1 := row], map[], 1, 2 * HOUR), ReconcileOne(1));
    Reaped();
    steps := Then(ENV, ByMarker, EMPTY, steps,
      One(CONFIG, Some(2 * HOUR), pended, map[1 := HandedTo(1, Some(2 * HOUR), 2 * HOUR)], map[], 1, 2 * HOUR), Watchdog);
  }

  lemma Beginning()
    ensures var pended := map[1 := REAPED, 2 := Pended(2 * HOUR)];
      var rows := map[1 := HandedTo(2, Some(2 * HOUR), 2 * HOUR)];
      && Next(ENV, One(CONFIG, Some(2 * HOUR), pended, rows, map[2 := Scheduled], 1, 2 * HOUR), Register(2))
         == One(CONFIG, Some(2 * HOUR), pended, rows, map[2 := Owned], 1, 2 * HOUR)
      && Next(ENV, One(CONFIG, Some(2 * HOUR), pended, rows, map[2 := Owned], 1, 2 * HOUR), Begin(2))
         == One(CONFIG, Some(2 * HOUR), map[1 := REAPED, 2 := Began(Pended(2 * HOUR), 2 * HOUR)], rows, map[2 := Inside], 1, 2 * HOUR)
  {
    assert map[2 := Phase.Scheduled][2 := Owned] == map[2 := Owned];
    assert map[2 := Phase.Owned][2 := Inside] == map[2 := Inside];
  }

  /** The same pass that requeued the obligation starts it again with its marker. */
  lemma Restarting() returns (steps: seq<Step>)
    ensures Leads(ENV, ByMarker, EMPTY, steps,
      One(CONFIG, Some(2 * HOUR), map[1 := REAPED, 2 := Began(Pended(2 * HOUR), 2 * HOUR)],
          map[1 := HandedTo(2, Some(2 * HOUR), 2 * HOUR)], map[2 := Inside], 1, 2 * HOUR))
  {
    var pended, rows := map[1 := REAPED, 2 := Pended(2 * HOUR)], map[1 := HandedTo(2, Some(2 * HOUR), 2 * HOUR)];
    steps := Orphaning();
    SecondDispatch();
    steps := Then(ENV, ByMarker, EMPTY, steps,
      One(CONFIG, Some(2 * HOUR), map[1 := REAPED], map[1 := HandedTo(1, Some(2 * HOUR), 2 * HOUR)], map[], 1, 2 * HOUR),
      DispatchDue({7}, [1]));
    Beginning();
    steps := Then(ENV, ByMarker, EMPTY, steps, One(CONFIG, Some(2 * HOUR), pended, rows, map[2 := Scheduled], 1, 2 * HOUR), Register(2));
    steps := Then(ENV, ByMarker, EMPTY, steps, One(CONFIG, Some(2 * HOUR), pended, rows, map[2 := Owned], 1, 2 * HOUR), Begin(2));
  }

  /** A third occurrence finds the marker taken. */
  lemma MarkerTaken() returns (steps: seq<Step>)
    ensures var running := map[1 := REAPED, 2 := Began(Pended(2 * HOUR), 2 * HOUR)];
      Leads(ENV, ByMarker, EMPTY, steps,
        One(CONFIG, Some(3 * HOUR), running, map[1 := HandedTo(2, Some(2 * HOUR), 3 * HOUR)], map[2 := Inside], 1, 3 * HOUR))
  {
    var rows := map[1 := HandedTo(2, Some(2 * HOUR), 2 * HOUR)];
    var running := map[1 := REAPED, 2 := Began(Pended(2 * HOUR), 2 * HOUR)];
    steps := Restarting();
    steps := Then(ENV, ByMarker, EMPTY, steps, One(CONFIG, Some(2 * HOUR), running, rows, map[2 := Inside], 1, 2 * HOUR), Advance(3 * HOUR));
    ThirdOccurrence();
    steps := Then(ENV, ByMarker, EMPTY, steps, One(CONFIG, Some(2 * HOUR), running, rows, map[2 := Inside], 1, 3 * HOUR), ReconcileOne(1));
  }

  /** And the success of run 2 pays the row away. */
  lemma PayingAway() returns (steps: seq<Step>)
    ensures var done := map[1 := REAPED, 2 := Ended(Began(Pended(2 * HOUR), 2 * HOUR), Success, "", 3 * HOUR)];
      Leads(ENV, ByMarker, EMPTY, steps, One(CONFIG, Some(3 * HOUR), done, map[], map[2 := Written], 1, 3 * HOUR))
  {
    var running := map[1 := REAPED, 2 := Began(Pended(2 * HOUR), 2 * HOUR)];
    steps := MarkerTaken();
    PaidAndDropped();
    steps := Then(ENV, ByMarker, EMPTY, steps,
      One(CONFIG, Some(3 * HOUR), running, map[1 := HandedTo(2, Some(2 * HOUR), 3 * HOUR)], map[2 := Inside], 1, 3 * HOUR),
      Finalize(2, Success, ""));
    var done := map[1 := REAPED, 2 := Ended(running[2], Success, "", 3 * HOUR)];
    steps := Then(ENV, ByMarker, EMPTY, steps,
      One(CONFIG, Some(3 * HOUR), done, map[1 := NewRow(2 * HOUR, 3 * HOUR)], map[2 := Written], 1, 3 * HOUR), SettleEvery);
  }

  /** A path whose end has an uncovered, unowed folded occurrence is a losing run. */
  lemma PathLoses(breach: Breach, steps: seq<Step>, end: Sys, o: int)
    requires Leads(ENV, breach, EMPTY, steps, end)
    requires 1 in end.db.tasks && 1 in end.origin && 1 !in end.db.rows
    requires Folded(HOURLY, end.db.tasks[1], end.origin[1], o)
    requires forall id :: Succeeded(end.db.runs, 1, id) ==> end.db.runs[id].startedAt < o - TICK_EARLY_TOLERANCE
    ensures LosesAnOccurrence(ENV, breach)
  {
    assert !Covered(end.db.runs, 1, o);
    assert !NothingLost(ENV, end, 1);
    var states := LeadsIsTrace(ENV, breach, EMPTY, steps, end);
  }

  lemma ThirdIsFolded()
    ensures Folded(HOURLY, Task(CONFIG, 0, Some(3 * HOUR), None), 0, 3 * HOUR)
  {
  }

  /** An execution that begins with a marker on its obligation can lose an occurrence. */
  lemma MarkerAtBeginLosesAnOccurrence()
    ensures Regular(HOURLY) && LosesAnOccurrence(ENV, ByMarker)
  {
    HourlyIsRegular();
    ThirdIsFolded();
    var steps := PayingAway();
    var done := map[1 := REAPED, 2 := Ended(Began(Pended(2 * HOUR), 2 * HOUR), Success, "", 3 * HOUR)];
    PathLoses(ByMarker, steps, One(CONFIG, Some(3 * HOUR), done, map[], map[2 := Written], 1, 3 * HOUR), 3 * HOUR);
  }

  // ------------------------------------------------------------------ an execution begins on a stale schedule

  const LATE: Run := Began(Pended(HOUR), 2 * HOUR)

  lemma LateBeginning()
    ensures var rows := map[1 := HandedTo(1, None, HOUR)];
      Next(ENV, One(CONFIG, Some(HOUR), map[1 := Pended(HOUR)], rows, map[1 := Owned], 1, 2 * HOUR), Begin(1))
      == One(CONFIG, Some(HOUR), map[1 := LATE], rows, map[1 := Inside], 1, 2 * HOUR)
  {
    assert map[1 := Phase.Owned][1 := Inside] == map[1 := Inside];
  }

  /** Two occurrences folded at once behind the execution: the marker is the earlier one. */
  lemma LateFold(db: Db)
    requires db == Db(map[1 := Task(CONFIG, 0, Some(HOUR), None)], map[1 := LATE], map[1 := HandedTo(1, None, HOUR)])
    ensures Reconcile(HOURLY, db, 1, 3 * HOUR)
         == Db(map[1 := Task(CONFIG, 0, Some(3 * HOUR), None)], db.runs, map[1 := HandedTo(1, Some(2 * HOUR), 3 * HOUR)])
  {
    assert NextOccurrence(HOURLY, CONFIG.cron, HOUR) == Some(2 * HOUR);
    assert NextOccurrence(HOURLY, CONFIG.cron, 2 * HOUR) == Some(3 * HOUR);
    assert NextOccurrence(HOURLY, CONFIG.cron, 3 * HOUR) == Some(4 * HOUR);
    assert Schedule.Walk(HOURLY, CONFIG.cron, 3 * HOUR, 3 * HOUR, MAX_OCCURRENCE_SCAN - 1) == 3 * HOUR;
    assert Schedule.Walk(HOURLY, CONFIG.cron, 2 * HOUR, 3 * HOUR, MAX_OCCURRENCE_SCAN) == 3 * HOUR;
    assert SettleAt(db, 1, 3 * HOUR) == db;
  }

  lemma LateScan()
    ensures Next(ENV, One(CONFIG, Some(HOUR), map[1 := LATE], map[1 := HandedTo(1, None, HOUR)], map[1 := Inside], 1, 3 * HOUR), ReconcileOne(1))
         == One(CONFIG, Some(3 * HOUR), map[1 := LATE], map[1 := HandedTo(1, Some(2 * HOUR), 3 * HOUR)], map[1 := Inside], 1, 3 * HOUR)
  {
    LateFold(One(CONFIG, Some(HOUR), map[1 := LATE], map[1 := HandedTo(1, None, HOUR)], map[1 := Inside], 1, 3 * HOUR).db);
  }

  lemma LateSuccess()
    ensures Next(ENV, One(CONFIG, Some(3 * HOUR), map[1 := LATE], map[1 := HandedTo(1, Some(2 * HOUR), 3 * HOUR)], map[1 := Inside], 1, 3 * HOUR),
                 Finalize(1, Success, ""))
         == One(CONFIG, Some(3 * HOUR), map[1 := Ended(LATE, Success, "", 3 * HOUR)], map[1 := NewRow(2 * HOUR, 3 * HOUR)],
                map[1 := Written], 1, 3 * HOUR)
  {
    assert map[1 := Phase.Inside][1 := Written] == map[1 := Written];
  }

  /** Run 1 begins an hour late, before any scan has seen the second occurrence. */
  lemma BegunLate() returns (steps: seq<Step>)
    ensures Leads(ENV, ByStaleScan, EMPTY, steps,
      One(CONFIG, Some(HOUR), map[1 := LATE], map[1 := HandedTo(1, None, HOUR)], map[1 := Inside], 1, 2 * HOUR))
  {
    var pended, rows := map[1 := Pended(HOUR)], map[1 := HandedTo(1, None, HOUR)];
    steps := Opening(ByStaleScan);
    steps := Then(ENV, ByStaleScan, EMPTY, steps, One(CONFIG, Some(HOUR), pended, rows, map[1 := Scheduled], 1, HOUR), Advance(2 * HOUR));
    steps := Then(ENV, ByStaleScan, EMPTY, steps, One(CONFIG, Some(HOUR), pended, rows, map[1 := Scheduled], 1, 2 * HOUR), Register(1));
    assert map[1 := Phase.Scheduled][1 := Owned] == map[1 := Owned];
    LateBeginning();
    steps := Then(ENV, ByStaleScan, EMPTY, steps, One(CONFIG, Some(HOUR), pended, rows, map[1 := Owned], 1, 2 * HOUR), Begin(1));
  }

  /** The scan marks the occurrence the execution covers, and its success leaves just that marker. */
  lemma SucceededLate() returns (steps: seq<Step>)
    ensures Leads(ENV, ByStaleScan, EMPTY, steps,
      One(CONFIG, Some(3 * HOUR), map[1 := Ended(LATE, Success, "", 3 * HOUR)], map[1 := NewRow(2 * HOUR, 3 * HOUR)], map[1 := Written], 1, 3 * HOUR))
  {
    var row := HandedTo(1, None, HOUR);
    steps := BegunLate();
    steps := Then(ENV, ByStaleScan, EMPTY, steps, One(CONFIG, Some(HOUR), map[1 := LATE], map[1 := row], map[1 := Inside], 1, 2 * HOUR), Advance(3 * HOUR));
    LateScan();
    steps := Then(ENV, ByStaleScan, EMPTY, steps, One(CONFIG, Some(HOUR), map[1 := LATE], map[1 := row], map[1 := Inside], 1, 3 * HOUR), ReconcileOne(1));
    LateSuccess();
    steps := Then(ENV, ByStaleScan, EMPTY, steps,
      One(CONFIG, Some(3 * HOUR), map[1 := LATE], map[1 := HandedTo(1, Some(2 * HOUR), 3 * HOUR)], map[1 := Inside], 1, 3 * HOUR),
      Finalize(1, Success, ""));
  }

  /** Settling pays that marker too, although the third occurrence was folded behind it. */
  lemma PaidUnseen() returns (steps: seq<Step>)
    ensures Leads(ENV, ByStaleScan, EMPTY, steps,
      One(CONFIG, Some(3 * HOUR), map[1 := Ended(LATE, Success, "", 3 * HOUR)], map[], map[1 := Written], 1, 3 * HOUR))
  {
    steps := SucceededLate();
    var runs := map[1 := Ended(LATE, Success, "", 3 * HOUR)];
    var paid := One(CONFIG, Some(3 * HOUR), runs, map[1 := NewRow(2 * HOUR, 3 * HOUR)], map[1 := Written], 1, 3 * HOUR);
    assert Succeeded(runs, 1, 1);
    PaidAgain(paid.db.tasks, runs, 1);
    AfterSettling(paid, paid.db.(rows := map[]));
    steps := Then(ENV, ByStaleScan, EMPTY, steps, paid, SettleEvery);
  }

  /** An execution that begins before its schedule was scanned can lose an occurrence. */
  lemma StaleScanLosesAnOccurrence()
    ensures Regular(HOURLY) && LosesAnOccurrence(ENV, ByStaleScan)
  {
    HourlyIsRegular();
    ThirdIsFolded();
    var steps := PaidUnseen();
    PathLoses(ByStaleScan, steps,
      One(CONFIG, Some(3 * HOUR), map[1 := Ended(LATE, Success, "", 3 * HOUR)], map[], map[1 := Written], 1, 3 * HOUR), 3 * HOUR);
  }

  // ------------------------------------------------------------------ an edit unblocks an obligation already overtaken

  const REFUSED: string := "run owner failed: ValueError"
  const FAILED_RUN: Run := Run(1, Failed, HOUR, Some(HOUR), REFUSED)
  const MANUAL: Run := Run(1, Success, HOUR, Some(HOUR), "")
  const RENAMED: Config := CONFIG.(notes := "fixed")

  function BlockedRow(at: int): Row { Row(HOUR, Blocked, None, 0, None, REFUSED, None, None, at) }

  lemma AfterSettling(s: Sys, settled: Db)
    requires s.origin == map[1 := 0] && s.db.tasks.Keys == {1} && s.db.tasks[1].baseline.Some?
    requires settled == SettleAll(s.db, s.now) && !Waived(s.db, settled, 1)
    ensures Next(ENV, s, SettleEvery) == s.(db := settled)
  {
  }

  lemma RefusalIsPermanent()
    ensures !Infrastructure(REFUSED) && Permanent(REFUSED)
  {
    assert RESTARTED[0] != REFUSED[0] && RECLAIMED[4] != REFUSED[4] && CANCELLED[4] != REFUSED[4];
    assert REFUSED in PERMANENT_FAILURES && REFUSED <= REFUSED[0..];
  }

  lemma Refused()
    ensures var rows := map[1 := HandedTo(1, None, HOUR)];
      Next(ENV, One(CONFIG, Some(HOUR), map[1 := Pended(HOUR)], rows, map[1 := Owned], 1, HOUR), Leave(1, Failed, REFUSED))
      == One(CONFIG, Some(HOUR), map[1 := FAILED_RUN], rows, map[], 1, HOUR)
  {
  }

  lemma Blocking(tasks: map<int, Task>)
    requires 1 in tasks
    ensures SettleAll(Db(tasks, map[1 := FAILED_RUN], map[1 := HandedTo(1, None, HOUR)]), HOUR)
         == Db(tasks, map[1 := FAILED_RUN], map[1 := BlockedRow(HOUR)])
  {
    RefusalIsPermanent();
    assert Clip(REFUSED) == REFUSED;
  }

  lemma Admitting()
    ensures var rows := map[1 := BlockedRow(HOUR)];
      Next(ENV, One(CONFIG, Some(HOUR), map[1 := FAILED_RUN], rows, map[], 1, HOUR), RunNow(1))
      == One(CONFIG, Some(HOUR), map[1 := FAILED_RUN, 2 := Pended(HOUR)], rows, map[2 := Scheduled], 1, HOUR)
  {
  }

  lemma ManualBegin()
    ensures var rows := map[1 := BlockedRow(HOUR)];
      Next(ENV, One(CONFIG, Some(HOUR), map[1 := FAILED_RUN, 2 := Pended(HOUR)], rows, map[2 := Owned], 1, HOUR), Begin(2))
      == One(CONFIG, Some(HOUR), map[1 := FAILED_RUN, 2 := Began(Pended(HOUR), HOUR)], rows, map[2 := Inside], 1, HOUR)
  {
  }

  lemma ManualEnd()
    ensures var rows := map[1 := BlockedRow(HOUR)];
      Next(ENV, One(CONFIG, Some(HOUR), map[1 := FAILED_RUN, 2 := Began(Pended(HOUR), HOUR)], rows, map[2 := Inside], 1, HOUR),
           Finalize(2, Success, ""))
      == One(CONFIG, Some(HOUR), map[1 := FAILED_RUN, 2 := MANUAL], rows, map[2 := Written], 1, HOUR)
  {
  }

  lemma SilentFold()
    ensures var runs := map[1 := FAILED_RUN, 2 := MANUAL];
      Next(ENV, One(CONFIG, Some(HOUR), runs, map[1 := BlockedRow(HOUR)], map[2 := Written], 1, 2 * HOUR), ReconcileOne(1))
         == One(CONFIG, Some(2 * HOUR), runs, map[1 := BlockedRow(2 * HOUR)], map[2 := Written], 1, 2 * HOUR)
  {
  }

  lemma UnblockedTables(db: Db)
    requires db == Db(map[1 := Task(CONFIG, 0, Some(2 * HOUR), None)], map[1 := FAILED_RUN, 2 := MANUAL], map[1 := BlockedRow(2 * HOUR)])
    ensures UpdateTask(db, 1, RENAMED, 2 * HOUR)
         == Db(map[1 := Task(RENAMED, 0, Some(2 * HOUR), None)], db.runs, map[1 := NewRow(HOUR, 2 * HOUR)])
  {
  }

  lemma Unblocking()
    ensures var s := One(CONFIG, Some(2 * HOUR), map[1 := FAILED_RUN, 2 := MANUAL], map[1 := BlockedRow(2 * HOUR)],
                         map[2 := Written], 1, 2 * HOUR);
      && Enabled(ENV, s, Edit(1, RENAMED))
      && Next(ENV, s, Edit(1, RENAMED))
         == One(RENAMED, Some(2 * HOUR), map[1 := FAILED_RUN, 2 := MANUAL], map[1 := NewRow(HOUR, 2 * HOUR)],
                map[2 := Written], 2, 2 * HOUR)
  {
    var s := One(CONFIG, Some(2 * HOUR), map[1 := FAILED_RUN, 2 := MANUAL], map[1 := BlockedRow(2 * HOUR)],
                 map[2 := Written], 1, 2 * HOUR);
    UnblockedTables(s.db);
  }

  lemma PaidByTheManualRun(tasks: map<int, Task>)
    requires 1 in tasks
    ensures SettleAll(Db(tasks, map[1 := FAILED_RUN, 2 := MANUAL], map[1 := NewRow(HOUR, 2 * HOUR)]), 2 * HOUR)
         == Db(tasks, map[1 := FAILED_RUN, 2 := MANUAL], map[])
  {
    var runs := map[1 := FAILED_RUN, 2 := MANUAL];
    PaidIsLatest(runs, 1, HOUR);
    assert Succeeded(runs, 1, 2);
  }

  /** Up to the blocked obligation. */
  lemma BlockedOpening() returns (steps: seq<Step>)
    ensures Leads(ENV, ByEdit, EMPTY, steps, One(CONFIG, Some(HOUR), map[1 := FAILED_RUN], map[1 := BlockedRow(HOUR)], map[], 1, HOUR))
  {
    var pended, rows := map[1 := Pended(HOUR)], map[1 := HandedTo(1, None, HOUR)];
    steps := Opening(ByEdit);
    steps := Then(ENV, ByEdit, EMPTY, steps, One(CONFIG, Some(HOUR), pended, rows, map[1 := Scheduled], 1, HOUR), Register(1));
    assert map[1 := Phase.Scheduled][1 := Owned] == map[1 := Owned];
    Refused();
    steps := Then(ENV, ByEdit, EMPTY, steps, One(CONFIG, Some(HOUR), pended, rows, map[1 := Owned], 1, HOUR), Leave(1, Failed, REFUSED));
    var failed := One(CONFIG, Some(HOUR), map[1 := FAILED_RUN], rows, map[], 1, HOUR);
    Blocking(failed.db.tasks);
    AfterSettling(failed, failed.db.(rows := map[1 := BlockedRow(HOUR)]));
    steps := Then(ENV, ByEdit, EMPTY, steps, failed, SettleEvery);
  }

  /** A manual run is admitted while the obligation is blocked. */
  lemma ManualAdmission() returns (steps: seq<Step>)
    ensures Leads(ENV, ByEdit, EMPTY, steps,
      One(CONFIG, Some(HOUR), map[1 := FAILED_RUN, 2 := Pended(HOUR)], map[1 := BlockedRow(HOUR)], map[2 := Owned], 1, HOUR))
  {
    var rows := map[1 := BlockedRow(HOUR)];
    var pended := map[1 := FAILED_RUN, 2 := Pended(HOUR)];
    steps := BlockedOpening();
    Admitting();
    steps := Then(ENV, ByEdit, EMPTY, steps, One(CONFIG, Some(HOUR), map[1 := FAILED_RUN], rows, map[], 1, HOUR), RunNow(1));
    steps := Then(ENV, ByEdit, EMPTY, steps, One(CONFIG, Some(HOUR), pended, rows, map[2 := Scheduled], 1, HOUR), Register(2));
    assert map[2 := Phase.Scheduled][2 := Owned] == map[2 := Owned];
  }

  /** And succeeds. */
  lemma ManualSuccess() returns (steps: seq<Step>)
    ensures Leads(ENV, ByEdit, EMPTY, steps,
      One(CONFIG, Some(HOUR), map[1 := FAILED_RUN, 2 := MANUAL], map[1 := BlockedRow(HOUR)], map[2 := Written], 1, HOUR))
  {
    var rows := map[1 := BlockedRow(HOUR)];
    var pended := map[1 := FAILED_RUN, 2 := Pended(HOUR)];
    steps := ManualAdmission();
    ManualBegin();
    ManualEnd();
    steps := Then(ENV, ByEdit, EMPTY, steps, One(CONFIG, Some(HOUR), pended, rows, map[2 := Owned], 1, HOUR), Begin(2));
    var running := map[1 := FAILED_RUN, 2 := Began(Pended(HOUR), HOUR)];
    steps := Then(ENV, ByEdit, EMPTY, steps, One(CONFIG, Some(HOUR), running, rows, map[2 := Inside], 1, HOUR), Finalize(2, Success, ""));
  }

  lemma EditedAway() returns (steps: seq<Step>)
    ensures Leads(ENV, ByEdit, EMPTY, steps,
      One(RENAMED, Some(2 * HOUR), map[1 := FAILED_RUN, 2 := MANUAL], map[], map[2 := Written], 2, 2 * HOUR))
  {
    var runs := map[1 := FAILED_RUN, 2 := MANUAL];
    steps := ManualSuccess();
    steps := Then(ENV, ByEdit, EMPTY, steps, One(CONFIG, Some(HOUR), runs, map[1 := BlockedRow(HOUR)], map[2 := Written], 1, HOUR), Advance(2 * HOUR));
    SilentFold();
    steps := Then(ENV, ByEdit, EMPTY, steps, One(CONFIG, Some(HOUR), runs, map[1 := BlockedRow(HOUR)], map[2 := Written], 1, 2 * HOUR), ReconcileOne(1));
    Unblocking();
    steps := Then(ENV, ByEdit, EMPTY, steps,
      One(CONFIG, Some(2 * HOUR), runs, map[1 := BlockedRow(2 * HOUR)], map[2 := Written], 1, 2 * HOUR), Edit(1, RENAMED));
    var edited := One(RENAMED, Some(2 * HOUR), runs, map[1 := NewRow(HOUR, 2 * HOUR)], map[2 := Written], 2, 2 * HOUR);
    PaidByTheManualRun(edited.db.tasks);
    AfterSettling(edited, edited.db.(rows := map[]));
    steps := Then(ENV, ByEdit, EMPTY, steps, edited, SettleEvery);
  }

  lemma SecondIsFolded()
    ensures Folded(HOURLY, Task(RENAMED, 0, Some(2 * HOUR), None), 0, 2 * HOUR)
  {
  }

  /** An edit that unblocks after a manual success drops what was folded in between. */
  lemma UnblockingEditLosesAnOccurrence()
    ensures Regular(HOURLY) && LosesAnOccurrence(ENV, ByEdit)
  {
    HourlyIsRegular();
    SecondIsFolded();
    var steps := EditedAway();
    PathLoses(ByEdit, steps, One(RENAMED, Some(2 * HOUR), map[1 := FAILED_RUN, 2 := MANUAL], map[], map[2 := Written], 2, 2 * HOUR),
              2 * HOUR);
  }
}

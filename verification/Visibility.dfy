/** What the projection reports late is on record: freshness and the retained obligations agree. */
module Visibility {
  import opened Prelude
  import opened Records
  import opened Schedule
  import opened DueWork
  import opened Protocol
  import opened DebtInvariant
  import opened NoLoss
  import Freshness

  /** The success the projection was given is the newest one of the task. */
  ghost predicate NewestSuccess(runs: map<int, Run>, t: int, success: Option<Freshness.SuccessInfo>) {
    forall id :: Succeeded(runs, t, id) ==> success.Some? && runs[id].startedAt <= success.value.startedAt
  }

  /** In a run disciplined for its task, a delayed or stale task whose named occurrence has been folded has its
      obligation on record, and the reason reported is what became of that obligation, never a bare "missed". */
  lemma LateWorkIsOnRecord(env: Env, states: seq<Sys>, steps: seq<Step>, k: nat, t: int,
                           s: Freshness.Subject, e: Freshness.Evidence)
    requires Regular(env.cal) && IsTrace(env, states, steps) && k < |states|
    requires forall i :: 0 <= i < |steps| ==> Disciplined(env, states[i], steps[i], t)
    requires t in states[k].db.tasks && t in states[k].origin && s.cron == states[k].db.tasks[t].config.cron
    requires NewestSuccess(states[k].db.runs, t, s.lastSuccess)
    requires var v := Freshness.Project(env.cal, s, e, states[k].now);
      v.deadlineAt.Some? && v.occurrenceAt.Some?
      && Folded(env.cal, states[k].db.tasks[t], states[k].origin[t], v.occurrenceAt.value)
    ensures t in states[k].db.rows
    ensures e.dueStatus == Some(states[k].db.rows[t].status) ==>
      Freshness.Project(env.cal, s, e, states[k].now).reason
        in {Freshness.OnHold, Freshness.RetriesExhausted, Freshness.UnderWay, Freshness.Retrying, Freshness.Queued}
  {
    if e.dueStatus.Some? {
      Freshness.TheQueueExplains(env.cal, s, e, states[k].now);
    }
    Freshness.TheEarliestDebtIsNamed(env.cal, s, e, states[k].now);
    var o := Freshness.Project(env.cal, s, e, states[k].now).occurrenceAt.value;
    var runs := states[k].db.runs;
    forall id | Succeeded(runs, t, id)
      ensures runs[id].startedAt < o - TICK_EARLY_TOLERANCE
    {
      assert Freshness.Owed(env.cal, s, o, states[k].now);
    }
    NoOccurrenceIsLost(env, states, steps, k, t);
    assert NothingLost(env, states[k], t);
    assert !Covered(runs, t, o);
  }
}

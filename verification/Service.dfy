/** scheduler.py and the edit endpoints of api/tasks.py: generation tokens and task mutation under the lifecycle lock. */
module Services {
  import opened Prelude
  import opened Records
  import opened Schedule
  import opened DueWork
  import opened Dispatching
  import opened Lifecycle
  import opened Protocol
  import opened Ledgers
  import opened Runners

  class Scheduler {
    const cal: Calendar
    /** `_generations`: the token a task's registered job carries. */
    var generations: map<int, nat>
    /** The arguments of the registered jobs. */
    var jobs: map<int, nat>
    /** Tokens are fresh objects: the next identity never used before. */
    var issued: nat

    constructor (cal: Calendar)
      ensures this.cal == cal && generations == map[] && jobs == map[] && issued == 0
    {
      this.cal := cal;
      generations, jobs, issued := map[], map[], 0;
    }

    /** Only the registered job's token is accepted, and no token is ever handed out twice. */
    ghost predicate Valid()
      reads this
    {
      jobs == generations && forall t :: t in generations ==> generations[t] < issued
    }

    method UpsertJob(t: int, config: Config)
      requires Valid()
      modifies this
      ensures Valid()
      ensures generations == Upserted(cal, old(generations), old(issued), t, config) && issued == old(issued) + 1
      ensures t in generations <==> config.enabled && cal.parses(config.cron)
      ensures forall u :: u in old(generations) && u != t ==> u in generations && generations[u] == old(generations)[u]
    {
      jobs := jobs - {t};
      generations := generations - {t};
      if config.enabled && cal.parses(config.cron) {
        generations := generations[t := issued];
        jobs := jobs[t := issued];
      }
      issued := issued + 1;
      assert config.enabled && cal.parses(config.cron) ==> generations == old(generations)[t := old(issued)];
    }

    method RemoveJob(t: int)
      requires Valid()
      modifies this
      ensures Valid()
      ensures generations == old(generations) - {t} && issued == old(issued)
    {
      generations := generations - {t};
      jobs := jobs - {t};
    }

    /** `start` of a fresh process: one job per enabled task whose cron parses; `order` is the select of enabled tasks. */
    method Start(tasks: map<int, Task>, order: seq<int>)
      requires Valid() && generations == map[]
      requires forall t :: t in order <==> t in tasks && tasks[t].config.enabled
      modifies this
      ensures Valid() && old(issued) <= issued
      ensures forall t :: t in generations <==> t in tasks && tasks[t].config.enabled && cal.parses(tasks[t].config.cron)
      ensures forall t :: t in generations ==> old(issued) <= generations[t]
    {
      ghost var first := issued;
      var i := 0;
      while i < |order|
        invariant 0 <= i <= |order| && Valid() && first <= issued
        invariant forall t :: t in generations <==> t in order[..i] && t in tasks && cal.parses(tasks[t].config.cron)
        invariant forall t :: t in generations ==> first <= generations[t]
      {
        var t := order[i];
        assert t in order;
        assert order[..i + 1] == order[..i] + [t];
        if cal.parses(tasks[t].config.cron) {
          generations := generations[t := issued];
          jobs := jobs[t := issued];
          issued := issued + 1;
        }
        i := i + 1;
      }
      assert order[..i] == order;
    }

    /** A tick of a job that has since been replaced writes nothing; a direct call carries no token and is not checked. */
    method Execute(ledger: Ledger, t: int, token: Option<nat>, now: int)
      requires ledger.cal == cal
      modifies ledger
      ensures ledger.Tables() ==
        if token.None? || (t in generations && generations[t] == token.value)
        then RecordTick(cal, old(ledger.Tables()), t, now) else old(ledger.Tables())
    {
      if token.Some? && !(t in generations && generations[t] == token.value) {
        return;
      }
      ledger.TickTask(t, now);
    }
  }

  datatype Response = Done | TaskNotFound | Conflict

  class TaskApi {
    const ledger: Ledger
    const scheduler: Scheduler
    const runner: Runner

    constructor (ledger: Ledger, scheduler: Scheduler, runner: Runner)
      ensures this.ledger == ledger && this.scheduler == scheduler && this.runner == runner
    {
      this.ledger := ledger;
      this.scheduler := scheduler;
      this.runner := runner;
    }

    method UpdateTask(t: int, config: Config, now: int) returns (answer: Response)
      requires scheduler.Valid()
      modifies ledger`tasks, ledger`rows, scheduler
      ensures scheduler.Valid()
      ensures answer.TaskNotFound? <==> t !in old(ledger.tasks)
      ensures answer.Conflict? <==>
        && t in old(ledger.tasks) && HasActiveRun(old(ledger.runs), t)
        && var before := old(ledger.tasks)[t].config;
           before.sourceId != config.sourceId || before.destination != config.destination
           || before.destinationValid != config.destinationValid || before.settings != config.settings
      ensures answer.Done? ==>
        && ledger.Tables() == Lifecycle.UpdateTask(old(ledger.Tables()), t, config, now)
        && scheduler.generations == Upserted(scheduler.cal, old(scheduler.generations), old(scheduler.issued), t, config)
      ensures !answer.Done? ==> ledger.Tables() == old(ledger.Tables()) && scheduler.generations == old(scheduler.generations)
    {
      if t !in ledger.tasks {
        return TaskNotFound;
      }
      var before := ledger.tasks[t].config;
      if HasActiveRun(ledger.runs, t) && UnsafeActiveChange(before, config) {
        return Conflict;
      }
      ledger.tasks := ledger.tasks[t := ledger.tasks[t].(config := config)];
      ledger.TaskEdited(t, before.cron != config.cron || before.enabled != config.enabled, now);
      scheduler.UpsertJob(t, config);
      return Done;
    }

    /** `childRuns` is what the select of the task's runs answers. */
    method DeleteTask(t: int, childRuns: seq<int>) returns (answer: Response)
      requires scheduler.Valid()
      requires forall id :: id in childRuns <==> id in ledger.runs && ledger.runs[id].task == t
      modifies ledger, scheduler
      ensures scheduler.Valid()
      ensures answer.TaskNotFound? <==> t !in old(ledger.tasks)
      ensures answer.Conflict? <==> t in old(ledger.tasks) && HasActiveRun(old(ledger.runs), t)
      ensures answer.Done? ==>
        && ledger.Tables() == Lifecycle.DeleteTask(old(ledger.Tables()), t)
        && scheduler.generations == old(scheduler.generations) - {t}
      ensures !answer.Done? ==> ledger.Tables() == old(ledger.Tables()) && scheduler.generations == old(scheduler.generations)
    {
      if t !in ledger.tasks {
        return TaskNotFound;
      }
      if HasActiveRun(ledger.runs, t) {
        return Conflict;
      }
      scheduler.RemoveJob(t);
      if t in ledger.rows {
        ledger.rows := ledger.rows - {t};
      }
      ghost var was := ledger.runs;
      var i := 0;
      while i < |childRuns|
        invariant 0 <= i <= |childRuns| && ledger.tasks == old(ledger.tasks) && ledger.rows == old(ledger.rows) - {t}
        invariant scheduler.Valid() && scheduler.generations == old(scheduler.generations) - {t}
        invariant forall id :: id in ledger.runs <==> id in was && id !in childRuns[..i]
        invariant forall id :: id in ledger.runs ==> ledger.runs[id] == was[id]
      {
        ledger.runs := ledger.runs - {childRuns[i]};
        i := i + 1;
      }
      assert childRuns[..i] == childRuns;
      ledger.tasks := ledger.tasks - {t};
      ghost var left := Lifecycle.DeleteTask(old(ledger.Tables()), t).runs;
      forall id
        ensures id in ledger.runs <==> id in left
        ensures id in left ==> ledger.runs[id] == left[id]
      {
        assert id in childRuns <==> id in was && was[id].task == t;
      }
      assert ledger.runs == left;
      return Done;
    }

    /** `run_now`: admission decides; the caller starts the accepted run. */
    method RunNow(t: int, now: int) returns (answer: Response, runId: Option<int>)
      requires runner.ledger == ledger
      modifies ledger`runs
      ensures answer.TaskNotFound? <==> t !in ledger.tasks
      ensures answer.Conflict? <==> t in ledger.tasks && Refusal(old(ledger.Tables()), t).Some?
      ensures answer.Done? ==> runId == Some(NextId(old(ledger.runs))) && ledger.Tables() == AddPending(old(ledger.Tables()), t, now)
      ensures !answer.Done? ==> runId.None? && ledger.Tables() == old(ledger.Tables())
    {
      if t !in ledger.tasks {
        return TaskNotFound, None;
      }
      var admission := runner.AdmitRun(t, now);
      if admission.Accepted? {
        return Done, Some(admission.runId);
      }
      return Conflict, None;
    }
  }
}

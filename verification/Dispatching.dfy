/** The oldest-first pass of dispatcher.py over the retained obligations. */
module Dispatching {
  import opened Prelude
  import opened Records
  import opened DueWork

  /** One destination contains the other: the shorter key is a prefix of the longer. */
  predicate Conflicts(left: Key, right: Key) {
    var shared := if |left| < |right| then |left| else |right|;
    left[..shared] == right[..shared]
  }

  predicate ConflictsWithAny(key: Option<Key>, held: set<Key>) {
    key.Some? && exists k :: k in held && Conflicts(key.value, k)
  }

  /** What a pass has gathered so far. */
  datatype Pass = Pass(runs: map<int, Run>, rows: map<int, Row>,
                       activeTasks: set<int>, activeSources: set<int>, dests: set<Key>,
                       claimedSources: set<int>, claimedDests: set<Key>,
                       count: nat, started: seq<int>)

  /** The next primary key. */
  function NextId(runs: map<int, Run>): (id: int)
    ensures id !in runs
  {
    var last := Latest(runs.Keys);
    if last.None? then 1 else last.value + 1
  }

  predicate Eligible(row: Row, now: int) {
    row.status.Due? || (row.status.Retry? && (row.retryAt.None? || row.retryAt.value <= now))
  }

  /** A destination that does not validate has no exclusion key. */
  function ClaimKey(task: Task): Option<Key> {
    if task.config.destinationValid then task.config.destination else None
  }

  function Reason(p: Pass, t: int, task: Task, limit: int): Option<WaitReason> {
    if t in p.activeTasks then Some(TaskActive)
    else if task.config.sourceId in p.activeSources || task.config.sourceId in p.claimedSources then Some(SourceBusy)
    else if ConflictsWithAny(ClaimKey(task), p.dests + p.claimedDests) then Some(DestinationBusy)
    else if limit <= p.count then Some(Capacity)
    else None
  }

  function With(keys: set<Key>, key: Option<Key>): set<Key> {
    if key.Some? then keys + {key.value} else keys
  }

  function Hold(p: Pass, t: int, task: Task, reason: WaitReason, now: int): Pass
    requires t in p.rows
  {
    var row := p.rows[t];
    var marked := if row.waitReason == Some(reason) then row
                  else row.(waitReason := Some(reason), updatedAt := now);
    p.(rows := p.rows[t := marked],
       claimedSources := p.claimedSources + {task.config.sourceId},
       claimedDests := With(p.claimedDests, ClaimKey(task)))
  }

  function PendingRun(t: int, now: int): Run {
    Run(t, Pending, now, None, "")
  }

  function Start(p: Pass, t: int, task: Task, now: int): Pass
    requires t in p.rows
  {
    var id := NextId(p.runs);
    p.(runs := p.runs[id := PendingRun(t, now)],
       rows := p.rows[t := p.rows[t].(status := Dispatched, runId := Some(id), waitReason := None,
                                      retryAt := None, updatedAt := now)],
       activeTasks := p.activeTasks + {t},
       activeSources := p.activeSources + {task.config.sourceId},
       dests := With(p.dests, ClaimKey(task)),
       count := p.count + 1,
       started := p.started + [id])
  }

  /** What one row of the pass does. */
  function Visit(tasks: map<int, Task>, sources: set<int>, limit: int, p: Pass, t: int, now: int): Pass
    requires t in p.rows
  {
    var row := p.rows[t];
    if !row.status.Dispatched? && t in tasks && !tasks[t].config.enabled then p.(rows := p.rows - {t})
    else if !Eligible(row, now) || t !in tasks || tasks[t].config.sourceId !in sources then p
    else
      var reason := Reason(p, t, tasks[t], limit);
      if reason.Some? then Hold(p, t, tasks[t], reason.value, now) else Start(p, t, tasks[t], now)
  }

  predicate Distinct(order: seq<int>) {
    forall i, j :: 0 <= i < j < |order| ==> order[i] != order[j]
  }

  function RunPass(tasks: map<int, Task>, sources: set<int>, limit: int, p: Pass, order: seq<int>, now: int): Pass
    requires Distinct(order) && forall t :: t in order ==> t in p.rows
    decreases |order|
  {
    if order == [] then p
    else
      var q := Visit(tasks, sources, limit, p, order[0], now);
      RunPass(tasks, sources, limit, q, order[1..], now)
  }

  /** `order` lists every obligation once, oldest due instant first. */
  ghost predicate ByAge(rows: map<int, Row>, order: seq<int>) {
    && (forall t :: t in order <==> t in rows)
    && Distinct(order)
    && (forall i, j :: 0 <= i < j < |order| ==> rows[order[i]].dueAt <= rows[order[j]].dueAt)
  }

  function ActiveIds(runs: map<int, Run>): set<int> {
    set id | id in runs && runs[id].state.Active()
  }

  /** What the pass knows before its first row. A run whose task is gone counts only towards the limit. */
  function Open(db: Db): Pass {
    var known := set id | id in ActiveIds(db.runs) && db.runs[id].task in db.tasks;
    Pass(db.runs, db.rows,
         set id | id in known :: db.runs[id].task,
         set id | id in known :: db.tasks[db.runs[id].task].config.sourceId,
         set id | id in known && db.tasks[db.runs[id].task].config.destination.Some?
           :: db.tasks[db.runs[id].task].config.destination.value,
         {}, {}, |ActiveIds(db.runs)|, [])
  }

  /** One pass over tables that have just been settled. */
  function DispatchPass(db: Db, sources: set<int>, limit: int, order: seq<int>, now: int): Pass
    requires Distinct(order) && forall t :: t in order ==> t in db.rows
  {
    RunPass(db.tasks, sources, limit, Open(db), order, now)
  }
}

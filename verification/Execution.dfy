/** The three nested resources of `_execute_run`: destination, then permit, then source.
    Every step is one stretch of the event loop between two awaits. */
module Execution {
  import opened Prelude
  import opened Records
  import opened Dispatching

  /** How far an execution is into, or out of, its three nested contexts. */
  datatype Stage = Waiting | HasDestination | HasPermit | HasSource | FreedSource | FreedPermit | Finished {
    predicate HoldsDestination() { !Waiting? && !Finished? }

    predicate HoldsPermit() { HasPermit? || HasSource? || FreedSource? }

    /** Contexts still to enter or leave. */
    function Rank(): nat {
      match this
      case Waiting => 6
      case HasDestination => 5
      case HasPermit => 4
      case HasSource => 3
      case FreedSource => 2
      case FreedPermit => 1
      case Finished => 0
    }
  }

  datatype Job = Job(key: Key, source: int, stage: Stage)

  /** `held` is `_active_destinations`, `free` the semaphore's value, `locks` the holder of each source lock. */
  datatype House = House(jobs: map<int, Job>, held: map<int, Key>, free: int, locks: map<int, int>)

  datatype Move =
    | Arrive(id: int, key: Key, source: int)
    | TakeDestination(id: int)
    | TakePermit(id: int)
    | TakeSource(id: int)
    | Finish(id: int)
    | ReturnPermit(id: int)
    | ReturnDestination(id: int)
    | Cancel(id: int)

  predicate At(h: House, id: int, stage: Stage) {
    id in h.jobs && h.jobs[id].stage == stage
  }

  /** What the condition variable waits for. */
  predicate Unobstructed(held: map<int, Key>, id: int, key: Key) {
    forall holder :: holder in held && holder != id ==> !Conflicts(key, held[holder])
  }

  predicate Possible(h: House, move: Move) {
    match move
    case Arrive(id, _, _) => id !in h.jobs
    case TakeDestination(id) => At(h, id, Waiting) && Unobstructed(h.held, id, h.jobs[id].key)
    case TakePermit(id) => At(h, id, HasDestination) && 0 < h.free
    case TakeSource(id) => At(h, id, HasPermit) && h.jobs[id].source !in h.locks
    case Finish(id) => At(h, id, HasSource)
    case ReturnPermit(id) => At(h, id, FreedSource)
    case ReturnDestination(id) => At(h, id, FreedPermit)
    case Cancel(id) => At(h, id, Waiting) || At(h, id, HasDestination) || At(h, id, HasPermit)
  }

  function Reach(h: House, id: int, stage: Stage): map<int, Job>
    requires id in h.jobs
  {
    h.jobs[id := h.jobs[id].(stage := stage)]
  }

  /** Where the unwinding of a cancelled wait begins: at the innermost context already entered. */
  function Unwind(stage: Stage): Stage {
    match stage
    case Waiting => Finished
    case HasDestination => FreedPermit
    case _ => FreedSource
  }

  function After(h: House, move: Move): House
    requires Possible(h, move)
  {
    match move
    case Arrive(id, key, source) => h.(jobs := h.jobs[id := Job(key, source, Waiting)])
    case TakeDestination(id) => h.(jobs := Reach(h, id, HasDestination), held := h.held[id := h.jobs[id].key])
    case TakePermit(id) => h.(jobs := Reach(h, id, HasPermit), free := h.free - 1)
    case TakeSource(id) => h.(jobs := Reach(h, id, HasSource), locks := h.locks[h.jobs[id].source := id])
    case Finish(id) => h.(jobs := Reach(h, id, FreedSource), locks := h.locks - {h.jobs[id].source})
    case ReturnPermit(id) => h.(jobs := Reach(h, id, FreedPermit), free := h.free + 1)
    case ReturnDestination(id) => h.(jobs := Reach(h, id, Finished), held := h.held - {id})
    case Cancel(id) => h.(jobs := Reach(h, id, Unwind(h.jobs[id].stage)))
  }

  function PermitHolders(jobs: map<int, Job>): set<int> {
    set id | id in jobs && jobs[id].stage.HoldsPermit()
  }

  /** Destinations are held by exactly the executions inside that context, and none contains another. */
  ghost predicate DestinationsHeld(h: House) {
    && (forall id :: id in h.held <==> id in h.jobs && h.jobs[id].stage.HoldsDestination())
    && (forall id :: id in h.held ==> h.held[id] == h.jobs[id].key)
    && (forall i, j :: i in h.held && j in h.held && i != j ==> !Conflicts(h.held[i], h.held[j]))
  }

  ghost predicate PermitsCounted(h: House, permits: int) {
    0 <= h.free && h.free + |PermitHolders(h.jobs)| == permits
  }

  ghost predicate SourcesLocked(h: House) {
    && (forall s :: s in h.locks ==> At(h, h.locks[s], HasSource) && h.jobs[h.locks[s]].source == s)
    && (forall id :: At(h, id, HasSource) ==> h.jobs[id].source in h.locks && h.locks[h.jobs[id].source] == id)
  }

  /** Every resource is held by exactly the executions inside its context. */
  ghost predicate Consistent(h: House, permits: int) {
    DestinationsHeld(h) && PermitsCounted(h, permits) && SourcesLocked(h)
  }

  // ------------------------------------------------------------------ containment

  /** `path` lies in the subtree of `key`. */
  predicate Inside(path: Key, key: Key) {
    key <= path
  }

  /** Two keys conflict exactly when some path lies in both subtrees. */
  lemma ConflictMeansSharedPath(left: Key, right: Key)
    ensures Conflicts(left, right) <==> exists path :: Inside(path, left) && Inside(path, right)
  {
    if Conflicts(left, right) {
      var longer := if |left| < |right| then right else left;
      assert Inside(longer, left) && Inside(longer, right);
    }
    if path :| Inside(path, left) && Inside(path, right) {
      assert left == path[..|left|] && right == path[..|right|];
    }
  }

  lemma ConflictIsSymmetric(left: Key, right: Key)
    ensures Conflicts(left, left) && (Conflicts(left, right) <==> Conflicts(right, left))
  {
  }

  /** Two siblings conflict with their parent and not with each other. */
  lemma ConflictIsNotTransitive(parent: Key, a: string, b: string)
    requires a != b
    ensures Conflicts(parent + [a], parent) && Conflicts(parent, parent + [b]) && !Conflicts(parent + [a], parent + [b])
  {
    assert (parent + [a])[|parent|] == a && (parent + [b])[|parent|] == b;
    assert (parent + [a])[..|parent|] == parent == (parent + [b])[..|parent|];
  }

  // ------------------------------------------------------------------ safety

  lemma PermitsFollowTheStage(jobs: map<int, Job>, id: int, job: Job)
    ensures PermitHolders(jobs[id := job])
         == PermitHolders(jobs) - {id} + (if job.stage.HoldsPermit() then {id} else {})
  {
  }

  lemma NobodyHoldsAPermit(jobs: map<int, Job>)
    requires forall id :: id in jobs ==> !jobs[id].stage.HoldsPermit()
    ensures |PermitHolders(jobs)| == 0
  {
    forall id
      ensures id !in PermitHolders(jobs)
    {
    }
    SubsetIsSmaller(PermitHolders(jobs), {});
  }

  lemma DestinationsNext(h: House, move: Move)
    requires DestinationsHeld(h) && Possible(h, move)
    ensures DestinationsHeld(After(h, move))
  {
    if move.TakeDestination? {
      forall j | j in h.held && j != move.id
        ensures !Conflicts(h.jobs[move.id].key, h.held[j]) && !Conflicts(h.held[j], h.jobs[move.id].key)
      {
        ConflictIsSymmetric(h.jobs[move.id].key, h.held[j]);
      }
    }
  }

  function PermitsOf(jobs: map<int, Job>, id: int): nat {
    if id in jobs && jobs[id].stage.HoldsPermit() then 1 else 0
  }

  lemma PermitsRecounted(jobs: map<int, Job>, id: int, job: Job)
    ensures |PermitHolders(jobs[id := job])|
         == |PermitHolders(jobs)| - PermitsOf(jobs, id) + if job.stage.HoldsPermit() then 1 else 0
  {
    PermitsFollowTheStage(jobs, id, job);
    var others := PermitHolders(jobs) - {id};
    if PermitsOf(jobs, id) == 1 {
      assert id in PermitHolders(jobs);
      assert PermitHolders(jobs) == others + {id};
    } else {
      assert id !in PermitHolders(jobs);
      assert PermitHolders(jobs) == others;
    }
  }

  lemma PermitsNext(h: House, move: Move, permits: int)
    requires PermitsCounted(h, permits) && Possible(h, move)
    ensures PermitsCounted(After(h, move), permits)
  {
    PermitsRecounted(h.jobs, move.id, After(h, move).jobs[move.id]);
    assert After(h, move).jobs == h.jobs[move.id := After(h, move).jobs[move.id]];
    match move
    case Arrive(_, _, _) =>
    case Cancel(id) =>
    case _ =>
  }

  lemma SourcesNext(h: House, move: Move)
    requires SourcesLocked(h) && Possible(h, move)
    ensures SourcesLocked(After(h, move))
  {
  }

  lemma ConsistentNext(h: House, move: Move, permits: int)
    requires Consistent(h, permits) && Possible(h, move)
    ensures Consistent(After(h, move), permits)
  {
    DestinationsNext(h, move);
    PermitsNext(h, move, permits);
    SourcesNext(h, move);
  }

  ghost predicate IsRun(houses: seq<House>, moves: seq<Move>) {
    && |houses| == |moves| + 1
    && forall i :: 0 <= i < |moves| ==> Possible(houses[i], moves[i]) && houses[i + 1] == After(houses[i], moves[i])
  }

  /** A process that has started nothing yet. */
  predicate Idle(h: House, permits: int) {
    h == House(map[], map[], permits, map[])
  }

  lemma {:induction false} AlwaysConsistent(houses: seq<House>, moves: seq<Move>, permits: nat, k: nat)
    requires IsRun(houses, moves) && Idle(houses[0], permits) && k < |houses|
    ensures Consistent(houses[k], permits)
  {
    if k > 0 {
      AlwaysConsistent(houses, moves, permits, k - 1);
      ConsistentNext(houses[k - 1], moves[k - 1], permits);
    } else {
      assert PermitHolders(houses[0].jobs) == {};
    }
  }

  /** No path is ever written by two executions: held destinations are pairwise disjoint subtrees. */
  lemma HeldSubtreesAreDisjoint(houses: seq<House>, moves: seq<Move>, permits: nat, k: nat, i: int, j: int, path: Key)
    requires IsRun(houses, moves) && Idle(houses[0], permits) && k < |houses|
    requires i in houses[k].held && j in houses[k].held && i != j
    ensures !(Inside(path, houses[k].held[i]) && Inside(path, houses[k].held[j]))
  {
    AlwaysConsistent(houses, moves, permits, k);
    ConflictMeansSharedPath(houses[k].held[i], houses[k].held[j]);
  }

  /** An execution waiting for its destination takes no permit from anyone, and a finished one keeps nothing. */
  lemma OutsideHoldsNothing(houses: seq<House>, moves: seq<Move>, permits: nat, k: nat, id: int)
    requires IsRun(houses, moves) && Idle(houses[0], permits) && k < |houses|
    requires At(houses[k], id, Waiting) || At(houses[k], id, Finished)
    ensures id !in houses[k].held && id !in houses[k].locks.Values
    ensures houses[k].free + |PermitHolders(houses[k].jobs - {id})| == permits
  {
    AlwaysConsistent(houses, moves, permits, k);
    var h := houses[k];
    assert PermitHolders(h.jobs - {id}) == PermitHolders(h.jobs);
    forall s | s in h.locks
      ensures h.locks[s] != id
    {
      assert At(h, h.locks[s], HasSource);
    }
  }

  /** When every execution has left, every resource is back. */
  lemma EverythingIsReturned(houses: seq<House>, moves: seq<Move>, permits: nat, k: nat)
    requires IsRun(houses, moves) && Idle(houses[0], permits) && k < |houses|
    requires forall id :: id in houses[k].jobs ==> At(houses[k], id, Finished)
    ensures (forall id :: id !in houses[k].held) && (forall s :: s !in houses[k].locks) && houses[k].free == permits
  {
    AlwaysConsistent(houses, moves, permits, k);
    var h := houses[k];
    NobodyHoldsAPermit(h.jobs);
    forall id
      ensures id !in h.held
    {
      assert id in h.jobs ==> At(h, id, Finished);
    }
    forall s
      ensures s !in h.locks
    {
      assert s in h.locks ==> At(h, h.locks[s], HasSource);
    }
  }

  // ------------------------------------------------------------------ progress

  /** A move of an execution towards its end that nobody has to ask for. */
  predicate Advances(h: House, move: Move) {
    Possible(h, move) && !move.Arrive? && !move.Cancel?
  }

  predicate Unfinished(h: House, id: int) {
    id in h.jobs && !h.jobs[id].stage.Finished?
  }

  /** With at least one permit, whenever some execution is unfinished some execution can move. */
  lemma NeverDeadlocked(h: House, permits: int, id: int)
    requires Consistent(h, permits) && 1 <= permits && Unfinished(h, id)
    ensures exists move :: Advances(h, move)
  {
    if i :| i in h.jobs && h.jobs[i].stage.HasSource? {
      assert Advances(h, Finish(i));
    } else if i :| i in h.jobs && h.jobs[i].stage.FreedSource? {
      assert Advances(h, ReturnPermit(i));
    } else if i :| i in h.jobs && h.jobs[i].stage.FreedPermit? {
      assert Advances(h, ReturnDestination(i));
    } else if i :| i in h.jobs && h.jobs[i].stage.HasPermit? {
      assert h.jobs[i].source !in h.locks;
      assert Advances(h, TakeSource(i));
    } else if i :| i in h.jobs && h.jobs[i].stage.HasDestination? {
      NobodyHoldsAPermit(h.jobs);
      assert Advances(h, TakePermit(i));
    } else {
      assert forall i :: i !in h.held;
      assert Advances(h, TakeDestination(id));
    }
  }

  /** The stages all executions still have before them. */
  function Remaining(jobs: map<int, Job>): nat
    decreases jobs.Keys
  {
    var first := Earliest(jobs.Keys);
    if first.None? then 0 else jobs[first.value].stage.Rank() + Remaining(jobs - {first.value})
  }

  lemma {:induction false} RemainingWithout(jobs: map<int, Job>, id: int)
    requires id in jobs
    ensures Remaining(jobs) == jobs[id].stage.Rank() + Remaining(jobs - {id})
    decreases jobs.Keys
  {
    var first := Earliest(jobs.Keys).value;
    if first != id {
      RemainingWithout(jobs - {first}, id);
      RemainingWithout(jobs - {id}, first);
      assert jobs - {first} - {id} == jobs - {id} - {first};
    }
  }

  /** Every move but an arrival lowers what remains. */
  lemma EveryMoveHelps(h: House, move: Move)
    requires Possible(h, move) && !move.Arrive?
    ensures Remaining(After(h, move).jobs) < Remaining(h.jobs)
  {
    var after := After(h, move).jobs;
    RemainingWithout(h.jobs, move.id);
    RemainingWithout(after, move.id);
    assert after - {move.id} == h.jobs - {move.id};
  }

  lemma {:induction false} MovesAreBounded(houses: seq<House>, moves: seq<Move>, k: nat)
    requires IsRun(houses, moves) && k < |houses| && forall i :: 0 <= i < |moves| ==> !moves[i].Arrive?
    ensures k + Remaining(houses[k].jobs) <= Remaining(houses[0].jobs)
  {
    if k > 0 {
      MovesAreBounded(houses, moves, k - 1);
      EveryMoveHelps(houses[k - 1], moves[k - 1]);
    }
  }

  lemma {:induction false} SixStagesEach(jobs: map<int, Job>)
    ensures Remaining(jobs) <= 6 * |jobs|
    decreases jobs.Keys
  {
    var first := Earliest(jobs.Keys);
    if first.Some? {
      SixStagesEach(jobs - {first.value});
      assert (jobs - {first.value}).Keys == jobs.Keys - {first.value};
    }
  }

  /** Once arrivals stop, at most six moves per execution are left, and when none is possible all have finished. */
  lemma ExecutionTerminates(houses: seq<House>, moves: seq<Move>, permits: int)
    requires IsRun(houses, moves) && Consistent(houses[0], permits) && 1 <= permits
    requires forall i :: 0 <= i < |moves| ==> !moves[i].Arrive?
    ensures |moves| <= 6 * |houses[0].jobs|
    ensures (forall move :: !Advances(houses[|moves|], move)) ==> forall id :: !Unfinished(houses[|moves|], id)
  {
    MovesAreBounded(houses, moves, |moves|);
    SixStagesEach(houses[0].jobs);
    StaysConsistent(houses, moves, permits, |moves|);
    forall id | Unfinished(houses[|moves|], id)
      ensures exists move :: Advances(houses[|moves|], move)
    {
      NeverDeadlocked(houses[|moves|], permits, id);
    }
  }

  lemma {:induction false} StaysConsistent(houses: seq<House>, moves: seq<Move>, permits: int, k: nat)
    requires IsRun(houses, moves) && Consistent(houses[0], permits) && k < |houses|
    ensures Consistent(houses[k], permits)
  {
    if k > 0 {
      StaysConsistent(houses, moves, permits, k - 1);
      ConsistentNext(houses[k - 1], moves[k - 1], permits);
    }
  }
}

/** runner.py as it runs: admission, ownership, the terminal writes, the watchdog and destination exclusion. */
module Runners {
  import opened Prelude
  import opened Records
  import opened DueWork
  import opened Dispatching
  import opened Lifecycle
  import opened Ledgers
  import opened DebtSteps
  import Execution

  datatype Admission = Accepted(runId: int) | Denied(reason: Denial) | NoSuchTask

  /** How the subprocess part of an execution ended: with an exit code, after so many seconds, or interrupted. */
  datatype Ending = Exited(code: int) | TimedOut(seconds: int) | Interrupted

  /** Why an execution left before its own terminal write. */
  datatype Departure = Settled | Cancelled | NotOwned | Failure(what: string)

  datatype CancelOutcome = WasCancelled | AlreadyFinished | NotOwnedHere | StillRunning | NotFound

  /** An integer as text. */
  function Decimal(n: int): (text: string)
    ensures forall c :: c in text ==> c == '-' || '0' <= c <= '9'
  {
    if n < 0 then "-" + Digits(-n) else Digits(n)
  }

  function Digits(n: nat): (text: string)
    ensures text != "" && forall c :: c in text ==> '0' <= c <= '9'
  {
    var last := [('0' as int + n % 10) as char];
    if n < 10 then last else Digits(n / 10) + last
  }

  /** The number a row of digits stands for. */
  function Number(digits: string): int {
    if digits == "" then 0 else 10 * Number(digits[..|digits| - 1]) + digits[|digits| - 1] as int - '0' as int
  }

  lemma {:induction false} DigitsStandFor(n: nat)
    ensures Number(Digits(n)) == n
  {
    var last := ('0' as int + n % 10) as char;
    if n < 10 {
      assert [last][..0] == "";
    } else {
      DigitsStandFor(n / 10);
      assert (Digits(n / 10) + [last])[..|Digits(n / 10)|] == Digits(n / 10);
    }
  }

  /** Different integers read differently, so a message tells which exit code or which timeout it was. */
  lemma DecimalTellsApart(a: int, b: int)
    requires Decimal(a) == Decimal(b)
    ensures a == b
  {
    var x, y := if a < 0 then -a else a, if b < 0 then -b else b;
    DigitsStandFor(x);
    DigitsStandFor(y);
    assert Decimal(a)[0] == '-' <==> a < 0 by {
      assert Digits(x)[0] in Digits(x);
    }
    assert Decimal(b)[0] == '-' <==> b < 0 by {
      assert Digits(y)[0] in Digits(y);
    }
    if a < 0 {
      assert Decimal(a)[1..] == Digits(x) && Decimal(b)[1..] == Digits(y);
    }
  }

  const TIMEOUT_TEXT: string := "s execution timeout " + "and its process group " + "was terminated"

  /** The terminal state and message of an execution; an interruption counts as cancelled only if an operator asked. */
  function Verdict(ending: Ending, cancelRequested: bool): (RunState, string) {
    match ending
    case Exited(code) => if code == 0 then (Success, "") else (Failed, "rsync exited " + Decimal(code))
    case TimedOut(seconds) =>
      (Failed, "run exceeded the " + Decimal(seconds) + TIMEOUT_TEXT)
    case Interrupted => (if cancelRequested then RunState.Cancelled else Failed, CANCELLED)
  }

  // ------------------------------------------------------------------ what the terminal write is worth

  predicate Clean(ending: Ending) {
    ending.Exited? && ending.code == 0
  }

  /** The work was tried and did not succeed: a nonzero exit or a timeout. */
  predicate Broken(ending: Ending) {
    (ending.Exited? && ending.code != 0) || ending.TimedOut?
  }

  /** Success is recorded for a clean exit alone, a cancellation for a requested stop alone, and the message says which
      exit code or which timeout it was. */
  ghost predicate RecordedAs(run: Run, ending: Ending, requested: bool) {
    && (run.state.Success? <==> Clean(ending)) && (run.state.Cancelled? <==> ending.Interrupted? && requested)
    && (run.state.Success? || run.state.Cancelled? || run.state.Failed?)
    && match ending
       case Exited(code) => run.error == if code == 0 then "" else "rsync exited " + Decimal(code)
       case TimedOut(seconds) => run.error == "run exceeded the " + Decimal(seconds) + TIMEOUT_TEXT
       case Interrupted => run.error == "run cancelled"
  }

  /** The start of the message, as much as the column holds. */
  predicate Shows(shown: string, message: string) {
    if |message| <= 500 then shown == message else shown == message[..500]
  }

  /** One attempt more, and the next one backoff later; after the fifth retry no next one. The row says why. */
  predicate Charged(before: Row, after: Row, message: string, now: int) {
    && Shows(after.lastError, message) && after.attempts == before.attempts + 1 && after.dueAt == before.dueAt && after.newer == before.newer
    && after.runId.None? && after.waitReason.None?
    && if before.attempts < 5 then
         after.status.Retry? && after.retryAt == Some(now + BackoffSeconds(before.attempts + 1) * SECOND)
       else after.status.Exhausted? && after.retryAt.None?
  }

  /** Due again at once, at no charge. */
  predicate Requeued(before: Row, after: Row) {
    && after.attempts == before.attempts && after.dueAt == before.dueAt && after.newer == before.newer
    && after.status.Due? && after.retryAt.None? && after.runId.None? && after.waitReason.None?
  }

  /** What becomes of the obligation that started the execution. */
  ghost predicate SettledAs(before: Row, after: Option<Row>, ending: Ending, requested: bool, message: string, now: int) {
    if Clean(ending) then after == if before.newer.None? then None else Some(NewRow(before.newer.value, now))
    else if Broken(ending) then after.Some? && Charged(before, after.value, message, now)
    else if requested then after.None?
    else after.Some? && Requeued(before, after.value)
  }

  lemma ContainsBrings(text: string, part: string, c: char)
    requires Contains(text, part) && c in part
    ensures c in text
  {
    var i :| 0 <= i <= |text| && part <= text[i..];
    var k :| 0 <= k < |part| && part[k] == c;
    assert text[i..][k] == text[i + k];
  }

  lemma PermanentHasAColon(message: string)
    requires Permanent(message)
    ensures ':' in message
  {
    var marker :| marker in PERMANENT_FAILURES && Contains(message, marker);
    assert marker[16] == ':';
    ContainsBrings(message, marker, ':');
  }

  lemma NoColonInTheTexts()
    ensures ':' !in "rsync exited " && ':' !in "run exceeded the "
    ensures ':' !in "s execution timeout " && ':' !in "and its process group " && ':' !in "was terminated"
  {
  }

  /** The tables after the terminal write of run `id`: its row says how it ended, its obligation, if it still names the
      run, is settled by that, and nothing else has changed. */
  ghost predicate Worth(db: Db, after: Db, id: int, ending: Ending, requested: bool, now: int)
    requires id in db.runs
  {
    var t := db.runs[id].task;
    && after.tasks == db.tasks && id in after.runs && after.runs == db.runs[id := after.runs[id]]
    && RecordedAs(after.runs[id], ending, requested)
    && after.runs[id] == db.runs[id].(state := after.runs[id].state, error := after.runs[id].error, finishedAt := Some(now))
    && if t in db.rows && db.rows[t].runId == Some(id) then
         after.rows == Put(db.rows, t, RowOf(after, t)) && SettledAs(db.rows[t], RowOf(after, t), ending, requested, after.runs[id].error, now)
       else after.rows == db.rows
  }

  /** Neither message of a broken run reads as an infrastructure failure or as a permanent one. */
  lemma BrokenIsOrdinary(ending: Ending, requested: bool)
    requires Broken(ending)
    ensures var message := Verdict(ending, requested).1; !Infrastructure(message) && !Permanent(message)
  {
    var message := Verdict(ending, requested).1;
    NoColonInTheTexts();
    if Permanent(message) {
      PermanentHasAColon(message);
    }
    if ending.Exited? {
      assert message[1] == 's' && CANCELLED[1] == RECLAIMED[1] == 'u' && RESTARTED[1] == 'n';
    } else {
      assert message[0] == 'r' && message[4] == 'e' && CANCELLED[4] == 'c' && RECLAIMED[4] == 'r' && RESTARTED[0] == 'i';
    }
  }

  lemma TheRunRecords(run: Run, ending: Ending, requested: bool, now: int)
    ensures var (state, message) := Verdict(ending, requested); RecordedAs(Ended(run, state, message, now), ending, requested)
  {
  }

  lemma TheRowSettles(row: Row, run: Run, ending: Ending, requested: bool, now: int)
    ensures var (state, message) := Verdict(ending, requested);
      SettledAs(row, ApplyOutcome(row, Ended(run, state, message, now), now), ending, requested, message, now)
  {
    if Broken(ending) {
      BrokenIsOrdinary(ending, requested);
    } else if ending.Interrupted? {
      assert CANCELLED in INFRASTRUCTURE_FAILURES && CANCELLED <= CANCELLED;
    }
  }

  /** The terminal write in full, run and obligation: paid by a clean exit, dropped by a requested stop, charged one
      attempt for a nonzero exit or a timeout, and requeued at no charge by any other interruption. */
  lemma WhatTheTerminalWriteIsWorth(db: Db, id: int, ending: Ending, requested: bool, now: int)
    requires id in db.runs
    ensures var (state, message) := Verdict(ending, requested);
      Worth(db, Conclude(db, id, state, message, now), id, ending, requested, now)
  {
    var run := db.runs[id];
    TheRunRecords(run, ending, requested, now);
    if run.task in db.rows {
      TheRowSettles(db.rows[run.task], run, ending, requested, now);
    }
  }

  lemma BeginsWith(front: string, part: string, rest: string)
    requires part <= rest
    ensures Contains(front + rest, front + part)
  {
    assert (front + rest)[0..] == front + rest && front + part <= front + rest;
  }

  lemma ContainsTheEnd(text: string, front: string, part: string)
    requires Contains(text, front + part)
    ensures Contains(text, part)
  {
    var i :| 0 <= i <= |text| && front + part <= text[i..];
    var at := i + |front|;
    forall k | 0 <= k < |part|
      ensures text[at..][k] == part[k]
    {
      assert text[i..][|front| + k] == (front + part)[|front| + k];
    }
    assert part <= text[at..];
  }

  const OWNER_FAILED: string := "run owner failed: "

  lemma TheMarkers()
    ensures PERMANENT_FAILURES == {OWNER_FAILED + "PathNotAllowed", OWNER_FAILED + "ValueError"}
  {
    assert "run owner failed: PathNotAllowed" == OWNER_FAILED + "PathNotAllowed";
    assert "run owner failed: ValueError" == OWNER_FAILED + "ValueError";
  }

  /** An owner that failed is no interruption: its message is permanent if the error is one of configuration, and only if
      it names such an error. */
  lemma WhatAnOwnerFailureIsWorth(what: string)
    ensures !Infrastructure(OWNER_FAILED + what)
    ensures "PathNotAllowed" <= what || "ValueError" <= what ==> Permanent(OWNER_FAILED + what)
    ensures Permanent(OWNER_FAILED + what) ==>
      Contains(OWNER_FAILED + what, "PathNotAllowed") || Contains(OWNER_FAILED + what, "ValueError")
  {
    var message := OWNER_FAILED + what;
    assert message[0] == 'r' && message[4] == 'o' && CANCELLED[4] == 'c' && RECLAIMED[4] == 'r' && RESTARTED[0] == 'i';
    TheMarkers();
    if "PathNotAllowed" <= what {
      BeginsWith(OWNER_FAILED, "PathNotAllowed", what);
    }
    if "ValueError" <= what {
      BeginsWith(OWNER_FAILED, "ValueError", what);
    }
    if Permanent(message) {
      var marker :| marker in PERMANENT_FAILURES && Contains(message, marker);
      if marker == OWNER_FAILED + "PathNotAllowed" {
        ContainsTheEnd(message, OWNER_FAILED, "PathNotAllowed");
      } else {
        ContainsTheEnd(message, OWNER_FAILED, "ValueError");
      }
    }
  }

  class Runner {
    const ledger: Ledger
    /** `_run_owners`: whether cancellation was requested, for every run this process executes. */
    var owners: map<int, bool>
    /** `_active_destinations`. */
    var held: map<int, Key>

    constructor (ledger: Ledger)
      ensures this.ledger == ledger && owners == map[] && held == map[]
    {
      this.ledger := ledger;
      owners, held := map[], map[];
    }

    /** Held destinations are pairwise disjoint. */
    ghost predicate HeldApart()
      reads this
    {
      forall i, j :: i in held && j in held && i != j ==> !Conflicts(held[i], held[j])
    }

    method AdmitRun(t: int, now: int) returns (answer: Admission)
      modifies ledger`runs
      ensures answer.NoSuchTask? <==> t !in ledger.tasks
      ensures t in ledger.tasks ==>
        var refusal := Refusal(old(ledger.Tables()), t);
        && (refusal.Some? ==> answer == Denied(refusal.value) && ledger.Tables() == old(ledger.Tables()))
        && (refusal.None? ==> answer == Accepted(NextId(old(ledger.runs)))
                              && ledger.Tables() == AddPending(old(ledger.Tables()), t, now))
      ensures answer == Denied(TaskIsActive) <==>
        t in ledger.tasks && exists id :: id in old(ledger.runs) && old(ledger.runs)[id].task == t && old(ledger.runs)[id].state.Active()
      ensures answer == Denied(SourceIsActive) <==>
        && t in ledger.tasks && !HasActiveRun(old(ledger.runs), t)
        && exists id :: id in old(ledger.runs) && old(ledger.runs)[id].state.Active() && old(ledger.runs)[id].task in ledger.tasks
             && ledger.tasks[old(ledger.runs)[id].task].config.sourceId == ledger.tasks[t].config.sourceId
      ensures answer.NoSuchTask? ==> ledger.Tables() == old(ledger.Tables())
    {
      if t !in ledger.tasks {
        return NoSuchTask;
      }
      if HasActiveRun(ledger.runs, t) {
        return Denied(TaskIsActive);
      }
      if SourceActive(ledger.Tables(), ledger.tasks[t].config.sourceId) {
        return Denied(SourceIsActive);
      }
      var id := NextId(ledger.runs);
      ledger.runs := ledger.runs[id := Run(t, Pending, now, None, "")];
      return Accepted(id);
    }

    /** The entry of `execute_run`. */
    method Register(id: int)
      modifies this`owners
      ensures owners == old(owners)[id := false]
    {
      owners := owners[id := false];
    }

    /** Past its locks an execution takes over its row if the row is still pending. */
    method Begin(id: int, now: int) returns (began: bool)
      modifies ledger`runs
      ensures began == (id in old(ledger.runs) && old(ledger.runs)[id].state.Pending?)
      ensures ledger.runs == if began then old(ledger.runs)[id := Began(old(ledger.runs)[id], now)] else old(ledger.runs)
    {
      if id !in ledger.runs || !ledger.runs[id].state.Pending? {
        return false;
      }
      var run := ledger.runs[id].(state := Running);
      ledger.runs := ledger.runs[id := run.(startedAt := now)];
      return true;
    }

    /** The terminal write, with the obligation that names the run settled in the same transaction. */
    method WriteOutcome(id: int, ending: Ending, now: int)
      requires id in ledger.runs
      requires forall t :: t in ledger.rows && ledger.rows[t].runId == Some(id) ==> t == ledger.runs[id].task
      modifies ledger`runs, ledger`rows
      ensures var (state, message) := Verdict(ending, id in owners && owners[id]);
        ledger.Tables() == Conclude(old(ledger.Tables()), id, state, message, now)
      ensures Worth(old(ledger.Tables()), ledger.Tables(), id, ending, id in owners && owners[id], now)
    {
      WhatTheTerminalWriteIsWorth(ledger.Tables(), id, ending, id in owners && owners[id], now);
      var requested := id in owners && owners[id];
      var (state, message) := Verdict(ending, requested);
      var run := ledger.runs[id].(finishedAt := Some(now), state := state);
      run := run.(error := message);
      ledger.runs := ledger.runs[id := run];
      var t := run.task;
      if t in ledger.rows && ledger.rows[t].runId == Some(id) {
        ledger.ApplyRunOutcome(t, run, now);
      }
    }

    /** `_terminalize_owned_run`. */
    method TerminalizeOwnedRun(id: int, message: string, now: int) returns (written: bool)
      modifies ledger`runs
      ensures written == (id in old(ledger.runs) && old(ledger.runs)[id].state.Active())
      ensures ledger.Tables() == Terminalize(old(ledger.Tables()), id,
        if message == CANCELLED && id in owners && owners[id] then RunState.Cancelled else Failed, message, now)
    {
      if id !in ledger.runs || !ledger.runs[id].state.Active() {
        return false;
      }
      var state := if message == CANCELLED && id in owners && owners[id] then RunState.Cancelled else Failed;
      var run := ledger.runs[id].(state := state);
      run := run.(finishedAt := Some(now), error := message);
      ledger.runs := ledger.runs[id := run];
      return true;
    }

    /** The way out of `execute_run`: terminalize if need be, then give up ownership. */
    method Depart(id: int, how: Departure, now: int)
      modifies this`owners, ledger`runs
      ensures owners == old(owners) - {id}
      ensures ledger.Tables() == match how
        case Settled => old(ledger.Tables())
        case NotOwned => old(ledger.Tables())
        case Cancelled => Terminalize(old(ledger.Tables()), id,
          if id in old(owners) && old(owners)[id] then RunState.Cancelled else Failed, CANCELLED, now)
        case Failure(what) => Terminalize(old(ledger.Tables()), id, Failed, OWNER_FAILED + what, now)
    {
      match how {
        case Cancelled => var _ := TerminalizeOwnedRun(id, CANCELLED, now);
        case Failure(what) =>
          assert (OWNER_FAILED + what)[4] != CANCELLED[4];
          var _ := TerminalizeOwnedRun(id, OWNER_FAILED + what, now);
        case _ =>
      }
      owners := owners - {id};
    }

    /** The first half of `cancel_run`: signal only what this process owns, and never touch the row. */
    method RequestCancel(id: int) returns (immediate: Option<CancelOutcome>)
      modifies this`owners
      ensures immediate == Some(NotFound) <==> id !in ledger.runs
      ensures immediate == Some(AlreadyFinished) <==> id in ledger.runs && !ledger.runs[id].state.Active()
      ensures immediate == Some(NotOwnedHere) <==> id in ledger.runs && ledger.runs[id].state.Active() && id !in old(owners)
      ensures immediate.None? <==> id in ledger.runs && ledger.runs[id].state.Active() && id in old(owners)
      ensures owners == if immediate.None? then old(owners)[id := true] else old(owners)
    {
      if id !in ledger.runs {
        return Some(NotFound);
      }
      if !ledger.runs[id].state.Active() {
        return Some(AlreadyFinished);
      }
      if id !in owners {
        return Some(NotOwnedHere);
      }
      owners := owners[id := true];
      return None;
    }

    /** The second half of `cancel_run`, once the execution has settled or the wait is over: the row decides, not the
        request. */
    method CancelAnswer(id: int) returns (outcome: CancelOutcome)
      ensures outcome.WasCancelled? <==> id in ledger.runs && ledger.runs[id].state.Cancelled?
      ensures outcome.StillRunning? <==> id in ledger.runs && ledger.runs[id].state.Active()
      ensures outcome.WasCancelled? || outcome.StillRunning? || outcome.AlreadyFinished?
    {
      if id in ledger.runs && ledger.runs[id].state.Cancelled? {
        return WasCancelled;
      }
      if id in ledger.runs && ledger.runs[id].state.Active() {
        return StillRunning;
      }
      return AlreadyFinished;
    }

    /** `sweep_orphaned_runs`; `active` is what the select of active rows answers. */
    method SweepOrphanedRuns(active: seq<int>, now: int) returns (reclaimed: seq<int>)
      requires forall id :: id in active <==> id in ActiveIds(ledger.runs)
      requires Distinct(active)
      modifies ledger`runs
      ensures ledger.Tables() == Sweep(old(ledger.Tables()), owners.Keys, now)
      ensures forall id :: id in reclaimed <==>
        id in old(ledger.runs) && Orphaned(old(ledger.runs)[id], id, owners.Keys, now)
    {
      var cutoff := now - ORPHAN_GRACE_SECONDS * SECOND;
      reclaimed := [];
      ghost var was := ledger.runs;
      forall k | 0 <= k < |active|
        ensures active[k] in was && was[active[k]].state.Active()
      {
        var id := active[k];
        assert id in active;
        assert id in ActiveIds(was);
      }
      var i := 0;
      while i < |active|
        invariant 0 <= i <= |active| && ledger.runs.Keys == was.Keys
        invariant forall k :: 0 <= k < |active| ==> active[k] in was && was[active[k]].state.Active()
        invariant forall id :: id in was && id !in active[..i] ==> ledger.runs[id] == was[id]
        invariant forall id :: id in was && id in active[..i] ==>
          ledger.runs[id] == if Orphaned(was[id], id, owners.Keys, now) then Ended(was[id], Failed, ORPHANED, now) else was[id]
        invariant forall id :: id in reclaimed <==> id in active[..i] && id in was && Orphaned(was[id], id, owners.Keys, now)
      {
        var id := active[i];
        assert id !in active[..i];
        assert active[..i + 1] == active[..i] + [id];
        var run := ledger.runs[id];
        if id !in owners && run.startedAt <= cutoff {
          run := run.(state := Failed, finishedAt := Some(now));
          ledger.runs := ledger.runs[id := run.(error := ORPHANED)];
          reclaimed := reclaimed + [id];
        }
        i := i + 1;
      }
      assert active[..i] == active;
      forall id | id in was
        ensures ledger.runs[id] == Sweep(old(ledger.Tables()), owners.Keys, now).runs[id]
      {
        assert id !in active ==> id !in ActiveIds(was);
      }
      assert ledger.runs == Sweep(old(ledger.Tables()), owners.Keys, now).runs;
    }

    /** `reconcile_stale_runs`, at startup. */
    method ReconcileStaleRuns(active: seq<int>, now: int) returns (count: nat)
      requires forall id :: id in active <==> id in ActiveIds(ledger.runs)
      requires Distinct(active)
      modifies ledger`runs
      ensures ledger.Tables() == ReconcileStale(old(ledger.Tables()), now) && count == |active|
    {
      ghost var was := ledger.runs;
      forall k | 0 <= k < |active|
        ensures active[k] in was && was[active[k]].state.Active()
      {
        var id := active[k];
        assert id in active;
        assert id in ActiveIds(was);
      }
      var i := 0;
      while i < |active|
        invariant 0 <= i <= |active| && ledger.runs.Keys == was.Keys
        invariant forall k :: 0 <= k < |active| ==> active[k] in was && was[active[k]].state.Active()
        invariant forall id :: id in was && id !in active[..i] ==> ledger.runs[id] == was[id]
        invariant forall id :: id in was && id in active[..i] ==> ledger.runs[id] == Ended(was[id], Failed, RESTARTED, now)
      {
        var id := active[i];
        assert id !in active[..i];
        assert active[..i + 1] == active[..i] + [id];
        var run := ledger.runs[id].(state := Failed, finishedAt := Some(now));
        ledger.runs := ledger.runs[id := run.(error := RESTARTED)];
        i := i + 1;
      }
      assert active[..i] == active;
      forall id | id in was
        ensures ledger.runs[id] == ReconcileStale(old(ledger.Tables()), now).runs[id]
      {
        assert id !in active ==> id !in ActiveIds(was);
      }
      assert ledger.runs == ReconcileStale(old(ledger.Tables()), now).runs;
      count := |active|;
    }

    /** The predicate of the condition variable and, when it holds, taking the key; `holders` lists who holds one. */
    method TryHold(id: int, key: Key, holders: seq<int>) returns (taken: bool)
      requires HeldApart() && forall h :: h in holders <==> h in held
      modifies this`held
      ensures HeldApart()
      ensures taken <==> Execution.Unobstructed(old(held), id, key)
      ensures held == if taken then old(held)[id := key] else old(held)
    {
      var i := 0;
      while i < |holders|
        invariant 0 <= i <= |holders| && held == old(held)
        invariant forall k :: 0 <= k < i && holders[k] != id ==> holders[k] in held && !Conflicts(key, held[holders[k]])
      {
        var h := holders[i];
        assert h in holders;
        if h != id && Conflicts(key, held[h]) {
          return false;
        }
        i := i + 1;
      }
      forall h | h in held && h != id
        ensures !Conflicts(key, held[h])
      {
        assert h in holders;
        var k :| 0 <= k < |holders| && holders[k] == h;
      }
      forall h | h in held && h != id
        ensures !Conflicts(held[h], key)
      {
        Execution.ConflictIsSymmetric(key, held[h]);
      }
      held := held[id := key];
      return true;
    }

    /** Leaving frees the own destination and no other: whoever was obstructed by `id` alone may enter now, and what is
        still held stays disjoint. */
    method Release(id: int)
      requires HeldApart()
      modifies this`held
      ensures HeldApart() && held == old(held) - {id}
      ensures forall other, key :: ObstructedOnlyBy(old(held), other, key, id) ==> Execution.Unobstructed(held, other, key)
    {
      held := held - {id};
    }
  }

  /** No holder but `id` keeps `other` from taking `key`. */
  predicate ObstructedOnlyBy(held: map<int, Key>, other: int, key: Key, id: int) {
    forall h :: h in held && h != other && Conflicts(key, held[h]) ==> h == id
  }
}

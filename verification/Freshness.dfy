/** The freshness projection of freshness.py. Instants are microseconds, lengths of time seconds. */
module Freshness {
  import opened Prelude
  import opened Records
  import opened Schedule
  import opened DueWork

  datatype State = Fresh | NotYetDue | Delayed | Stale | Disabled

  datatype Push = Up | Down | Nothing

  datatype Reason =
    | TurnedOff | InvalidSchedule | NoHistory | ScheduleChanged | Covered
    | Queued | UnderWay | Retrying | RetriesExhausted | OnHold
    | LastAttemptFailed | LastAttemptCancelled | NeverSucceeded | Missed | AwaitingStart

  datatype SuccessInfo = SuccessInfo(runId: int, startedAt: int, finishedAt: int)

  datatype Attempt = Attempt(state: RunState, startedAt: int)

  /** What the task table, the run table and the clock say; `cadence` is the cron's nominal cycle in seconds. */
  datatype Subject = Subject(cron: string, enabled: bool, epochAt: int, lastSuccess: Option<SuccessInfo>,
                             durations: seq<real>, cadence: nat)

  /** Queue, execution and attempt evidence: it may explain, never decide. */
  datatype Evidence = Evidence(dueStatus: Option<Status>, activeRun: bool, latestAttempt: Option<Attempt>)

  datatype Verdict = Verdict(state: State, reason: Reason, push: Push,
                             occurrenceAt: Option<int>, deadlineAt: Option<int>)

  const SLACK_FLOOR_SECONDS: real := 600.0
  const SLACK_CEILING_SECONDS: real := 7200.0
  const SLACK_FRACTION: real := 0.10
  const ALLOWANCE_MULTIPLIER: real := 1.5
  const KUMA_DST_MARGIN_SECONDS: real := 3600.0

  function Least(a: real, b: real): real { if a < b then a else b }

  function Greatest(a: real, b: real): real { if a < b then b else a }

  /** Python's `int` of a float. */
  function Truncate(x: real): int {
    if 0.0 <= x then x.Floor else -((-x).Floor)
  }

  function Slack(gap: real): real {
    Least(Greatest(gap * SLACK_FRACTION, SLACK_FLOOR_SECONDS), SLACK_CEILING_SECONDS)
  }

  /** The longest positive sample. */
  function Longest(durations: seq<real>): Option<real> {
    if durations == [] then None
    else
      var rest := Longest(durations[1..]);
      if durations[0] <= 0.0 then rest
      else if rest.None? then Some(durations[0])
      else Some(Greatest(durations[0], rest.value))
  }

  function GraceSeconds(gap: real, durations: seq<real>): int {
    var half := gap / 2.0;
    var longest := Longest(durations);
    var allowance := if longest.Some? then Least(ALLOWANCE_MULTIPLIER * longest.value, half) else half;
    Truncate(Slack(gap) + allowance)
  }

  function KumaExpirySeconds(cadence: nat): int {
    var gap := cadence as real;
    Truncate(gap + Slack(gap) + gap / 2.0 + KUMA_DST_MARGIN_SECONDS)
  }

  function PushOf(state: State): Push {
    match state
    case Fresh => Up
    case Stale => Down
    case _ => Nothing
  }

  /** From here on occurrences are not covered by the newest success. */
  function CoveredUpTo(s: Subject): int {
    if s.lastSuccess.None? then s.epochAt
    else Max(s.epochAt, s.lastSuccess.value.startedAt + TICK_EARLY_TOLERANCE)
  }

  /** The nominal cycle at an occurrence: never less than the cadence, also in a repeated hour. */
  function GapSeconds(cal: Calendar, s: Subject, first: int): real {
    var following := NextOccurrence(cal, s.cron, first);
    var spacing := if following.Some? then (following.value - first) as real / SECOND as real else 0.0;
    Greatest(spacing, s.cadence as real)
  }

  function DeadlineOf(cal: Calendar, s: Subject, first: int): int {
    first + GraceSeconds(GapSeconds(cal, s, first), s.durations) * SECOND
  }

  function OwedReason(first: int, e: Evidence, default: Reason): Reason {
    if e.dueStatus == Some(Blocked) then OnHold
    else if e.dueStatus == Some(Exhausted) then RetriesExhausted
    else if e.activeRun || e.dueStatus == Some(Dispatched) then UnderWay
    else if e.dueStatus == Some(Retry) then Retrying
    else if e.dueStatus == Some(Due) then Queued
    else if e.latestAttempt.Some? && first - TICK_EARLY_TOLERANCE <= e.latestAttempt.value.startedAt
            && (e.latestAttempt.value.state.Failed? || e.latestAttempt.value.state.Cancelled?) then
      if e.latestAttempt.value.state.Failed? then LastAttemptFailed else LastAttemptCancelled
    else default
  }

  function Project(cal: Calendar, s: Subject, e: Evidence, now: int): Verdict {
    if !s.enabled then Verdict(Disabled, TurnedOff, PushOf(Disabled), None, None)
    else if !cal.parses(s.cron) then Verdict(Stale, InvalidSchedule, PushOf(Stale), None, None)
    else
      var first := NextOccurrence(cal, s.cron, CoveredUpTo(s));
      if first.None? || now < first.value then
        if s.lastSuccess.None? then Verdict(NotYetDue, NoHistory, PushOf(NotYetDue), None, None)
        else if s.lastSuccess.value.startedAt < s.epochAt then
          Verdict(NotYetDue, ScheduleChanged, PushOf(NotYetDue), None, None)
        else Verdict(Fresh, Covered, PushOf(Fresh), first, None)
      else
        var deadline := DeadlineOf(cal, s, first.value);
        var reason := OwedReason(first.value, e, if s.lastSuccess.None? then NeverSucceeded else Missed);
        if now <= deadline then
          Verdict(Delayed, if reason.NeverSucceeded? || reason.Missed? then AwaitingStart else reason,
                  PushOf(Delayed), first, Some(deadline))
        else Verdict(Stale, reason, PushOf(Stale), first, Some(deadline))
  }

  // ------------------------------------------------------------------ what the projection means

  /** The newest success began no earlier than one second before the occurrence. */
  predicate Pays(s: Subject, o: int) {
    s.lastSuccess.Some? && o - TICK_EARLY_TOLERANCE <= s.lastSuccess.value.startedAt
  }

  /** An occurrence of the current schedule that has come and that the newest success does not cover. */
  ghost predicate Owed(cal: Calendar, s: Subject, o: int, now: int) {
    Occurs(cal, s.cron, o) && s.epochAt < o <= now && !Pays(s, o)
  }

  ghost predicate NothingOwed(cal: Calendar, s: Subject, now: int) {
    forall o :: !Owed(cal, s, o, now)
  }

  /** Nothing is owed exactly when the projection says fresh or not yet due. */
  lemma QuietIffNothingOwed(cal: Calendar, s: Subject, e: Evidence, now: int)
    requires Regular(cal) && s.enabled && cal.parses(s.cron)
    ensures Project(cal, s, e, now).state.Fresh? || Project(cal, s, e, now).state.NotYetDue? <==> NothingOwed(cal, s, now)
  {
    SomethingIsOwedIff(cal, s, now);
    QuietIffNoneHasCome(cal, s, e, now);
  }

  lemma QuietIffNoneHasCome(cal: Calendar, s: Subject, e: Evidence, now: int)
    requires s.enabled && cal.parses(s.cron)
    ensures var first := NextOccurrence(cal, s.cron, CoveredUpTo(s));
      Project(cal, s, e, now).state.Fresh? || Project(cal, s, e, now).state.NotYetDue? <==> first.None? || now < first.value
  {
  }

  lemma SomethingIsOwedIff(cal: Calendar, s: Subject, now: int)
    requires Regular(cal)
    ensures var first := NextOccurrence(cal, s.cron, CoveredUpTo(s));
      (first.None? || now < first.value) <==> NothingOwed(cal, s, now)
  {
    var first := NextOccurrence(cal, s.cron, CoveredUpTo(s));
    forall o
      ensures Owed(cal, s, o, now) <==> Occurs(cal, s.cron, o) && CoveredUpTo(s) < o <= now
    {
    }
    if first.Some? {
      assert Occurs(cal, s.cron, first.value);
      if first.value <= now {
        assert Owed(cal, s, first.value, now);
      }
    }
  }

  lemma FirstIsEarliest(cal: Calendar, s: Subject, first: int, now: int)
    requires Regular(cal) && NextOccurrence(cal, s.cron, CoveredUpTo(s)) == Some(first) && first <= now
    ensures Owed(cal, s, first, now) && forall o :: Owed(cal, s, o, now) ==> first <= o
  {
  }

  /** What a delayed or stale verdict names is the earliest occurrence owed. */
  lemma TheEarliestDebtIsNamed(cal: Calendar, s: Subject, e: Evidence, now: int)
    requires Regular(cal) && Project(cal, s, e, now).deadlineAt.Some?
    ensures var v := Project(cal, s, e, now);
      v.occurrenceAt.Some? && Owed(cal, s, v.occurrenceAt.value, now)
      && forall o :: Owed(cal, s, o, now) ==> v.occurrenceAt.value <= o
  {
    FirstIsEarliest(cal, s, Project(cal, s, e, now).occurrenceAt.value, now);
  }

  /** Queue status, active run and latest attempt change the reason and nothing else. */
  lemma EvidenceOnlyExplains(cal: Calendar, s: Subject, e: Evidence, other: Evidence, now: int)
    ensures Project(cal, s, e, now) == Project(cal, s, other, now).(reason := Project(cal, s, e, now).reason)
  {
  }

  /** An obligation in the queue always explains a late backup. */
  lemma TheQueueExplains(cal: Calendar, s: Subject, e: Evidence, now: int)
    requires e.dueStatus.Some? && Project(cal, s, e, now).deadlineAt.Some?
    ensures Project(cal, s, e, now).reason in {OnHold, RetriesExhausted, UnderWay, Retrying, Queued}
  {
    match e.dueStatus.value
    case Due =>
    case Dispatched =>
    case Retry =>
    case Exhausted =>
    case Blocked =>
  }

  /** A late verdict says why, and the first of these that applies: the obligation is held, its retries are exhausted, a run
      of the task is under way, it waits for its retry or in the queue; or the last attempt for the occurrence failed or
      was cancelled; or nothing explains it, and then it awaits its start, or has been missed, or never succeeded. */
  lemma WhyItIsLate(cal: Calendar, s: Subject, e: Evidence, now: int)
    requires Project(cal, s, e, now).deadlineAt.Some?
    ensures var v := Project(cal, s, e, now);
      var queued, idle := e.dueStatus, !e.activeRun;
      var attempt := e.latestAttempt;
      var tried := queued.None? && idle && attempt.Some? && v.occurrenceAt.Some?
                   && v.occurrenceAt.value - 1_000_000 <= attempt.value.startedAt;
      var silent := queued.None? && idle && !(tried && (attempt.value.state.Failed? || attempt.value.state.Cancelled?));
      && (v.reason.OnHold? <==> queued == Some(Blocked))
      && (v.reason.RetriesExhausted? <==> queued == Some(Exhausted))
      && (v.reason.UnderWay? <==> queued == Some(Dispatched) || (e.activeRun && queued != Some(Blocked) && queued != Some(Exhausted)))
      && (v.reason.Retrying? <==> queued == Some(Retry) && idle)
      && (v.reason.Queued? <==> queued == Some(Due) && idle)
      && (v.reason.LastAttemptFailed? <==> tried && attempt.value.state.Failed?)
      && (v.reason.LastAttemptCancelled? <==> tried && attempt.value.state.Cancelled?)
      && (v.reason.AwaitingStart? <==> silent && v.state.Delayed?)
      && (v.reason.Missed? <==> silent && v.state.Stale? && s.lastSuccess.Some?)
      && (v.reason.NeverSucceeded? <==> silent && v.state.Stale? && s.lastSuccess.None?)
  {
    if e.dueStatus.Some? {
      TheQueueExplains(cal, s, e, now);
    }
  }

  /** A verdict without a deadline says why: the task is disabled, its cron is invalid, it has no success, none in its
      current schedule, or all is covered; and a fresh task shows the next occurrence that its success does not cover. */
  lemma WhatAQuietVerdictSays(cal: Calendar, s: Subject, e: Evidence, now: int)
    requires Regular(cal) && Project(cal, s, e, now).deadlineAt.None?
    ensures var v := Project(cal, s, e, now); var scheduled := s.enabled && cal.parses(s.cron);
      && (v.reason.TurnedOff? <==> !s.enabled) && (v.state.Disabled? <==> !s.enabled)
      && (v.reason.InvalidSchedule? <==> s.enabled && !cal.parses(s.cron)) && (v.state.Stale? <==> s.enabled && !cal.parses(s.cron))
      && (v.reason.NoHistory? <==> scheduled && s.lastSuccess.None?)
      && (v.reason.ScheduleChanged? <==> scheduled && s.lastSuccess.Some? && s.lastSuccess.value.startedAt < s.epochAt)
      && (v.reason.Covered? <==> scheduled && s.lastSuccess.Some? && s.epochAt <= s.lastSuccess.value.startedAt)
      && (v.state.Fresh? <==> v.reason.Covered?) && (v.state.NotYetDue? <==> v.reason.NoHistory? || v.reason.ScheduleChanged?)
      && (v.occurrenceAt.Some? ==> v.state.Fresh? && Occurs(cal, s.cron, v.occurrenceAt.value) && now < v.occurrenceAt.value)
      && (v.state.Fresh? ==> forall o :: Occurs(cal, s.cron, o) && now < o && s.epochAt < o && !Pays(s, o)
                               ==> v.occurrenceAt.Some? && v.occurrenceAt.value <= o)
  {
  }

  function Lateness(state: State): nat {
    match state
    case Delayed => 1
    case Stale => 2
    case _ => 0
  }

  /** While nothing else changes, time only moves a task from fresh or not yet due to delayed to stale. */
  lemma TimeOnlyAges(cal: Calendar, s: Subject, e: Evidence, now: int, later: int)
    requires now <= later
    ensures var before, after := Project(cal, s, e, now), Project(cal, s, e, later);
      && Lateness(before.state) <= Lateness(after.state)
      && (Lateness(before.state) == Lateness(after.state) ==> after == before)
      && (before.deadlineAt.Some? ==> after.deadlineAt == before.deadlineAt && after.occurrenceAt == before.occurrenceAt)
  {
  }

  /** The earliest occurrence owed is past its deadline. */
  ghost predicate OwedTooLong(cal: Calendar, s: Subject, now: int) {
    exists o :: Owed(cal, s, o, now) && (forall other :: Owed(cal, s, other, now) ==> o <= other) && DeadlineOf(cal, s, o) < now
  }

  lemma OwedTooLongIff(cal: Calendar, s: Subject, first: int, now: int)
    requires Regular(cal) && NextOccurrence(cal, s.cron, CoveredUpTo(s)) == Some(first) && first <= now
    ensures OwedTooLong(cal, s, now) <==> DeadlineOf(cal, s, first) < now
  {
    FirstIsEarliest(cal, s, first, now);
  }

  lemma PushByFirst(cal: Calendar, s: Subject, e: Evidence, now: int)
    ensures var first := NextOccurrence(cal, s.cron, CoveredUpTo(s));
      && (Project(cal, s, e, now).push.Down? <==>
            s.enabled && (!cal.parses(s.cron) || (first.Some? && first.value <= now && DeadlineOf(cal, s, first.value) < now)))
      && (Project(cal, s, e, now).push.Up? <==>
            s.enabled && cal.parses(s.cron) && (first.None? || now < first.value)
            && s.lastSuccess.Some? && s.epochAt <= s.lastSuccess.value.startedAt)
  {
  }

  /** Kuma hears "down" exactly of an enabled task whose cron is invalid or whose earliest debt is past its deadline, and
      "up" exactly of one that owes nothing and has succeeded under its current schedule. */
  lemma WhatKumaHears(cal: Calendar, s: Subject, e: Evidence, now: int)
    requires Regular(cal)
    ensures Project(cal, s, e, now).push.Down? <==> s.enabled && (!cal.parses(s.cron) || OwedTooLong(cal, s, now))
    ensures Project(cal, s, e, now).push.Up? <==>
            s.enabled && cal.parses(s.cron) && NothingOwed(cal, s, now)
            && s.lastSuccess.Some? && s.epochAt <= s.lastSuccess.value.startedAt
  {
    var first := NextOccurrence(cal, s.cron, CoveredUpTo(s));
    SomethingIsOwedIff(cal, s, now);
    PushByFirst(cal, s, e, now);
    if first.Some? && first.value <= now {
      OwedTooLongIff(cal, s, first.value, now);
    }
  }

  // ------------------------------------------------------------------ grace

  lemma FloorIsMonotone(x: real, y: real)
    requires x <= y
    ensures x.Floor <= y.Floor
  {
  }

  /** History never lengthens the grace beyond half a cycle plus slack. */
  lemma GraceIsBounded(gap: real, durations: seq<real>)
    requires 0.0 <= gap
    ensures 0 <= GraceSeconds(gap, durations) <= GraceSeconds(gap, []) == (Slack(gap) + gap / 2.0).Floor
  {
    LongestIsPositive(durations);
    var longest := Longest(durations);
    var allowance := if longest.Some? then Least(ALLOWANCE_MULTIPLIER * longest.value, gap / 2.0) else gap / 2.0;
    assert 0.0 <= allowance <= gap / 2.0;
    FloorIsMonotone(Slack(gap) + allowance, Slack(gap) + gap / 2.0);
  }

  lemma {:induction false} LongestIsPositive(durations: seq<real>)
    ensures Longest(durations).Some? ==> 0.0 < Longest(durations).value && Longest(durations).value in durations
    ensures Longest(durations).Some? <==> exists i :: 0 <= i < |durations| && 0.0 < durations[i]
    ensures forall i :: 0 <= i < |durations| && 0.0 < durations[i] ==> durations[i] <= Longest(durations).value
  {
    if durations != [] {
      LongestIsPositive(durations[1..]);
      forall i | 0 < i < |durations| && 0.0 < durations[i]
        ensures Longest(durations[1..]).Some? && durations[i] <= Longest(durations[1..]).value
      {
        assert durations[1..][i - 1] == durations[i];
      }
      if i :| 0 <= i < |durations[1..]| && 0.0 < durations[1..][i] {
        assert durations[i + 1] == durations[1..][i];
      }
    }
  }

  /** `next` is the first occurrence after `from`, if there is one. */
  ghost predicate ComesNext(cal: Calendar, cron: string, from: int, next: Option<int>) {
    && (next.Some? ==> Occurs(cal, cron, next.value) && from < next.value)
    && forall o :: Occurs(cal, cron, o) && from < o ==> next.Some? && next.value <= o
  }

  lemma AnswerOccurs(cal: Calendar, cron: string, from: int)
    requires Regular(cal)
    ensures var answer := NextOccurrence(cal, cron, from); answer.Some? ==> Occurs(cal, cron, answer.value)
  {
  }

  lemma AnswerIsNoLater(cal: Calendar, cron: string, from: int, o: int)
    requires Regular(cal) && Occurs(cal, cron, o) && from < o
    ensures NextOccurrence(cal, cron, from).Some? && NextOccurrence(cal, cron, from).value <= o
  {
  }

  lemma BothAreNext(cal: Calendar, cron: string, from: int, next: Option<int>, answer: Option<int>)
    requires ComesNext(cal, cron, from, next)
    requires answer.Some? ==> from < answer.value && Occurs(cal, cron, answer.value)
    requires next.Some? ==> answer.Some? && answer.value <= next.value
    ensures answer == next
  {
  }

  lemma NextIsTheNext(cal: Calendar, cron: string, from: int, next: Option<int>)
    requires Regular(cal) && ComesNext(cal, cron, from, next)
    ensures NextOccurrence(cal, cron, from) == next
  {
    AnswerOccurs(cal, cron, from);
    if next.Some? {
      AnswerIsNoLater(cal, cron, from, next.value);
    }
    BothAreNext(cal, cron, from, next, NextOccurrence(cal, cron, from));
  }

  /** The nominal cycle at an occurrence is the time to the next one, but never less than the cadence, which is also what
      counts when there is no next one. */
  lemma TheNominalCycle(cal: Calendar, s: Subject, first: int, next: Option<int>)
    requires Regular(cal) && ComesNext(cal, s.cron, first, next)
    ensures var gap, cadence := GapSeconds(cal, s, first), s.cadence as real;
      gap == if next.Some? && cadence * 1_000_000.0 <= (next.value - first) as real then (next.value - first) as real / 1_000_000.0
             else cadence
  {
    NextIsTheNext(cal, s.cron, first, next);
  }

  /** A tenth of the cycle, between ten minutes and two hours. */
  function TenthOf(gap: real): real {
    if gap <= 6000.0 then 600.0 else if gap <= 72000.0 then gap / 10.0 else 7200.0
  }

  /** To the second, the grace is a tenth of the cycle, within its bounds, and one and a half times the longest run on
      record, at most half a cycle; with no run on record it is the half cycle: every run on record fits, and one of them
      is the measure. */
  lemma GraceFollowsTheLongestRun(gap: real, durations: seq<real>)
    requires 0.0 <= gap
    ensures var grace, measured := GraceSeconds(gap, durations) as real, exists i :: 0 <= i < |durations| && 0.0 < durations[i];
      && (forall i :: 0 <= i < |durations| && 0.0 < durations[i] ==> TenthOf(gap) + Least(1.5 * durations[i], gap / 2.0) - 1.0 < grace)
      && (measured ==> exists i :: 0 <= i < |durations| && 0.0 < durations[i] && grace <= TenthOf(gap) + Least(1.5 * durations[i], gap / 2.0))
      && (!measured ==> TenthOf(gap) + gap / 2.0 - 1.0 < grace <= TenthOf(gap) + gap / 2.0)
  {
    LongestIsPositive(durations);
    assert Slack(gap) == TenthOf(gap);
    var longest := Longest(durations);
    if longest.Some? {
      var i :| 0 <= i < |durations| && durations[i] == longest.value;
      assert GraceSeconds(gap, durations) == (Slack(gap) + Least(1.5 * durations[i], gap / 2.0)).Floor;
    }
  }

  /** The grace stays below a whole cycle for every cycle longer than twenty minutes, whatever the history. */
  lemma GraceIsBelowTheCycle(gap: real, durations: seq<real>)
    requires 1200.0 < gap
    ensures GraceSeconds(gap, durations) as real < gap
  {
  }

  /** For whole cycles without history twenty minutes is the exact limit. */
  lemma GraceIsBelowTheCycleIff(cycle: nat)
    ensures GraceSeconds(cycle as real, []) < cycle <==> 1200 < cycle
  {
  }

  lemma StaleOneCycleLater(cal: Calendar, s: Subject, e: Evidence, first: int, now: int)
    requires s.enabled && cal.parses(s.cron) && NextOccurrence(cal, s.cron, CoveredUpTo(s)) == Some(first)
    requires 1200.0 < GapSeconds(cal, s, first)
    requires first as real + GapSeconds(cal, s, first) * SECOND as real <= now as real
    ensures Project(cal, s, e, now).state.Stale?
  {
    var gap := GapSeconds(cal, s, first);
    var grace := GraceSeconds(gap, s.durations);
    GraceIsBelowTheCycle(gap, s.durations);
    assert (grace * SECOND) as real == (grace as real) * SECOND as real < gap * SECOND as real;
  }

  /** So with cycles longer than twenty minutes an uncovered occurrence is stale one cycle later: it cannot hide. */
  lemma AMissedOccurrenceCannotHide(cal: Calendar, s: Subject, e: Evidence, o: int, now: int)
    requires Regular(cal) && s.enabled && cal.parses(s.cron) && Owed(cal, s, o, now)
    ensures var first := NextOccurrence(cal, s.cron, CoveredUpTo(s));
      && first.Some? && first.value <= o
      && (1200.0 < GapSeconds(cal, s, first.value)
          && o as real + GapSeconds(cal, s, first.value) * SECOND as real <= now as real
          ==> Project(cal, s, e, now).state.Stale?)
  {
    var first := NextOccurrence(cal, s.cron, CoveredUpTo(s));
    assert first.Some? && first.value <= o;
    if 1200.0 < GapSeconds(cal, s, first.value)
       && o as real + GapSeconds(cal, s, first.value) * SECOND as real <= now as real {
      StaleOneCycleLater(cal, s, e, first.value, now);
    }
  }

  /** The monitor's own expiry leaves a nominal cycle, the largest grace such a cycle can be granted, and an hour. */
  lemma ExpiryOutlastsTheGrace(cadence: nat, durations: seq<real>)
    ensures cadence + GraceSeconds(cadence as real, durations) + 3600 <= KumaExpirySeconds(cadence)
    ensures KumaExpirySeconds(cadence) == cadence + GraceSeconds(cadence as real, []) + 3600
  {
  }

  /** When the monitor that last heard "up" at `heard` expires, the projection has said "down" already. */
  ghost predicate MonitorSpeaksLast(cal: Calendar, s: Subject, e: Evidence, heard: int) {
    forall now :: heard + KumaExpirySeconds(s.cadence) * SECOND < now ==> Project(cal, s, e, now).push.Down?
  }

  /** That is so exactly when the time to the next occurrence and its grace fit into the expiry. */
  lemma MonitorSpeaksLastIff(cal: Calendar, s: Subject, e: Evidence, heard: int)
    requires Project(cal, s, e, heard).push.Up?
    ensures var first := NextOccurrence(cal, s.cron, CoveredUpTo(s));
      MonitorSpeaksLast(cal, s, e, heard) <==>
      first.Some? && first.value - heard + GraceSeconds(GapSeconds(cal, s, first.value), s.durations) * SECOND
                     <= KumaExpirySeconds(s.cadence) * SECOND
  {
    var first := NextOccurrence(cal, s.cron, CoveredUpTo(s));
    var instant := heard + KumaExpirySeconds(s.cadence) * SECOND + 1;
    if first.Some? {
      GraceIsBounded(GapSeconds(cal, s, first.value), s.durations);
    }
    assert !Project(cal, s, e, instant).push.Down? <==> first.None? || instant <= DeadlineOf(cal, s, first.value);
  }

  /** With a regular cycle, and an hour to spare for the change of the clocks, it always is. */
  lemma RegularCyclesAreCovered(cal: Calendar, s: Subject, e: Evidence, heard: int)
    requires Project(cal, s, e, heard).push.Up?
    requires var first := NextOccurrence(cal, s.cron, CoveredUpTo(s));
      first.Some? && GapSeconds(cal, s, first.value) == s.cadence as real
      && first.value <= heard + (s.cadence + 3600) * SECOND
    ensures MonitorSpeaksLast(cal, s, e, heard)
  {
    MonitorSpeaksLastIff(cal, s, e, heard);
    ExpiryOutlastsTheGrace(s.cadence, s.durations);
  }

  /** Where the cycle is uneven it need not be: between occurrences three nominal cycles and six hours apart the monitor
      expires first if the task has no history or has run for a nominal cycle and two hours. `0 3 1,2 * *` is daily by
      its cadence on the first of the month and then waits for a month. */
  lemma LongGapsOutlastTheExpiry(cal: Calendar, s: Subject, e: Evidence, heard: int)
    requires Project(cal, s, e, heard).push.Up?
    requires var first := NextOccurrence(cal, s.cron, CoveredUpTo(s));
      first.Some? && 3.0 * s.cadence as real + 21600.0 <= GapSeconds(cal, s, first.value)
    requires Longest(s.durations).Some? ==> s.cadence as real + 7200.0 <= Longest(s.durations).value
    ensures !MonitorSpeaksLast(cal, s, e, heard)
  {
    var first := NextOccurrence(cal, s.cron, CoveredUpTo(s)).value;
    MonitorSpeaksLastIff(cal, s, e, heard);
    LongGapsGetMoreGrace(s.cadence, GapSeconds(cal, s, first), s.durations);
  }

  lemma LongGapsGetMoreGrace(cadence: nat, gap: real, durations: seq<real>)
    requires 3.0 * cadence as real + 21600.0 <= gap
    requires Longest(durations).Some? ==> cadence as real + 7200.0 <= Longest(durations).value
    ensures KumaExpirySeconds(cadence) < GraceSeconds(gap, durations)
  {
    var c := cadence as real;
    FloorIsMonotone(c + Slack(c) + c / 2.0 + KUMA_DST_MARGIN_SECONDS, 1.5 * c + 10800.0);
    var longest := Longest(durations);
    var allowance := if longest.Some? then Least(ALLOWANCE_MULTIPLIER * longest.value, gap / 2.0) else gap / 2.0;
    assert 1.5 * c + 10800.0 <= allowance;
    FloorIsMonotone(1.5 * c + 10800.0 + 1.0, Slack(gap) + allowance);
  }
}

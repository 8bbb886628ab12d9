/** Cron occurrences as an abstract calendar: the trigger's answer is a parameter. */
module Schedule {
  import opened Prelude

  /** `fires(cron, after)` is what the trigger answers; `parses` says whether the expression has one. */
  datatype Calendar = Calendar(parses: string -> bool, fires: (string, int) -> Option<int>)

  const MAX_OCCURRENCE_SCAN: nat := 20000

  /** First occurrence strictly after `after`; a non-advancing answer counts as none. */
  function NextOccurrence(cal: Calendar, cron: string, after: int): (r: Option<int>)
    ensures r.Some? ==> after < r.value && cal.parses(cron)
  {
    if !cal.parses(cron) then None
    else
      var fire := cal.fires(cron, after);
      if fire.Some? && fire.value <= after then None else fire
  }

  ghost predicate Occurs(cal: Calendar, cron: string, o: int) {
    NextOccurrence(cal, cron, o - 1) == Some(o)
  }

  /** The trigger answers the least occurrence after its argument. */
  ghost predicate Regular(cal: Calendar) {
    && (forall c, t :: NextOccurrence(cal, c, t).Some? ==> Occurs(cal, c, NextOccurrence(cal, c, t).value))
    && (forall c, t, o :: Occurs(cal, c, o) && t < o
          ==> NextOccurrence(cal, c, t).Some? && NextOccurrence(cal, c, t).value <= o)
  }

  /** Nothing is owed in (w, now]. */
  predicate FoldedUpTo(cal: Calendar, cron: string, w: int, now: int) {
    var n := NextOccurrence(cal, cron, w);
    n.None? || now < n.value
  }

  /** The walk of `_latest_occurrence` with `fuel` steps left. */
  function Walk(cal: Calendar, cron: string, latest: int, now: int, fuel: nat): (r: int)
    requires latest <= now
    ensures latest <= r <= now
    ensures FoldedUpTo(cal, cron, r, now)
    decreases fuel
  {
    if fuel == 0 then now
    else
      var following := NextOccurrence(cal, cron, latest);
      if following.None? || now < following.value then latest
      else Walk(cal, cron, following.value, now, fuel - 1)
  }

  /** The newest occurrence up to `now`, or `now` itself once the scan gives up. */
  method LatestOccurrence(cal: Calendar, cron: string, first: int, now: int) returns (latest: int)
    requires first <= now
    ensures latest == Walk(cal, cron, first, now, MAX_OCCURRENCE_SCAN)
    ensures first <= latest <= now && FoldedUpTo(cal, cron, latest, now)
  {
    latest := first;
    var k := 0;
    while k < MAX_OCCURRENCE_SCAN
      invariant 0 <= k <= MAX_OCCURRENCE_SCAN
      invariant first <= latest <= now
      invariant Walk(cal, cron, first, now, MAX_OCCURRENCE_SCAN)
             == Walk(cal, cron, latest, now, MAX_OCCURRENCE_SCAN - k)
    {
      var following := NextOccurrence(cal, cron, latest);
      if following.None? || now < following.value {
        return;
      }
      latest := following.value;
      k := k + 1;
    }
    latest := now;
  }

  /** When the schedule is folded up to `now`, every later occurrence lies after `now`. */
  lemma FoldedMeansNoneMissed(cal: Calendar, cron: string, w: int, now: int)
    requires Regular(cal)
    ensures FoldedUpTo(cal, cron, w, now) <==> forall o :: Occurs(cal, cron, o) && w < o ==> now < o
  {
  }
}

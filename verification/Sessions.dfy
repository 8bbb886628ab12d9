/** Session validity and revocation of http_auth.py. A token is what its verified signature says: a session
    identifier and the instant of issue. */
module Sessions {
  import opened Prelude
  import opened ExpiringStores
  import opened StoreLaws
  import opened StoreRefinement
  import opened StoreSurvival

  const CLOCK_SKEW_TOLERANCE_SECONDS: real := 60.0
  const REVOCATION_CLOCK_SLACK_SECONDS: real := 61.0

  datatype Verified = Verified(sid: string, issuedAt: real)

  /** The revocations are kept `slack` seconds longer than a session lives; nothing in that store is protected. */
  function RevocationPolicy(maxEntries: int, maxAge: real, slack: real): Policy<bool> {
    Policy(maxEntries, maxAge + slack, None)
  }

  predicate YoungEnough(token: Verified, maxAge: real, now: real) {
    -CLOCK_SKEW_TOLERANCE_SECONDS <= now - token.issuedAt <= maxAge
  }

  /** `session_is_valid`; no verified token, no session. */
  predicate Accepts(t: Tiers<bool>, token: Option<Verified>, maxAge: real, now: real) {
    && token.Some?
    && Read(t, token.value.sid, now) != Some(true)
    && YoungEnough(token.value, maxAge, now)
  }

  /** `revoke_session`: only a token valid at this instant is recorded. */
  function AfterLogout(p: Policy<bool>, t: Tiers<bool>, token: Option<Verified>, maxAge: real, now: real): Tiers<bool> {
    if token.None? then t
    else if Accepts(t, token, maxAge, now) then Written(p, Swept(t, now), token.value.sid, true, now)
    else Swept(t, now)
  }

  /** What the endpoints do with a cookie: present it with a request, or log out with it. Tokens that do not verify
      are None. */
  datatype Event = Presented(token: Option<Verified>, at: real) | LoggedOut(token: Option<Verified>, at: real)

  function AfterEvent(p: Policy<bool>, t: Tiers<bool>, e: Event, maxAge: real): Tiers<bool> {
    match e
    case Presented(token, at) => if token.None? then t else Swept(t, at)
    case LoggedOut(token, at) => AfterLogout(p, t, token, maxAge, at)
  }

  /** The event records a revocation. */
  predicate Revokes(t: Tiers<bool>, e: Event, maxAge: real) {
    e.LoggedOut? && Accepts(t, e.token, maxAge, e.at)
  }

  function AfterEvents(p: Policy<bool>, t: Tiers<bool>, events: seq<Event>, maxAge: real): Tiers<bool> {
    if events == [] then t
    else AfterEvent(p, AfterEvents(p, t, events[..|events| - 1], maxAge), events[|events| - 1], maxAge)
  }

  function Revocations(p: Policy<bool>, t: Tiers<bool>, events: seq<Event>, maxAge: real): nat {
    if events == [] then 0
    else
      var before := events[..|events| - 1];
      Revocations(p, t, before, maxAge)
      + if Revokes(AfterEvents(p, t, before, maxAge), events[|events| - 1], maxAge) then 1 else 0
  }

  class SessionRegistry {
    const maxAge: real
    const revoked: ExpiringStore<bool>

    constructor (maxEntries: int, maxAge: real)
      ensures this.maxAge == maxAge && fresh(revoked) && revoked.Contents() == Tiers([], [])
      ensures revoked.policy == RevocationPolicy(maxEntries, maxAge, REVOCATION_CLOCK_SLACK_SECONDS)
    {
      this.maxAge := maxAge;
      revoked := new ExpiringStore<bool>(RevocationPolicy(maxEntries, maxAge, REVOCATION_CLOCK_SLACK_SECONDS));
    }

    method IsValid(token: Option<Verified>, now: real) returns (valid: bool)
      modifies revoked
      ensures valid == Accepts(old(revoked.Contents()), token, maxAge, now)
      ensures revoked.Contents() == AfterEvent(revoked.policy, old(revoked.Contents()), Presented(token, now), maxAge)
    {
      if token.None? {
        return false;
      }
      var entry := revoked.Get(token.value.sid, now);
      if entry == Some(true) {
        return false;
      }
      var age := now - token.value.issuedAt;
      return -CLOCK_SKEW_TOLERANCE_SECONDS <= age && age <= maxAge;
    }

    method Revoke(token: Option<Verified>, now: real)
      modifies revoked
      ensures revoked.Contents() == AfterEvent(revoked.policy, old(revoked.Contents()), LoggedOut(token, now), maxAge)
    {
      var valid := IsValid(token, now);
      if valid {
        revoked.Set(token.value.sid, true, now);
      }
    }
  }

  lemma RevokedStands(p: Policy<bool>, t: Tiers<bool>, clock: real, sid: string, now: real)
    requires StoreSound(p, t, clock) && clock <= now && p.protect.None?
    ensures StoreSound(p, Written(p, t, sid, true, now), now)
    ensures Stands(Written(p, t, sid, true, now).ordinary, Entry(sid, now + p.ttl, true), 0)
  {
    SweepKeepsStore(p, t, clock, now);
    var swept := Swept(t, now);
    var bare := Cleared(p, swept, sid, now);
    PlaceKeepsStore(p, swept, sid, true, now);
    WriteKeepsStore(p, t, clock, sid, true, now);
    LastStands(bare.ordinary, Entry(sid, now + p.ttl, true));
    TrimKeepsStanding(p, Place(p, swept, sid, true, now), Entry(sid, now + p.ttl, true), 0, now);
  }

  /** A record that stands and has not expired is read. */
  lemma StandingIsRevoked(p: Policy<bool>, t: Tiers<bool>, clock: real, e: Entry<bool>, behind: int, now: real)
    requires StoreSound(p, t, clock) && clock <= now < e.expiresAt && e.value && Stands(t.ordinary, e, behind)
    ensures Read(t, e.key, now) == Some(true)
  {
    assert Held(t, e);
    ReadIsHeld(p, t, clock, e.key, now);
  }

  // ------------------------------------------------------------------ histories of the registry

  lemma SweptOnce<V(!new)>(p: Policy<V>, t: Tiers<V>, clock: real, now: real)
    requires StoreSound(p, t, clock) && clock <= now
    ensures Swept(Swept(t, now), now) == Swept(t, now)
  {
    TailIsLive(t.ordinary, now);
    TailIsLive(t.guarded, now);
  }

  lemma TailIsLive<V(!new)>(entries: seq<Entry<V>>, now: real)
    ensures LiveTail(LiveTail(entries, now), now) == LiveTail(entries, now)
  {
    var k := SweepCutsTheFront(entries, now);
  }

  /** The operation of the store behind an event, if there is one. */
  function OpOf(t: Tiers<bool>, e: Event, maxAge: real): Op<bool> {
    if e.token.None? then Measure(e.at)
    else if Revokes(t, e, maxAge) then Put(e.token.value.sid, true, e.at)
    else Look(e.token.value.sid, e.at)
  }

  lemma EventIsOp(p: Policy<bool>, t: Tiers<bool>, clock: real, e: Event, maxAge: real)
    requires StoreSound(p, t, clock) && clock <= e.at && e.token.Some?
    ensures AfterEvent(p, t, e, maxAge) == Apply(p, t, OpOf(t, e, maxAge))
  {
    SweptOnce(p, t, clock, e.at);
  }

  ghost predicate InOrder(events: seq<Event>) {
    forall i, j :: 0 <= i < j < |events| ==> events[i].at <= events[j].at
  }

  ghost predicate Within(events: seq<Event>, from: real, until: real) {
    forall i :: 0 <= i < |events| ==> from <= events[i].at <= until
  }

  function LastAt(events: seq<Event>, start: real): real {
    if events == [] then start else events[|events| - 1].at
  }

  /** One event, of whatever token: the record of a revoked session is overtaken by at most the revocation of another. */
  lemma RecordOutlivesEvent(p: Policy<bool>, t: Tiers<bool>, clock: real, e: Entry<bool>, behind: nat, event: Event, maxAge: real)
    requires StoreSound(p, t, clock) && clock <= event.at < e.expiresAt && e.value && p.protect.None? && Stands(t.ordinary, e, behind)
    requires var load := if Revokes(t, event, maxAge) then 1 else 0; behind + load < p.Cap()
    ensures var load := if Revokes(t, event, maxAge) then 1 else 0;
      Stands(AfterEvent(p, t, event, maxAge).ordinary, e, behind + load)
    ensures StoreSound(p, AfterEvent(p, t, event, maxAge), event.at)
  {
    if event.token.Some? {
      EventIsOp(p, t, clock, event, maxAge);
      StandingIsRevoked(p, t, clock, e, behind, event.at);
      var op := OpOf(t, event, maxAge);
      assert Foreign(op, e.key);
      OrdinaryOutlives(p, t, clock, e, behind, op);
      ApplyKeepsStore(p, t, clock, op);
    }
  }

  lemma BeforeTheLast(events: seq<Event>, from: real, until: real)
    requires events != [] && InOrder(events) && forall i :: 0 <= i < |events| ==> from <= events[i].at < until
    ensures var before, event := events[..|events| - 1], events[|events| - 1];
      && InOrder(before) && (forall i :: 0 <= i < |before| ==> from <= before[i].at < until)
      && from <= LastAt(before, from) <= event.at < until && LastAt(events, from) == event.at
  {
  }

  lemma {:induction false} RecordOutlivesEvents(p: Policy<bool>, t: Tiers<bool>, from: real, e: Entry<bool>, events: seq<Event>, maxAge: real)
    requires StoreSound(p, t, from) && e.value && p.protect.None? && Stands(t.ordinary, e, 0)
    requires InOrder(events) && (forall i :: 0 <= i < |events| ==> from <= events[i].at < e.expiresAt)
    requires Revocations(p, t, events, maxAge) < p.Cap()
    ensures StoreSound(p, AfterEvents(p, t, events, maxAge), LastAt(events, from))
    ensures Stands(AfterEvents(p, t, events, maxAge).ordinary, e, Revocations(p, t, events, maxAge))
    decreases |events|
  {
    if events != [] {
      var before, event := events[..|events| - 1], events[|events| - 1];
      BeforeTheLast(events, from, e.expiresAt);
      RecordOutlivesEvents(p, t, from, e, before, maxAge);
      RecordOutlivesEvent(p, AfterEvents(p, t, before, maxAge), LastAt(before, from), e, Revocations(p, t, before, maxAge), event, maxAge);
    }
  }

  /** A token valid when logged out with is rejected at every later instant, however often it and other tokens are
      presented or logged out with in between, as long as fewer sessions than the cap are revoked after it. */
  lemma {:induction false} LogoutIsPermanent(maxEntries: int, maxAge: real, t: Tiers<bool>, clock: real, token: Verified, now: real,
                                             events: seq<Event>, later: real)
    requires var p := RevocationPolicy(maxEntries, maxAge, REVOCATION_CLOCK_SLACK_SECONDS);
      && StoreSound(p, t, clock) && clock <= now && Accepts(t, Some(token), maxAge, now)
      && Revocations(p, AfterLogout(p, t, Some(token), maxAge, now), events, maxAge) < p.Cap()
    requires InOrder(events) && Within(events, now, later) && now <= later
    ensures var p := RevocationPolicy(maxEntries, maxAge, REVOCATION_CLOCK_SLACK_SECONDS);
      !Accepts(AfterEvents(p, AfterLogout(p, t, Some(token), maxAge, now), events, maxAge), Some(token), maxAge, later)
  {
    var p := RevocationPolicy(maxEntries, maxAge, REVOCATION_CLOCK_SLACK_SECONDS);
    var e := Entry(token.sid, now + p.ttl, true);
    if later < e.expiresAt {
      SweepKeepsStore(p, t, clock, now);
      var revoked := AfterLogout(p, t, Some(token), maxAge, now);
      RevokedStands(p, Swept(t, now), now, token.sid, now);
      RecordOutlivesEvents(p, revoked, now, e, events, maxAge);
      StandingIsRevoked(p, AfterEvents(p, revoked, events, maxAge), LastAt(events, now), e, Revocations(p, revoked, events, maxAge), later);
    }
  }

  /** What a logout leaves on record: with a token valid at that instant, its session, for the retention, and nothing that
      was not there before; with any other token, exactly the records that have not expired, so that it evicts nothing. */
  lemma WhatALogoutRecords(maxEntries: int, maxAge: real, t: Tiers<bool>, clock: real, token: Verified, now: real)
    requires var p := RevocationPolicy(maxEntries, maxAge, REVOCATION_CLOCK_SLACK_SECONDS); StoreSound(p, t, clock)
    requires clock <= now
    ensures var p := RevocationPolicy(maxEntries, maxAge, REVOCATION_CLOCK_SLACK_SECONDS);
      var after, record := AfterLogout(p, t, Some(token), maxAge, now), Entry(token.sid, now + maxAge + 61.0, true);
      if Accepts(t, Some(token), maxAge, now) then
        Held(after, record) && forall e :: Held(after, e) ==> e == record || (Held(t, e) && now < e.expiresAt)
      else forall e :: Held(after, e) <==> Held(t, e) && now < e.expiresAt
  {
    var p := RevocationPolicy(maxEntries, maxAge, REVOCATION_CLOCK_SLACK_SECONDS);
    SweptHolds(p, t, clock, now);
    if Accepts(t, Some(token), maxAge, now) {
      SweepKeepsStore(p, t, clock, now);
      RevokedStands(p, Swept(t, now), now, token.sid, now);
      HeldWasPlaced(p, Swept(t, now), now, token.sid, true, now);
    }
  }

  /** The registry holds no record of this session. */
  ghost predicate Unrecorded(t: Tiers<bool>, sid: string) {
    forall e :: Held(t, e) ==> e.key != sid
  }

  /** An event that does not log the session out leaves it unrecorded. */
  lemma StaysUnrecorded(p: Policy<bool>, t: Tiers<bool>, clock: real, sid: string, event: Event, maxAge: real)
    requires StoreSound(p, t, clock) && clock <= event.at && Unrecorded(t, sid)
    requires event.LoggedOut? && event.token.Some? ==> event.token.value.sid != sid
    ensures Unrecorded(AfterEvent(p, t, event, maxAge), sid) && StoreSound(p, AfterEvent(p, t, event, maxAge), event.at)
  {
    if event.token.Some? {
      EventIsOp(p, t, clock, event, maxAge);
      ApplyKeepsStore(p, t, clock, OpOf(t, event, maxAge));
      SweptHolds(p, t, clock, event.at);
      if Revokes(t, event, maxAge) {
        HeldWasPlaced(p, t, clock, event.token.value.sid, true, event.at);
      }
    }
  }

  lemma {:induction false} StaysUnrecordedThroughout(p: Policy<bool>, t: Tiers<bool>, from: real, sid: string, events: seq<Event>, maxAge: real)
    requires StoreSound(p, t, from) && Unrecorded(t, sid) && InOrder(events)
    requires forall i :: 0 <= i < |events| ==> from <= events[i].at
    requires forall i :: 0 <= i < |events| && events[i].LoggedOut? && events[i].token.Some? ==> events[i].token.value.sid != sid
    ensures Unrecorded(AfterEvents(p, t, events, maxAge), sid) && StoreSound(p, AfterEvents(p, t, events, maxAge), LastAt(events, from))
    decreases |events|
  {
    if events != [] {
      var before, event := events[..|events| - 1], events[|events| - 1];
      StaysUnrecordedThroughout(p, t, from, sid, before, maxAge);
      assert LastAt(before, from) <= event.at;
      StaysUnrecorded(p, AfterEvents(p, t, before, maxAge), LastAt(before, from), sid, event, maxAge);
    }
  }

  /** Only its own logout ends a session early: whatever other sessions do, and whatever is evicted, a session that has not
      been logged out is accepted exactly while its age is acceptable. */
  lemma OnlyItsLogoutEndsASession(maxEntries: int, maxAge: real, t: Tiers<bool>, clock: real, token: Verified,
                                  events: seq<Event>, later: real)
    requires var p := RevocationPolicy(maxEntries, maxAge, REVOCATION_CLOCK_SLACK_SECONDS); StoreSound(p, t, clock)
    requires Unrecorded(t, token.sid) && InOrder(events) && Within(events, clock, later) && clock <= later
    requires forall i :: 0 <= i < |events| && events[i].LoggedOut? && events[i].token.Some? ==> events[i].token.value.sid != token.sid
    ensures var p := RevocationPolicy(maxEntries, maxAge, REVOCATION_CLOCK_SLACK_SECONDS);
      Accepts(AfterEvents(p, t, events, maxAge), Some(token), maxAge, later) <==> -60.0 <= later - token.issuedAt <= maxAge
  {
    var p := RevocationPolicy(maxEntries, maxAge, REVOCATION_CLOCK_SLACK_SECONDS);
    StaysUnrecordedThroughout(p, t, clock, token.sid, events, maxAge);
    ReadIsHeld(p, AfterEvents(p, t, events, maxAge), LastAt(events, clock), token.sid, later);
  }

  /** Alone in the store, with retention max_age + slack, a revoked token is rejected at `later` or not. */
  predicate Rejected(maxAge: real, slack: real, token: Verified, now: real, later: real) {
    var p := RevocationPolicy(1, maxAge, slack);
    !Accepts(AfterLogout(p, Tiers([], []), Some(token), maxAge, now), Some(token), maxAge, later)
  }

  /** Retention max_age + slack makes every logout permanent exactly when slack exceeds the 60 seconds of tolerance:
      61 does, and 60 itself fails at the boundary. */
  lemma RetentionSufficesIff(maxAge: real, slack: real)
    requires 0.0 <= maxAge
    ensures (forall token: Verified, now: real, later: real :: YoungEnough(token, maxAge, now) && now <= later
               ==> Rejected(maxAge, slack, token, now, later))
       <==> CLOCK_SKEW_TOLERANCE_SECONDS < slack
  {
    if CLOCK_SKEW_TOLERANCE_SECONDS < slack {
      forall token: Verified, now: real, later: real | YoungEnough(token, maxAge, now) && now <= later
        ensures Rejected(maxAge, slack, token, now, later)
      {
      }
    } else {
      var token := Verified("", CLOCK_SKEW_TOLERANCE_SECONDS);
      var later := maxAge + CLOCK_SKEW_TOLERANCE_SECONDS;
      assert YoungEnough(token, maxAge, 0.0) && !Rejected(maxAge, slack, token, 0.0, later);
    }
  }
}

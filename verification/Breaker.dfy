/** The durable circuit breaker of one provider: the health row, its SQL updates,
    and what they keep over every interleaving of gates, probes and outcomes. */
module Breaker {
  import opened Wrappers

  type Token = nat

  const BREAKER_BASE_COOLDOWN_MS := 120_000
  const BREAKER_MAX_COOLDOWN_MS := 15 * 60_000
  const BREAKER_PROBE_LEASE_MS := 6 * 60_000
  const GENERIC_TRIP := 5
  const BILLING_TRIP := 2

  datatype HealthState = Closed | Open | HalfOpen

  datatype Health = Health(
    state: HealthState,
    consecutiveFailures: nat,
    billingFailures: nat,
    openedAt: Option<int>,
    cooldownMs: int,
    cooldownUntil: Option<int>,
    probeToken: Option<Token>,
    probeLeaseUntil: Option<int>)

  /** The row `ensureHealthRow` inserts when a provider is first seen. */
  const FRESH := Health(Closed, 0, 0, None, BREAKER_BASE_COOLDOWN_MS, None, None, None)

  /** What a caller concludes from the health row it read. */
  datatype GateDecision = Pass | TryProbe | Refused(reason: string)

  function Decide(h: Health, disabled: bool, now: int): GateDecision {
    if disabled then Refused("disabled")
    else match h.state
      case Closed => Pass
      case Open => if h.cooldownUntil.GetOr(0) > now then Refused("breaker_open") else TryProbe
      case HalfOpen => if h.probeLeaseUntil.GetOr(0) > now then Refused("breaker_probe_in_flight") else TryProbe
  }

  /** The CAS that turns an open (or lease-expired half-open) breaker into a probe. */
  predicate CanProbe(h: Health, now: int) {
    || (h.state == Open && h.cooldownUntil.GetOr(0) <= now)
    || (h.state == HalfOpen && h.probeLeaseUntil.GetOr(0) <= now)
  }

  function AcquireProbe(h: Health, token: Token, now: int): Health {
    if CanProbe(h, now)
    then h.(state := HalfOpen, probeToken := Some(token), probeLeaseUntil := Some(now + BREAKER_PROBE_LEASE_MS))
    else h
  }

  function Abandon(h: Health, token: Token, now: int): Health {
    if h.state == HalfOpen && h.probeToken == Some(token)
    then h.(state := Open, probeToken := None, probeLeaseUntil := None, cooldownUntil := Some(now + 1_000))
    else h
  }

  function NextCooldown(cooldownMs: int): int {
    Min(Max(cooldownMs, BREAKER_BASE_COOLDOWN_MS) * 2, BREAKER_MAX_COOLDOWN_MS)
  }

  /** One provider outcome. `billing` marks the classes "billing" and "rate_limited". */
  function Outcome(h: Health, ok: bool, billing: bool, now: int, probe: Option<Token>): Health {
    match probe
    case Some(token) =>
      if !(h.state == HalfOpen && h.probeToken == Some(token)) then h
      else if ok then FRESH
      else h.(
        state := Open,
        consecutiveFailures := h.consecutiveFailures + 1,
        billingFailures := h.billingFailures + (if billing then 1 else 0),
        openedAt := Some(now),
        cooldownMs := NextCooldown(h.cooldownMs),
        cooldownUntil := Some(now + NextCooldown(h.cooldownMs)),
        probeToken := None, probeLeaseUntil := None)
    case None =>
      if h.state != Closed then h
      else if ok then h.(consecutiveFailures := 0, billingFailures := 0)
      else
        var counted := h.(
          consecutiveFailures := h.consecutiveFailures + 1,
          billingFailures := h.billingFailures + (if billing then 1 else 0));
        if counted.consecutiveFailures >= GENERIC_TRIP || counted.billingFailures >= BILLING_TRIP
        then counted.(
          state := Open, openedAt := Some(now), cooldownMs := BREAKER_BASE_COOLDOWN_MS,
          cooldownUntil := Some(now + BREAKER_BASE_COOLDOWN_MS), probeToken := None, probeLeaseUntil := None)
        else counted
  }

  /** One atomic D1 statement (or batch) against a health row. A probe token is a
      fresh UUID: the `minted` counter of the breaker stands for the random source. */
  datatype Event =
    | GateProbe(now: int)
    | AbandonProbe(token: Token, now: int)
    | Report(ok: bool, billing: bool, now: int, probe: Option<Token>)

  datatype State = State(health: Health, minted: Token)

  function Step(s: State, e: Event): State {
    match e
    case GateProbe(now) => State(AcquireProbe(s.health, s.minted, now), s.minted + 1)
    case AbandonProbe(token, now) => s.(health := Abandon(s.health, token, now))
    case Report(ok, billing, now, probe) => s.(health := Outcome(s.health, ok, billing, now, probe))
  }

  function Run(s: State, events: seq<Event>): State {
    if events == [] then s
    else Step(Run(s, events[..|events| - 1]), events[|events| - 1])
  }

  const START := State(FRESH, 0)

  /** The failed probes since the breaker last tripped, read off the history alone. */
  function FailedProbes(events: seq<Event>): nat {
    if events == [] then 0
    else
      var before := Run(START, events[..|events| - 1]);
      var rest := FailedProbes(events[..|events| - 1]);
      match events[|events| - 1]
      case Report(false, _, _, Some(token)) =>
        if before.health.state == HalfOpen && before.health.probeToken == Some(token) then rest + 1 else rest
      case Report(true, _, _, Some(token)) =>
        if before.health.state == HalfOpen && before.health.probeToken == Some(token) then 0 else rest
      case _ => rest
  }

  function Doubled(base: nat, k: nat): nat {
    if k == 0 then base else 2 * Doubled(base, k - 1)
  }

  predicate Consistent(s: State) {
    && (s.health.state == Closed ==> s.health.consecutiveFailures < GENERIC_TRIP && s.health.billingFailures < BILLING_TRIP)
    && (s.health.state == HalfOpen <==> s.health.probeToken.Some?)
    && (s.health.probeToken.Some? ==> s.health.probeToken.value < s.minted)
  }

  /** In every reachable state: a closed breaker is below both trip limits, exactly
      the half-open states hold a probe token, and the cooldown is the base doubled
      once per failed probe since the trip, capped at the maximum. */
  lemma {:induction false} BreakerSafety(events: seq<Event>)
    ensures var s := Run(START, events);
            && Consistent(s)
            && s.health.cooldownMs == Min(Doubled(120_000, FailedProbes(events)), 900_000)
            && (s.health.state == Closed ==> FailedProbes(events) == 0)
  {
    if events != [] {
      BreakerSafety(events[..|events| - 1]);
      DoubledGrows(FailedProbes(events[..|events| - 1]));
    }
  }

  lemma {:induction false} DoubledGrows(k: nat)
    ensures Doubled(BREAKER_BASE_COOLDOWN_MS, k) >= BREAKER_BASE_COOLDOWN_MS
  {
    if k > 0 {
      DoubledGrows(k - 1);
    }
  }

  /** The one way back to closed, and it forgets everything. */
  lemma OnlyTheStoredProbeCloses(s: State, e: Event)
    requires Consistent(s)
    ensures s.health.state != Closed && Step(s, e).health.state == Closed
            <==> s.health.state == HalfOpen && e.Report? && e.ok && e.probe.Some? && e.probe == s.health.probeToken
    ensures s.health.state != Closed && Step(s, e).health.state == Closed ==> Step(s, e).health == FRESH
  {
  }

  /** Tokens are never reissued: a minted token that is not the stored one is never
      stored again, whatever happens next. */
  lemma {:induction false} SupersededForever(s: State, token: Token, events: seq<Event>)
    requires token < s.minted && s.health.probeToken != Some(token)
    ensures var t := Run(s, events); token < t.minted && t.health.probeToken != Some(token)
  {
    if events != [] {
      SupersededForever(s, token, events[..|events| - 1]);
    }
  }

  /** Once a probe is superseded, its late outcome - success or failure - and its
      late abandonment change nothing in any later state; and while the breaker is
      open or half-open, neither does the outcome of a call admitted before the trip. */
  lemma StaleReportsAreInert(s: State, token: Token, events: seq<Event>, ok: bool, billing: bool, now: int)
    requires token < s.minted && s.health.probeToken != Some(token)
    ensures var t := Run(s, events);
            && Step(t, Report(ok, billing, now, Some(token))) == t
            && Step(t, AbandonProbe(token, now)) == t
            && (t.health.state != Closed ==> Step(t, Report(ok, billing, now, None)) == t)
  {
    SupersededForever(s, token, events);
  }

  predicate FromOthersDuringLease(h: Health, e: Event) {
    match e
    case GateProbe(now) => h.probeLeaseUntil.Some? && now < h.probeLeaseUntil.value
    case AbandonProbe(token, _) => Some(token) != h.probeToken
    case Report(_, _, _, probe) => probe != h.probeToken
  }

  /** While a probe's lease runs, no second probe is admitted: only the holder's own
      report or abandonment moves the breaker. */
  lemma {:induction false} ProbeLeaseExcludes(s: State, events: seq<Event>)
    requires s.health.state == HalfOpen && s.health.probeToken.Some? && s.health.probeLeaseUntil.Some?
    requires forall e :: e in events ==> FromOthersDuringLease(s.health, e)
    ensures Run(s, events).health == s.health
  {
    if events != [] {
      assert forall e :: e in events[..|events| - 1] ==> e in events;
      ProbeLeaseExcludes(s, events[..|events| - 1]);
      assert events[|events| - 1] in events;
    }
  }

  // ----- When the breaker opens, and for how long -----

  /** The failed outcomes of untokened calls since the breaker last closed or last heard
      of a success, read off the history; `billed` counts the billing ones alone. */
  function Streak(events: seq<Event>, billed: bool): nat {
    if events == [] then 0
    else
      var before := Run(START, events[..|events| - 1]).health;
      var rest := Streak(events[..|events| - 1], billed);
      match events[|events| - 1]
      case Report(true, _, _, None) => if before.state == Closed then 0 else rest
      case Report(false, billing, _, None) => if before.state == Closed && (billing || !billed) then rest + 1 else rest
      case Report(true, _, _, Some(token)) => if before.state == HalfOpen && before.probeToken == Some(token) then 0 else rest
      case _ => rest
  }

  lemma {:induction false} ClosedCounts(events: seq<Event>)
    ensures var h := Run(START, events).health;
            h.state == Closed ==> h.consecutiveFailures == Streak(events, false) && h.billingFailures == Streak(events, true)
  {
    if events != [] {
      ClosedCounts(events[..|events| - 1]);
    }
  }

  /** A closed breaker opens exactly on the untokened failure that is the fifth in a row,
      or the second billing one; then it stays open for the base cooldown. */
  lemma TripsExactly(events: seq<Event>, e: Event)
    requires Run(START, events).health.state == Closed
    ensures var s := Run(START, events);
            var t := Step(s, e);
            && (t.health.state != Closed <==>
                  && e.Report? && !e.ok && e.probe.None?
                  && (Streak(events, false) + 1 >= 5 || (e.billing && Streak(events, true) + 1 >= 2)))
            && (t.health.state != Closed ==>
                  && t.health.state == Open && t.health.openedAt == Some(e.now) && t.health.cooldownMs == 120_000
                  && t.health.cooldownUntil == Some(e.now + 120_000))
  {
    ClosedCounts(events);
    BreakerSafety(events);
  }

  lemma {:induction false} Timed(events: seq<Event>)
    ensures var h := Run(START, events).health;
            (h.state == Open ==> h.cooldownUntil.Some?) && (h.state == HalfOpen ==> h.probeLeaseUntil.Some?)
  {
    if events != [] {
      Timed(events[..|events| - 1]);
    }
  }

  /** A probe is granted exactly when the cooldown, or an earlier probe's lease, is over.
      Its token is new, its lease is the full one, and nothing else changes. */
  lemma ProbeGrantedExactly(events: seq<Event>, now: int)
    ensures var s := Run(START, events);
            var t := Step(s, GateProbe(now));
            && (t.health != s.health <==>
                  || (s.health.state == Open && s.health.cooldownUntil.Some? && s.health.cooldownUntil.value <= now)
                  || (s.health.state == HalfOpen && s.health.probeLeaseUntil.Some? && s.health.probeLeaseUntil.value <= now))
            && (t.health != s.health ==>
                  && t.health.state == HalfOpen && t.health.probeToken.Some? && t.health.probeToken != s.health.probeToken
                  && t.health.probeLeaseUntil == Some(now + 360_000)
                  && t.health.consecutiveFailures == s.health.consecutiveFailures
                  && t.health.billingFailures == s.health.billingFailures
                  && t.health.cooldownMs == s.health.cooldownMs)
  {
    Timed(events);
    BreakerSafety(events);
  }

  /** A half-open breaker reopens exactly on its probe's failure, for the raised cooldown,
      or on its probe's abandonment, for one second; the failures are counted on. */
  lemma ReopensExactly(events: seq<Event>, e: Event)
    requires Run(START, events).health.state == HalfOpen
    ensures var h, t := Run(START, events).health, Step(Run(START, events), e).health;
            && (t.state == Open <==>
                  || (e.Report? && !e.ok && e.probe.Some? && e.probe == h.probeToken)
                  || (e.AbandonProbe? && Some(e.token) == h.probeToken))
            && (t.state == Open && e.Report? ==>
                  && t.cooldownUntil == Some(e.now + t.cooldownMs) && t.openedAt == Some(e.now)
                  && t.consecutiveFailures == h.consecutiveFailures + 1
                  && t.billingFailures == h.billingFailures + (if e.billing then 1 else 0))
            && (t.state == Open && e.AbandonProbe? ==>
                  && t.cooldownUntil == Some(e.now + 1_000) && t.cooldownMs == h.cooldownMs
                  && t.consecutiveFailures == h.consecutiveFailures && t.billingFailures == h.billingFailures)
  {
    BreakerSafety(events);
  }
}

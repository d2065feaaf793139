/** The provider spend ledger as a transition system. Every D1 statement or batch is
    one atomic step over the reservation, daily, monthly and health tables; a call
    that needs several round trips keeps what it has read in `calls`, so finishers,
    reapers, admitters and deleters interleave freely between their steps. */
module Ledger {
  import opened Wrappers
  import opened RateCards
  import Breaker

  type Token = Breaker.Token

  const RESERVATION_TTL_MS := 6 * 60_000
  const MAX_RESERVED_ATTEMPTS := 10
  const GOOGLE := "google-vertex"

  /** A caller-chosen operation id, or one derived by hashing its four parts. */
  datatype OpId = Explicit(id: string) | Derived(scope: string, scopeId: string, task: string, ordinal: nat)

  datatype Status = Reserved | Invoking | Settled | Released | AmbiguousCharged

  datatype Lifecycle = Lifecycle(
    memoryUser: Option<string>, account: Option<string>, project: Option<string>, epoch: Option<int>,
    acceptedAt: Option<int>, scope: Option<string>, scopeId: Option<string>, exempt: bool)

  /** What the scrub leaves of a tenant row's lifecycle columns. */
  const SCRUBBED := Lifecycle(None, None, None, None, None, None, None, false)

  /** A reservation row. `admitted` repeats the lifecycle the row was inserted with
      and `base` the per-attempt estimate behind `estimatedUnits`; no operation reads
      `admitted`, it is the history the deletion fence is stated about. */
  datatype Row = Row(
    provider: string, capability: string, rate: RateSnapshot, day: string, month: string,
    estimatedUnits: nat, estimatedCost: nat, base: Estimate, maxAttempts: nat,
    attemptToken: Token, lifecycle: Lifecycle, admitted: Lifecycle,
    status: Status, expiresAt: int,
    settleToken: Option<Token>, actualUnits: nat, actualCost: nat)

  predicate Active(r: Row) {
    r.status == Reserved || r.status == Invoking
  }

  /** The primary keys of the two totals tables: units per day, provider and class,
      and cost per month and provider. A bucket counts in the unit of its table. */
  datatype BucketKey = DayKey(day: string, provider: string, unitClass: UnitClass) | MonthKey(month: string, provider: string)

  datatype Bucket = Bucket(used: int, reserved: int)

  function DayOf(r: Row): BucketKey { DayKey(r.day, r.provider, r.rate.unitClass) }
  function MonthOf(r: Row): BucketKey { MonthKey(r.month, r.provider) }

  function BucketOf(totals: map<BucketKey, Bucket>, k: BucketKey): Bucket {
    if k in totals then totals[k] else Bucket(0, 0)
  }

  datatype Project = Project(active: bool, lifecycleActive: bool, epoch: int)
  datatype Membership = Membership(project: string, memoryUser: string, active: bool)
  datatype FenceClass = SemanticMemory | SourceEpisodes | PlaygroundTranscripts | OtherClass
  datatype RetentionFence = RetentionFence(project: string, fenceClass: FenceClass, cutoffAt: int)
  datatype OwnedRun = OwnedRun(id: string, user: string)

  /** The control-plane tables the invocation guard reads. */
  datatype World = World(
    barriers: map<string, int>, tombstones: set<string>, projects: map<string, Project>,
    memberships: set<Membership>, fences: set<RetentionFence>,
    runningSaves: set<OwnedRun>, runningCaptures: set<OwnedRun>)

  /** Deletion barriers are written with MAX, and never removed. */
  predicate BarriersOnlyRise(w: World, w': World) {
    forall u :: u in w.barriers ==> u in w'.barriers && w.barriers[u] <= w'.barriers[u]
  }

  datatype HealthGate = ClosedGate | ProbeGate(token: Token)

  datatype Config = Config(genTokens: nat, embedTokens: nat, rankUnits: nat, monthlyCost: nat)

  function Ceiling(cfg: Config, k: BucketKey): nat {
    match k
    case DayKey(_, _, GenTokens) => cfg.genTokens
    case DayKey(_, _, EmbedTokens) => cfg.embedTokens
    case DayKey(_, _, RankUnits) => cfg.rankUnits
    case MonthKey(_, _) => cfg.monthlyCost
  }

  predicate Fits(cfg: Config, totals: map<BucketKey, Bucket>, k: BucketKey) {
    BucketOf(totals, k).used + BucketOf(totals, k).reserved <= Ceiling(cfg, k)
  }

  /** A finisher's or reaper's call, at the point it has reached. `stored` is the row
      it read before its batch. */
  datatype Call =
    | Absent
    | Loaded(id: OpId, stored: Row, to: Status, froms: set<Status>, used: nat, cost: nat)
    | Committed(id: OpId, to: Status, token: Token)
    | Poisoned(id: OpId)
    | Done(id: OpId, to: Status, token: Token, applied: bool)

  datatype State = State(
    rows: map<OpId, Row>,
    totals: map<BucketKey, Bucket>,
    health: map<string, Breaker.Health>,
    disabled: set<string>,
    world: World,
    calls: map<nat, Call>,
    nextToken: Token)

  // ----- Guards -----

  predicate ExemptShape(l: Lifecycle) {
    && l.exempt && l.scope == Some("provider_health") && l.scopeId.Some?
    && l.memoryUser.None? && l.account.None? && l.project.None? && l.acceptedAt.None?
  }

  predicate TenantShape(l: Lifecycle) {
    !l.exempt && l.memoryUser.Some? && l.acceptedAt.Some? && l.scope.Some? && l.scopeId.Some?
  }

  predicate MembershipObjects(w: World, l: Lifecycle, m: Membership) {
    && Some(m.memoryUser) == l.memoryUser
    && (
      || m.project !in w.projects || !m.active
      || !w.projects[m.project].active || !w.projects[m.project].lifecycleActive
      || (l.project.Some? && l.project.value != m.project)
      || (l.epoch.Some? && w.projects[m.project].epoch != l.epoch.value))
  }

  /** The lifecycle clause of the reserved -> invoking update. */
  predicate LifecycleAdmits(w: World, provider: string, l: Lifecycle) {
    || provider != GOOGLE
    || ExemptShape(l)
    || (&& TenantShape(l)
        && !(l.memoryUser.value in w.barriers && w.barriers[l.memoryUser.value] >= l.acceptedAt.value)
        && l.memoryUser.value !in w.tombstones
        && !(l.account.Some? && l.account.value in w.tombstones)
        && (l.project.Some? ==>
              && l.project.value in w.projects
              && w.projects[l.project.value].active
              && w.projects[l.project.value].lifecycleActive
              && Some(w.projects[l.project.value].epoch) == l.epoch)
        && (forall m :: m in w.memberships ==> !MembershipObjects(w, l, m))
        && (l.project.Some? ==>
              forall f :: f in w.fences ==>
                !(f.project == l.project.value && f.fenceClass != OtherClass && f.cutoffAt >= l.acceptedAt.value))
        && (l.scope.value == "save" ==> OwnedRun(l.scopeId.value, l.memoryUser.value) in w.runningSaves)
        && (l.scope.value == "atomic_capture" ==> OwnedRun(l.scopeId.value, l.memoryUser.value) in w.runningCaptures))
  }

  /** The health clause shared by the reserve and invoke statements. */
  predicate GateHolds(s: State, provider: string, gate: Option<HealthGate>, now: int) {
    && provider !in s.disabled
    && match gate
       case None => true
       case Some(ClosedGate) => provider in s.health && s.health[provider].state == Breaker.Closed
       case Some(ProbeGate(token)) =>
         && provider in s.health
         && s.health[provider].state == Breaker.HalfOpen
         && s.health[provider].probeToken == Some(token)
         && s.health[provider].probeLeaseUntil.GetOr(0) >= now
  }

  // ----- Reserve -----

  datatype Request = Request(
    id: OpId, provider: string, model: Option<string>, capability: string, inputs: Inputs,
    maxAttempts: int, lifecycle: Lifecycle, gate: Option<HealthGate>, day: string, month: string, now: int)

  function NormalizeAttempts(n: int): nat {
    Min(MAX_RESERVED_ATTEMPTS, Max(1, n))
  }

  function RowFor(req: Request, rate: RateSnapshot, token: Token): Row {
    var est := EstimateUnits(req.capability, req.inputs);
    var attempts := NormalizeAttempts(req.maxAttempts);
    Row(req.provider, req.capability, rate, req.day, req.month,
        est.units * attempts, BaseCost(rate, est) * attempts, est, attempts,
        token, req.lifecycle, req.lifecycle, Reserved, req.now + RESERVATION_TTL_MS, None, 0, 0)
  }

  /** The upsert of a totals table: a missing bucket starts empty. */
  function AddReserved(totals: map<BucketKey, Bucket>, k: BucketKey, amount: nat): map<BucketKey, Bucket> {
    var b := BucketOf(totals, k);
    totals[k := b.(reserved := b.reserved + amount)]
  }

  datatype ReserveOutcome = Won(row: Row) | Lost | OverCeiling | Unpriced

  /** The reserve batch: insert the row if nothing holds the id and the gate holds,
      add its estimate to both buckets, and roll everything back if the insert won
      and either bucket now exceeds its ceiling. */
  function ReserveBatch(cfg: Config, s: State, req: Request): (State, ReserveOutcome) {
    match GoogleRateSnapshot(req.model, EstimateUnits(req.capability, req.inputs).unitClass)
    case Err(_) => (s, Unpriced)
    case Ok(rate) => InsertAndHold(cfg, s, req, RowFor(req, rate, s.nextToken))
  }

  function InsertAndHold(cfg: Config, s: State, req: Request, row: Row): (State, ReserveOutcome) {
    var minted := s.(nextToken := s.nextToken + 1);
    var won := req.id !in s.rows && GateHolds(s, req.provider, req.gate, req.now);
    var totals := AddReserved(AddReserved(s.totals, DayOf(row), if won then row.estimatedUnits else 0),
                              MonthOf(row), if won then row.estimatedCost else 0);
    if !won then (minted.(totals := totals), Lost)
    else if !(Fits(cfg, totals, DayOf(row)) && Fits(cfg, totals, MonthOf(row))) then (minted, OverCeiling)
    else (minted.(rows := s.rows[req.id := row], totals := totals), Won(row))
  }

  // ----- Invoke -----

  predicate CanInvoke(s: State, id: OpId, token: Token, gate: Option<HealthGate>, now: int) {
    && id in s.rows
    && s.rows[id].status == Reserved
    && s.rows[id].attemptToken == token
    && s.rows[id].expiresAt >= now
    && GateHolds(s, s.rows[id].provider, gate, now)
    && LifecycleAdmits(s.world, s.rows[id].provider, s.rows[id].lifecycle)
  }

  function Invoke(s: State, id: OpId, token: Token, gate: Option<HealthGate>, now: int): State {
    if CanInvoke(s, id, token, gate, now)
    then s.(rows := s.rows[id := s.rows[id].(status := Invoking, expiresAt := now + RESERVATION_TTL_MS)])
    else s
  }

  // ----- Terminal transitions -----

  datatype Usage = Usage(inputTokens: Option<int>, outputTokens: Option<int>, records: Option<int>, actualUnits: Option<int>)

  datatype Finish = Settle(usage: Usage) | Release | MarkAmbiguous

  function FinalUnits(row: Row, u: Usage): nat {
    match u.actualUnits
    case Some(units) => Max(0, units)
    case None =>
      if row.rate.unitClass == RankUnits then Max(1, u.records.GetOr(row.base.units))
      else Max(0, u.inputTokens.GetOr(0)) + Max(0, u.outputTokens.GetOr(0))
  }

  function FinalCost(row: Row, u: Usage): nat {
    EstimateCost(row.rate, Max(0, u.inputTokens.GetOr(0)), Max(0, u.outputTokens.GetOr(0)),
                 Max(1, u.records.GetOr(FinalUnits(row, u))))
  }

  /** What a finisher intends, priced on the row it read. */
  function Prepare(id: OpId, stored: Row, finish: Finish): Call {
    match finish
    case Settle(u) => Loaded(id, stored, Settled, {Invoking}, FinalUnits(stored, u), FinalCost(stored, u))
    case Release => Loaded(id, stored, Released, {Reserved, Invoking}, 0, 0)
    case MarkAmbiguous => Loaded(id, stored, AmbiguousCharged, {Invoking}, stored.estimatedUnits, stored.estimatedCost)
  }

  /** The status CAS at the head of the settlement batch. */
  predicate Wins(s: State, c: Call)
    requires c.Loaded?
  {
    c.id in s.rows && s.rows[c.id].attemptToken == c.stored.attemptToken && s.rows[c.id].status in c.froms
  }

  /** The drift poison: a winner whose buckets are missing or do not hold its estimate. */
  predicate Drifted(s: State, c: Call)
    requires c.Loaded?
  {
    || DayOf(c.stored) !in s.totals
    || s.totals[DayOf(c.stored)].reserved < c.stored.estimatedUnits
    || MonthOf(c.stored) !in s.totals
    || s.totals[MonthOf(c.stored)].reserved < c.stored.estimatedCost
  }

  /** Give an estimate back and book what was used instead. */
  function MoveMoney(totals: map<BucketKey, Bucket>, k: BucketKey, estimated: nat, used: nat): map<BucketKey, Bucket>
    requires k in totals
  {
    totals[k := Bucket(totals[k].used + used, totals[k].reserved - estimated)]
  }

  function Commit(s: State, c: Call): State
    requires c.Loaded? && Wins(s, c) && !Drifted(s, c)
  {
    s.(rows := s.rows[c.id := s.rows[c.id].(
         status := c.to, settleToken := Some(s.nextToken), actualUnits := c.used, actualCost := c.cost)],
       totals := MoveMoney(MoveMoney(s.totals, DayOf(c.stored), c.stored.estimatedUnits, c.used),
                           MonthOf(c.stored), c.stored.estimatedCost, c.cost))
  }

  // ----- Lifecycle cleanup -----

  datatype Selector = Selector(memoryUser: Option<string>, account: Option<string>, project: Option<string>, acceptedThrough: Option<int>)

  predicate HasClause(sel: Selector) {
    sel.memoryUser.Some? || sel.account.Some? || sel.project.Some?
  }

  predicate Selected(w: World, sel: Selector, l: Lifecycle) {
    || (sel.memoryUser.Some? && l.memoryUser == sel.memoryUser)
    || (sel.account.Some? && (l.account == sel.account || l.memoryUser == sel.account))
    || (sel.project.Some? &&
        (l.project == sel.project
         || exists m :: m in w.memberships && Some(m.project) == sel.project && Some(m.memoryUser) == l.memoryUser))
  }

  predicate InWindow(sel: Selector, l: Lifecycle) {
    sel.acceptedThrough.None? || l.acceptedAt.None? || l.acceptedAt.value <= sel.acceptedThrough.value
  }

  /** `assertNoActiveProviderInvocation` passes. */
  ghost predicate NoActiveInvocation(s: State, sel: Selector) {
    HasClause(sel) ==>
      forall id :: id in s.rows ==>
        var r := s.rows[id];
        !(&& r.provider == GOOGLE && r.status == Invoking && !r.lifecycle.exempt
          && (Selected(s.world, sel, r.lifecycle) || r.lifecycle.memoryUser.None? || r.lifecycle.acceptedAt.None?)
          && InWindow(sel, r.lifecycle))
  }

  predicate ScrubHits(w: World, sel: Selector, r: Row) {
    && HasClause(sel) && r.provider == GOOGLE && !r.lifecycle.exempt && r.status != Invoking
    && Selected(w, sel, r.lifecycle) && InWindow(sel, r.lifecycle)
  }

  function Scrub(s: State, sel: Selector): State {
    s.(rows := map id | id in s.rows ::
         if ScrubHits(s.world, sel, s.rows[id]) then s.rows[id].(lifecycle := SCRUBBED) else s.rows[id])
  }

  // ----- Steps -----

  datatype Step =
    | ReserveStep(req: Request)
    | InvokeStep(id: OpId, token: Token, gate: Option<HealthGate>, now: int)
    | LoadStep(call: nat, id: OpId, token: Token, finish: Finish)
    | BatchStep(call: nat)
    | ReportStep(call: nat)
    | ScrubStep(sel: Selector)
    | HealthStep(provider: string, event: Breaker.Event)
    | OverrideStep(provider: string, off: bool)
    | WorldStep(world: World)

  function ApplyHealth(s: State, provider: string, event: Breaker.Event): State {
    var before := if provider in s.health then s.health[provider] else Breaker.FRESH;
    var after := Breaker.Step(Breaker.State(before, s.nextToken), event);
    s.(health := s.health[provider := after.health], nextToken := after.minted)
  }

  function ApplyBatch(s: State, call: nat): State
    requires call in s.calls && s.calls[call].Loaded?
  {
    var c := s.calls[call];
    var minted := s.nextToken + 1;
    if !Wins(s, c) then s.(calls := s.calls[call := Committed(c.id, c.to, s.nextToken)], nextToken := minted)
    else if Drifted(s, c) then s.(calls := s.calls[call := Poisoned(c.id)], nextToken := minted)
    else Commit(s, c).(calls := s.calls[call := Committed(c.id, c.to, s.nextToken)], nextToken := minted)
  }

  /** The final read that decides whether this caller reports `applied`. */
  predicate ReportsApplied(s: State, c: Call)
    requires c.Committed?
  {
    c.id in s.rows && s.rows[c.id].status == c.to && s.rows[c.id].settleToken == Some(c.token)
  }

  function Apply(cfg: Config, s: State, step: Step): State {
    match step
    case ReserveStep(req) => ReserveBatch(cfg, s, req).0
    case InvokeStep(id, token, gate, now) => Invoke(s, id, token, gate, now)
    case LoadStep(call, id, token, finish) =>
      if call in s.calls then s
      else if id in s.rows && s.rows[id].attemptToken == token
      then s.(calls := s.calls[call := Prepare(id, s.rows[id], finish)])
      else s.(calls := s.calls[call := Absent])
    case BatchStep(call) =>
      if call in s.calls && s.calls[call].Loaded? then ApplyBatch(s, call) else s
    case ReportStep(call) =>
      if call in s.calls && s.calls[call].Committed?
      then var c := s.calls[call];
           s.(calls := s.calls[call := Done(c.id, c.to, c.token, ReportsApplied(s, c))])
      else s
    case ScrubStep(sel) => Scrub(s, sel)
    case HealthStep(provider, event) => ApplyHealth(s, provider, event)
    case OverrideStep(provider, off) =>
      s.(disabled := if off then s.disabled + {provider} else s.disabled - {provider})
    case WorldStep(world) => if BarriersOnlyRise(s.world, world) then s.(world := world) else s
  }

  function Run(cfg: Config, s: State, steps: seq<Step>): State {
    if steps == [] then s
    else Apply(cfg, Run(cfg, s, steps[..|steps| - 1]), steps[|steps| - 1])
  }

  function Initial(w: World): State {
    State(map[], map[], map[], {}, w, map[], 0)
  }
}

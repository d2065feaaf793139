/** The D1-backed admission and settlement calls, statement by statement over the
    tables they update. Each is proved against the atomic steps of `Ledger`, whose
    run properties it therefore inherits. */
module ProviderStore {
  import opened Wrappers
  import opened RateCards
  import opened Ledger
  import opened LedgerMoney
  import opened LedgerPricing
  import opened LedgerFences
  import opened AdmissionRules
  import Breaker

  /** How `reserveSpend` answers: the row it won, the silent ceiling refusal, or a
      typed refusal. */
  datatype Reservation = Granted(row: Row) | CeilingRefused | Refused(reason: string)

  datatype Transition = Missing | LostRace | DriftPoison | Applied(units: nat, cost: nat)

  /** The default provider is not metered. */
  datatype Admission = Unmetered | Denied(reason: string) | Admitted(row: Row, probe: Option<Token>)

  const DEFAULT_ID := "workers-ai"
  const MAX_OPERATION_ID_LENGTH := 256

  predicate IsSpace(c: int) {
    c in {0x20, 0xa0, 0x1680, 0x2028, 0x2029, 0x202f, 0x205f, 0x3000, 0xfeff} || 0x9 <= c <= 0xd || 0x2000 <= c <= 0x200a
  }

  /** A caller's own operation id is taken as it is or not at all; a hash always is. */
  predicate StableId(id: OpId) {
    id.Explicit? ==>
      && 0 < |id.id| <= MAX_OPERATION_ID_LENGTH && !IsSpace(id.id[0] as int) && !IsSpace(id.id[|id.id| - 1] as int)
      && forall i :: 0 <= i < |id.id| ==> id.id[i] as int > 0x1f && id.id[i] as int != 0x7f
  }

  /** Why a call is turned away before anything is read or written. */
  function TurnedAway(env: Environment, req: Request): Option<string> {
    if env.killed then Some("kill")
    else if req.provider == GOOGLE && !env.credentials then Some("no_credentials")
    else if !StableId(req.id) then Some("missing_operation_id")
    else if req.model.GetOr("") == "" then Some("missing_concrete_model")
    else if req.provider == GOOGLE && !ExemptShape(req.lifecycle) && !TenantShape(req.lifecycle) then Some("lifecycle_context_missing")
    else None
  }

  lemma TurnsAwayExactly(env: Environment, req: Request)
    ensures TurnedAway(env, req) == DoorReason(env, req)
    ensures DoorReason(env, req).None? ==> req.model.GetOr("") != ""
  {
    if req.id.Explicit? {
      UsableExactly(req.id.id);
    }
    hide StableId, Usable;
  }

  lemma UsableExactly(id: string)
    ensures StableId(Explicit(id)) <==> Usable(id)
  {
    if id != "" && forall i :: 0 <= i < |id| ==> id[i] as int >= 0x20 {
      WhiteExactly(id[0]);
      WhiteExactly(id[|id| - 1]);
    }
    hide IsSpace, WHITE;
    if forall c :: c in id ==> c as int >= 0x20 && c as int != 0x7f {
      assert forall i :: 0 <= i < |id| ==> id[i] in id;
    }
    if forall i :: 0 <= i < |id| ==> id[i] as int > 0x1f && id[i] as int != 0x7f {
      assert forall c :: c in id ==> exists i :: 0 <= i < |id| && id[i] == c;
    }
  }

  lemma WhiteExactly(c: char)
    requires c as int >= 0x20
    ensures IsSpace(c as int) <==> c as int in WHITE
  {
  }

  function ExistingError(st: Status): string {
    match st
    case Reserved => "operation_in_progress"
    case Invoking => "operation_in_progress"
    case Settled => "operation_already_settled"
    case Released => "operation_released"
    case AmbiguousCharged => "operation_ambiguous"
  }

  predicate SameOperation(r: Row, expected: Row) {
    && r.provider == expected.provider && r.rate.model == expected.rate.model && r.capability == expected.capability
    && r.rate.unitClass == expected.rate.unitClass && r.base.units == expected.base.units
    && BaseCost(r.rate, r.base) == BaseCost(expected.rate, expected.base)
    && r.maxAttempts == expected.maxAttempts && r.lifecycle == expected.lifecycle
  }

  /** The answer read back after the batch. */
  function Answer(s: State, id: OpId, expected: Row): Reservation {
    if id !in s.rows then Refused("breaker_state_changed")
    else if !SameOperation(s.rows[id], expected) then Refused("operation_id_conflict")
    else if s.rows[id].attemptToken != expected.attemptToken || s.rows[id].status != Reserved
    then Refused(ExistingError(s.rows[id].status))
    else Granted(s.rows[id])
  }

  /** What `reserveSpend` returns. */
  function Reply(cfg: Config, s: State, req: Request): Reservation {
    match GoogleRateSnapshot(req.model, EstimateUnits(req.capability, req.inputs).unitClass)
    case Err(error) => Refused(if error == ModelRateUnpriced then "model_rate_unpriced" else "model_capability_mismatch")
    case Ok(rate) =>
      var (t, outcome) := ReserveBatch(cfg, s, req);
      if outcome == OverCeiling then CeilingRefused else Answer(t, req.id, RowFor(req, rate, s.nextToken))
  }

  /** What a transition does to the tables, given the row it read. */
  function TransitionStep(s: State, id: OpId, token: Token, finish: Finish): (State, Transition) {
    if id !in s.rows || s.rows[id].attemptToken != token then (s, Missing)
    else
      var c := Prepare(id, s.rows[id], finish);
      var minted := s.nextToken + 1;
      if !Wins(s, c) then (s.(nextToken := minted), LostRace)
      else if Drifted(s, c) then (s.(nextToken := minted), DriftPoison)
      else (Commit(s, c).(nextToken := minted), Applied(c.used, c.cost))
  }

  /** What the caller of the reserve is told, against the rules. */
  lemma AnswersExactly(cfg: Config, s: State, t: State, req: Request, rate: RateSnapshot)
    requires req.model.Some? && IsListPrice(rate, req) && Sold(rate.model, rate.unitClass)
    requires t.rows == s.rows && req.id in s.rows && s.rows[req.id].attemptToken < s.nextToken
    ensures var res := Answer(t, req.id, RowFor(req, rate, s.nextToken));
            res.Refused? && ReserveReason(cfg, s, req) == Some(res.reason)
  {
    DiffersExactly(s.rows[req.id], req, rate, s.nextToken);
    ModelOf(rate, req);
    hide Differs, BaseCost, IsListPrice, HasRoom, Sold;
    assert RowFor(req, rate, s.nextToken).attemptToken == s.nextToken;
  }

  /** What the caller is told, `None` standing for the row. */
  function Told(res: Reservation): Option<string> {
    match res
    case Granted(_) => None
    case CeilingRefused => Some("ceiling")
    case Refused(reason) => Some(reason)
  }

  lemma ReplyFollowsBatch(cfg: Config, s: State, req: Request)
    requires req.id in s.rows ==> s.rows[req.id].attemptToken < s.nextToken
    ensures match ReserveBatch(cfg, s, req).1
            case Won(row) => Reply(cfg, s, req) == Granted(row)
            case OverCeiling => Reply(cfg, s, req) == CeilingRefused
            case Unpriced => Reply(cfg, s, req).Refused?
            case Lost => Reply(cfg, s, req).Refused?
  {
    hide EstimateUnits, BaseCost, EstimateCost, GateHolds, AddReserved, Fits;
  }

  lemma ReplyExactly(cfg: Config, s: State, req: Request)
    requires req.model.GetOr("") != "" && GateHolds(s, req.provider, req.gate, req.now)
    requires req.id in s.rows ==> s.rows[req.id].attemptToken < s.nextToken
    ensures Told(Reply(cfg, s, req)) == ReserveReason(cfg, s, req)
  {
    var c := ClassFor(req.capability);
    ReservesExactly(cfg, s, req);
    SnapshotIsListed(req.model.value, c);
    ReserveOutcomes(cfg, s, req);
    assert EstimateUnits(req.capability, req.inputs).unitClass == c;
    var priced := GoogleRateSnapshot(req.model, c);
    hide EstimateUnits, GateHolds, HasRoom, Differs, GoogleRateSnapshot, ReserveBatch, Answer;
    if priced.Ok? {
      assert IsListPrice(priced.value, req);
      hide Listed;
      var (t, outcome) := ReserveBatch(cfg, s, req);
      if outcome == Lost { AnswersExactly(cfg, s, t, req, priced.value); }
    }
    hide RowFor;
  }

  /** The rules read nothing the gate wrote. */
  lemma SpendIgnoresGate(cfg: Config, s: State, gated: State, req: Request, gate: Option<HealthGate>)
    requires gated.rows == s.rows && gated.totals == s.totals && gated.world == s.world && req.model.Some?
    ensures SpendReason(cfg, gated, req.(gate := gate)) == SpendReason(cfg, s, req)
  {
    var other := req.(gate := gate);
    assert forall rate :: IsListPrice(rate, other) == IsListPrice(rate, req);
    assert forall rate, units: nat, price: nat :: OneAttempt(other, rate, units, price) == OneAttempt(req, rate, units, price);
    hide IsListPrice, OneAttempt;
    assert HasRoom(cfg, s.totals, other) == HasRoom(cfg, s.totals, req);
    assert req.id in s.rows ==> Differs(s.rows[req.id], other) == Differs(s.rows[req.id], req);
    hide HasRoom, Differs;
  }

  function ProbeOf(gate: Option<HealthGate>): Option<Token> {
    if gate.Some? && gate.value.ProbeGate? then Some(gate.value.token) else None
  }

  function ReasonOf(res: Admission): Option<string> {
    if res.Denied? then Some(res.reason) else None
  }

  lemma GateIgnoresRows(s: State, t: State, req: Request)
    requires t.health == s.health && t.disabled == s.disabled
    ensures GateHolds(t, req.provider, req.gate, req.now) == GateHolds(s, req.provider, req.gate, req.now)
  {
  }

  /** A row just won can be invoked exactly when no fence is in its way. */
  lemma WonInvokesExactly(s: State, row: Row, req: Request)
    requires req.id in s.rows && s.rows[req.id] == row && row.status == Reserved && row.expiresAt >= req.now
    requires row.provider == req.provider && row.lifecycle == req.lifecycle && GateHolds(s, req.provider, req.gate, req.now)
    ensures CanInvoke(s, req.id, row.attemptToken, req.gate, req.now) <==> FenceReason(s.world, req).None?
    ensures FenceReason(s.world, req).Some? ==>
              FenceReason(s.world, req).value == if req.provider == GOOGLE && !row.lifecycle.exempt then "lifecycle_fenced" else "breaker_state_changed"
  {
    AdmitsExactly(s.world, req.provider, req.lifecycle);
    hide LifecycleAdmits, GateHolds, NoFence, HealthCheck;
  }

  lemma InvokeRefused(s: State, id: OpId, token: Token, gate: Option<HealthGate>, now: int)
    requires !CanInvoke(s, id, token, gate, now)
    ensures Invoke(s, id, token, gate, now) == s
  {
  }

  lemma InvokeMeans(s: State, id: OpId, token: Token, gate: Option<HealthGate>, now: int)
    requires CanInvoke(s, id, token, gate, now)
    ensures id in s.rows && s.rows[id].status == Reserved && LifecycleAdmits(s.world, s.rows[id].provider, s.rows[id].lifecycle)
    ensures Invoke(s, id, token, gate, now)
            == s.(rows := s.rows[id := s.rows[id].(status := Invoking, expiresAt := now + RESERVATION_TTL_MS)])
  {
    hide LifecycleAdmits, GateHolds;
  }

  /** Repeating a terminal callback - with any verdict - after one has applied loses
      the race and leaves rows and money alone. */
  lemma SecondFinishIsInert(s: State, id: OpId, token: Token, first: Finish, second: Finish)
    requires TransitionStep(s, id, token, first).1.Applied?
    ensures var t := TransitionStep(s, id, token, first).0;
            var (u, res) := TransitionStep(t, id, token, second);
            res == LostRace && u == t.(nextToken := u.nextToken)
  {
  }

  /** A transition keeps the ledger sound and never meets drift; a release of a row
      it wins gives back exactly what the reserve took. */
  lemma TransitionKeepsSound(cfg: Config, s: State, id: OpId, token: Token, finish: Finish)
    requires Sound(cfg, s) && s.calls == map[]
    ensures var (t, res) := TransitionStep(s, id, token, finish);
            Sound(cfg, t) && res != DriftPoison && t.calls == map[]
  {
    if id in s.rows && s.rows[id].attemptToken == token {
      var c := Prepare(id, s.rows[id], finish);
      var loaded := s.(calls := map[0 := c]);
      assert CallSound(loaded.rows, c);
      assert Sound(cfg, loaded);
      if Wins(s, c) {
        WinnerIsFunded(loaded, c);
        SoundBatch(cfg, loaded, 0);
        AfterBatch(cfg, ApplyBatch(loaded, 0));
        hide Sound, Conserved, WithinOvershoot, MoveMoney, Prepare;
        assert TransitionStep(s, id, token, finish).0 == ApplyBatch(loaded, 0).(calls := map[]);
      } else {
        hide Conserved, WithinOvershoot, Prepare;
      }
    }
  }

  lemma AfterBatch(cfg: Config, s: State)
    requires Sound(cfg, s)
    ensures Sound(cfg, s.(calls := map[]))
  {
  }

  /** The health, override and world columns play no part in soundness. */
  lemma SoundIgnoresHealth(cfg: Config, s: State, t: State)
    requires Sound(cfg, s) && t.rows == s.rows && t.totals == s.totals && t.calls == s.calls
    ensures Sound(cfg, t)
  {
  }

  /** The reserve batch, outcome by outcome, as its caller can observe it. */
  lemma ReserveOutcomes(cfg: Config, s: State, req: Request)
    ensures var (t, outcome) := ReserveBatch(cfg, s, req);
            && t.health == s.health && t.world == s.world && t.disabled == s.disabled && t.calls == s.calls && t.nextToken >= s.nextToken
            && match outcome
               case Won(row) =>
                 && req.id !in s.rows && t.rows == s.rows[req.id := row]
                 && row.status == Reserved && row.attemptToken == s.nextToken && row.provider == req.provider && row.lifecycle == req.lifecycle
                 && row.expiresAt == req.now + RESERVATION_TTL_MS
                 && t.totals == AddReserved(AddReserved(s.totals, DayOf(row), row.estimatedUnits), MonthOf(row), row.estimatedCost)
               case _ => t.rows == s.rows && NothingHeld(s, t, req.id)
  {
    hide EstimateUnits, BaseCost, EstimateCost, GateHolds, Fits, GoogleRateSnapshot, NothingHeld;
    match GoogleRateSnapshot(req.model, EstimateUnits(req.capability, req.inputs).unitClass)
    case Err(_) => HeldNothing(s, s, req.id);
    case Ok(rate) =>
      var (t, outcome) := ReserveBatch(cfg, s, req);
      if !outcome.Won? { HeldNothing(s, t, req.id); }
  }

  /** Reserve then release: every bucket is back where it was. */
  lemma ReleaseRestores(cfg: Config, before: State, reserved: State, req: Request, row: Row)
    requires Sound(cfg, reserved) && reserved.calls == map[]
    requires reserved.rows == before.rows[req.id := row] && row.status == Reserved && req.id !in before.rows
    requires reserved.totals == AddReserved(AddReserved(before.totals, DayOf(row), row.estimatedUnits), MonthOf(row), row.estimatedCost)
    ensures var (t, res) := TransitionStep(reserved, req.id, row.attemptToken, Release);
            && res == Applied(0, 0)
            && t.rows.Keys == reserved.rows.Keys && t.rows[req.id].status == Released
            && NothingHeld(before, t, req.id)
  {
    hide Sound, SameOperation;
    TransitionKeepsSound(cfg, reserved, req.id, row.attemptToken, Release);
    var t := TransitionStep(reserved, req.id, row.attemptToken, Release).0;
    assert reserved.rows[req.id] == row;
    assert t.totals == MoveMoney(MoveMoney(reserved.totals, DayOf(row), row.estimatedUnits, 0), MonthOf(row), row.estimatedCost, 0);
  }

  /** Between `s` and `t` a denied call left no spend behind: no existing row changed,
      the only new row may be its own released one, and no bucket moved. */
  ghost predicate NothingHeld(s: State, t: State, id: OpId) {
    && (forall i :: i in s.rows ==> i in t.rows && t.rows[i] == s.rows[i])
    && (forall i :: i in t.rows && i !in s.rows ==> i == id && t.rows[i].status == Released)
    && (forall k :: BucketOf(t.totals, k) == BucketOf(s.totals, k))
  }

  lemma HeldNothing(s: State, t: State, id: OpId)
    requires t.rows == s.rows && forall k :: BucketOf(t.totals, k) == BucketOf(s.totals, k)
    ensures NothingHeld(s, t, id)
  {
  }

  lemma HeldIgnoresHealth(s: State, t: State, u: State, id: OpId)
    requires s == t || NothingHeld(s, t, id)
    requires u.rows == t.rows && u.totals == t.totals
    ensures NothingHeld(s, u, id)
  {
  }

  lemma HeldIgnoresStart(s: State, s': State, t: State, id: OpId)
    requires NothingHeld(s', t, id) && s'.rows == s.rows && s'.totals == s.totals
    ensures NothingHeld(s, t, id)
  {
  }

  /** How `finishProviderCall` classifies what came back from the provider. */
  datatype CallOutcome = CallOutcome(ok: bool, billing: bool, usageKnown: bool, ambiguousOutcome: bool, definitelyNotCharged: bool, usage: Usage)

  function ChooseFinish(o: CallOutcome): Finish {
    if o.ok && o.usageKnown && !o.ambiguousOutcome then Settle(o.usage)
    else if !o.ok && o.definitelyNotCharged then Release
    else MarkAmbiguous
  }

  /** The verdict of each outcome, on its fields. */
  lemma FinishEnds(s: State, id: OpId, token: Token, o: CallOutcome)
    ensures var (t, res) := TransitionStep(s, id, token, ChooseFinish(o));
            res.Applied? ==>
              && id in s.rows && id in t.rows
              && (t.rows[id].status == Settled <==> o.ok && o.usageKnown && !o.ambiguousOutcome)
              && (t.rows[id].status == Released <==> !o.ok && o.definitelyNotCharged)
              && (t.rows[id].status != Settled && t.rows[id].status != Released ==>
                    t.rows[id].status == AmbiguousCharged && res == Applied(s.rows[id].estimatedUnits, s.rows[id].estimatedCost))
  {
    hide FinalUnits, FinalCost, MoveMoney, Drifted;
  }

  /** A terminal verdict the accounting call has to have reached to be recorded:
      losers of the race stay silent, and a failing accounting plane does not. */
  predicate CountsForBreaker(res: Transition) {
    res != Missing && res != LostRace
  }

  function HealthOf(health: map<string, Breaker.Health>, provider: string): Breaker.Health {
    if provider in health then health[provider] else Breaker.FRESH
  }

  /** A never-invoked row ends released and free; an invoked one is charged in full. */
  predicate Reaped(before: Row, after: Row) {
    if before.status == Reserved
    then after == before.(status := Released, settleToken := after.settleToken, actualUnits := 0, actualCost := 0)
    else after == before.(status := AmbiguousCharged, settleToken := after.settleToken,
                          actualUnits := before.estimatedUnits, actualCost := before.estimatedCost)
  }

  lemma ReapStep(s: State, id: OpId, finish: Finish)
    requires id in s.rows && Active(s.rows[id])
    requires finish == if s.rows[id].status == Reserved then Release else MarkAmbiguous
    requires TransitionStep(s, id, s.rows[id].attemptToken, finish).1 != DriftPoison
    ensures var (t, res) := TransitionStep(s, id, s.rows[id].attemptToken, finish);
            res.Applied? && t.rows.Keys == s.rows.Keys && Reaped(s.rows[id], t.rows[id])
            && forall j :: j in s.rows && j != id ==> t.rows[j] == s.rows[j]
  {
  }

  predicate Expired(r: Row, now: int) {
    Active(r) && r.expiresAt < now
  }

  predicate Overdue(r: Row, now: int) {
    r.status in {Reserved, Invoking} && now > r.expiresAt
  }

  /** The reaper's SELECT: expired active rows, earliest expiry first, at most `limit`,
      and none left out that expired before one that is in. */
  ghost predicate IsListing(rows: map<OpId, Row>, now: int, limit: nat, ids: seq<OpId>) {
    && (forall i :: 0 <= i < |ids| ==> ids[i] in rows && Overdue(rows[ids[i]], now))
    && (forall i, j :: 0 <= i < j < |ids| ==> ids[i] != ids[j] && rows[ids[i]].expiresAt <= rows[ids[j]].expiresAt)
    && |ids| <= limit
    && (forall id :: id in rows && Overdue(rows[id], now) && id !in ids ==>
          |ids| == limit && forall i :: 0 <= i < |ids| ==> rows[ids[i]].expiresAt <= rows[id].expiresAt)
  }

  method ListExpired(rows: map<OpId, Row>, now: int, limit: nat) returns (ids: seq<OpId>)
    ensures IsListing(rows, now, limit, ids)
  {
    var due := set id | id in rows && Expired(rows[id], now);
    ids := [];
    while |ids| < limit && due != {}
      invariant |ids| <= limit
      invariant forall id :: id in due ==> id in rows && Expired(rows[id], now) && id !in ids
      invariant forall id :: id in rows && Expired(rows[id], now) ==> id in due || id in ids
      invariant forall i :: 0 <= i < |ids| ==> ids[i] in rows && Expired(rows[ids[i]], now)
      invariant forall i, j :: 0 <= i < j < |ids| ==> ids[i] != ids[j] && rows[ids[i]].expiresAt <= rows[ids[j]].expiresAt
      invariant forall i, d :: 0 <= i < |ids| && d in due ==> rows[ids[i]].expiresAt <= rows[d].expiresAt
      decreases due
    {
      EarliestExists(rows, due);
      var id :| id in due && forall d :: d in due ==> rows[id].expiresAt <= rows[d].expiresAt;
      ids, due := ids + [id], due - {id};
    }
  }

  /** Exactly the listed rows were closed, each on the evidence of its listing. */
  ghost predicate ReapedAll(before: map<OpId, Row>, after: map<OpId, Row>, ids: seq<OpId>) {
    && after.Keys == before.Keys
    && forall id :: id in before ==> if id in ids then Reaped(before[id], after[id]) else after[id] == before[id]
  }

  lemma ReapedNext(before: map<OpId, Row>, middle: map<OpId, Row>, after: map<OpId, Row>, ids: seq<OpId>, i: nat)
    requires i < |ids| && ids[i] !in ids[..i] && ids[i] in before
    requires ReapedAll(before, middle, ids[..i])
    requires after.Keys == middle.Keys && Reaped(middle[ids[i]], after[ids[i]])
    requires forall j :: j in after && j != ids[i] ==> after[j] == middle[j]
    ensures ReapedAll(before, after, ids[..i + 1])
  {
    assert ids[..i + 1] == ids[..i] + [ids[i]];
  }

  lemma {:induction false} EarliestExists(rows: map<OpId, Row>, ids: set<OpId>)
    requires ids != {} && ids <= rows.Keys
    ensures exists id :: id in ids && forall d :: d in ids ==> rows[id].expiresAt <= rows[d].expiresAt
    decreases ids
  {
    var id :| id in ids;
    if ids != {id} {
      EarliestExists(rows, ids - {id});
      var e :| e in ids - {id} && forall d :: d in ids - {id} ==> rows[e].expiresAt <= rows[d].expiresAt;
      var best := if rows[id].expiresAt <= rows[e].expiresAt then id else e;
      assert best in ids && forall d :: d in ids ==> rows[best].expiresAt <= rows[d].expiresAt;
    }
  }

  class Store {
    const cfg: Config
    var rows: map<OpId, Row>
    var totals: map<BucketKey, Bucket>
    var health: map<string, Breaker.Health>
    var disabled: set<string>
    var world: World
    var minted: Token

    constructor (cfg: Config, world: World)
      ensures this.cfg == cfg && View() == Initial(world)
    {
      this.cfg := cfg;
      rows, totals, health, disabled, minted := map[], map[], map[], {}, 0;
      this.world := world;
    }

    ghost function View(): State
      reads this
    {
      State(rows, totals, health, disabled, world, map[], minted)
    }

    /** Tokens are random: none in a table is one yet to be minted. */
    ghost predicate Valid()
      reads this
    {
      && (forall id :: id in rows ==> rows[id].attemptToken < minted)
      && (forall p :: p in health && health[p].probeToken.Some? ==> health[p].probeToken.value < minted)
    }

    /** The reserve statements, with the rollback a fence guard row causes. */
    method InsertReservation(req: Request, row: Row) returns (over: bool)
      requires Valid() && row.attemptToken == minted
      modifies `rows, `totals, `minted
      ensures Valid()
      ensures View() == InsertAndHold(cfg, old(View()), req, row).0
      ensures over <==> InsertAndHold(cfg, old(View()), req, row).1 == OverCeiling
    {
      var savedRows, savedTotals := rows, totals;
      minted := minted + 1;
      if req.id !in rows && GateHolds(State(rows, totals, health, disabled, world, map[], minted), req.provider, req.gate, req.now) {
        rows := rows[req.id := row];
      }
      var won := req.id in rows && rows[req.id].attemptToken == row.attemptToken;
      totals := AddReserved(totals, DayOf(row), if won then row.estimatedUnits else 0);
      totals := AddReserved(totals, MonthOf(row), if won then row.estimatedCost else 0);
      over := won && !(Fits(cfg, totals, DayOf(row)) && Fits(cfg, totals, MonthOf(row)));
      if over {
        rows, totals := savedRows, savedTotals;
      }
    }

    /** Reserve the worst-case spend of one logical operation: only the caller whose
        insert won is granted the row. */
    method ReserveSpend(req: Request) returns (res: Reservation)
      requires Valid()
      modifies `rows, `totals, `minted
      ensures Valid()
      ensures View() == ReserveBatch(cfg, old(View()), req).0
      ensures res == Reply(cfg, old(View()), req)
      ensures match ReserveBatch(cfg, old(View()), req).1
              case Won(row) => res == Granted(row)
              case OverCeiling => res == CeilingRefused
              case Unpriced => res.Refused?
              case Lost => res.Refused?
      ensures req.model.GetOr("") != "" && GateHolds(old(View()), req.provider, req.gate, req.now) ==>
                Told(res) == ReserveReason(cfg, old(View()), req)
    {
      if req.model.GetOr("") != "" && GateHolds(View(), req.provider, req.gate, req.now) {
        ReplyExactly(cfg, View(), req);
      }
      ReplyFollowsBatch(cfg, View(), req);
      hide EstimateUnits, BaseCost, EstimateCost, GateHolds, AddReserved, Fits, ReserveReason;
      var priced := GoogleRateSnapshot(req.model, EstimateUnits(req.capability, req.inputs).unitClass);
      if priced.Err? {
        return Refused(if priced.error == ModelRateUnpriced then "model_rate_unpriced" else "model_capability_mismatch");
      }
      var row := RowFor(req, priced.value, minted);
      var over := InsertReservation(req, row);
      res := if over then CeilingRefused
             else Answer(State(rows, totals, health, disabled, world, map[], minted), req.id, row);
    }

    /** The reserved -> invoking CAS. */
    method MarkInvoking(id: OpId, token: Token, gate: Option<HealthGate>, now: int) returns (applied: bool)
      requires Valid()
      modifies `rows
      ensures Valid()
      ensures View() == Invoke(old(View()), id, token, gate, now)
      ensures applied <==> CanInvoke(old(View()), id, token, gate, now)
    {
      applied := CanInvoke(State(rows, totals, health, disabled, world, map[], minted), id, token, gate, now);
      if applied {
        rows := rows[id := rows[id].(status := Invoking, expiresAt := now + RESERVATION_TTL_MS)];
      }
    }

    /** One terminal transition: read the owned row, CAS it closed, move its money, or
        roll all of it back on drift. */
    method TransitionReservation(id: OpId, token: Token, finish: Finish) returns (res: Transition)
      requires Valid()
      modifies `rows, `totals, `minted
      ensures Valid() && minted >= old(minted)
      ensures (View(), res) == TransitionStep(old(View()), id, token, finish)
    {
      if id !in rows || rows[id].attemptToken != token {
        return Missing;
      }
      var stored := rows[id];
      var call := Prepare(id, stored, finish);
      var settleToken := minted;
      var savedRows := rows;
      minted := minted + 1;
      if rows[id].status !in call.froms {
        return LostRace;
      }
      rows := rows[id := rows[id].(status := call.to, settleToken := Some(settleToken), actualUnits := call.used, actualCost := call.cost)];
      if DayOf(stored) !in totals || totals[DayOf(stored)].reserved < stored.estimatedUnits
         || MonthOf(stored) !in totals || totals[MonthOf(stored)].reserved < stored.estimatedCost {
        rows := savedRows;
        return DriftPoison;
      }
      totals := MoveMoney(totals, DayOf(stored), stored.estimatedUnits, call.used);
      totals := MoveMoney(totals, MonthOf(stored), stored.estimatedCost, call.cost);
      res := Applied(call.used, call.cost);
    }

    /** `ensureHealthRow`, then the gate: read the row, decide, and if a probe is due
        race for it with the half-open CAS. */
    method AcquireBreakerGate(provider: string, now: int) returns (decision: Breaker.GateDecision, gate: Option<HealthGate>)
      requires Valid()
      modifies `health, `minted
      ensures Valid() && minted >= old(minted)
      ensures var before := HealthOf(old(health), provider);
              && decision == Breaker.Decide(before, provider in disabled, now)
              && (decision == Breaker.Pass ==> gate == Some(ClosedGate) && health == old(health)[provider := before])
              && (decision.Refused? ==> gate == None && health == old(health)[provider := before])
              && (decision == Breaker.TryProbe ==>
                    && gate == Some(ProbeGate(old(minted)))
                    && health == old(health)[provider := Breaker.AcquireProbe(before, old(minted), now)]
                    && health[provider].probeToken == Some(old(minted)))
      ensures (if decision.Refused? then Some(decision.reason) else None) == HealthReason(old(health), disabled, provider, now)
      ensures !decision.Refused? ==>
                && GateHolds(View(), provider, gate, now) && gate.Some?
                && (gate.value.ProbeGate? <==> provider in old(health) && old(health)[provider].state != Breaker.Closed)
    {
      DecidesExactly(health, disabled, provider, now);
      if provider !in health {
        health := health[provider := Breaker.FRESH];
      }
      decision := Breaker.Decide(health[provider], provider in disabled, now);
      gate := None;
      match decision {
        case Pass => gate := Some(ClosedGate);
        case Refused(_) =>
        case TryProbe =>
          health := health[provider := Breaker.AcquireProbe(health[provider], minted, now)];
          gate := Some(ProbeGate(minted));
          minted := minted + 1;
      }
    }

    method AbandonProbe(provider: string, gate: Option<HealthGate>, now: int)
      requires Valid()
      modifies `health
      ensures Valid()
      ensures provider in old(health) && gate.Some? && gate.value.ProbeGate?
              ==> health == old(health)[provider := Breaker.Abandon(old(health)[provider], gate.value.token, now)]
      ensures !(provider in old(health) && gate.Some? && gate.value.ProbeGate?) ==> health == old(health)
    {
      if provider in health && gate.Some? && gate.value.ProbeGate? {
        health := health[provider := Breaker.Abandon(health[provider], gate.value.token, now)];
      }
    }

    /** Reserve, then claim the invocation; a claim that fails releases its row. With the
        health clause holding, the answer is exactly what the rules say. */
    method ReserveAndInvoke(req: Request) returns (res: Admission)
      requires Valid() && Sound(cfg, View())
      modifies `rows, `totals, `minted
      ensures Valid() && Sound(cfg, View()) && minted >= old(minted) && !res.Unmetered?
      ensures res.Admitted? ==>
                && req.id !in old(rows) && req.id in rows
                && rows == old(rows)[req.id := rows[req.id]]
                && rows[req.id].status == Invoking && rows[req.id].attemptToken == res.row.attemptToken >= old(minted)
                && LifecycleAdmits(world, req.provider, req.lifecycle) && res.probe == ProbeOf(req.gate)
      ensures res.Denied? ==> NothingHeld(old(View()), View(), req.id)
      ensures req.model.GetOr("") != "" && GateHolds(old(View()), req.provider, req.gate, req.now) ==>
                ReasonOf(res) == SpendReason(cfg, old(View()), req)
    {
      hide Sound, NothingHeld, Reply, ReserveBatch, ReserveReason, FenceReason, TransitionStep, Invoke, CanInvoke, LifecycleAdmits,
           GateHolds, AddReserved, MoveMoney;
      ghost var s1 := View();
      SoundReserve(cfg, s1, req);
      ReserveOutcomes(cfg, s1, req);
      var reservation := ReserveSpend(req);
      if !reservation.Granted? {
        return Denied(if reservation.Refused? then reservation.reason else "ceiling");
      }
      var row := reservation.row;
      GateIgnoresRows(s1, View(), req);
      if GateHolds(s1, req.provider, req.gate, req.now) { WonInvokesExactly(View(), row, req); }
      ghost var s2 := View();
      res := InvokeOrRelease(req, row);
      if res.Denied? {
        ReleaseRestores(cfg, s1, s2, req, row);
        HeldIgnoresHealth(s1, TransitionStep(s2, req.id, row.attemptToken, Release).0, View(), req.id);
      }
    }

    /** Claim the invocation of a row just reserved, or give it back. */
    method InvokeOrRelease(req: Request, row: Row) returns (res: Admission)
      requires Valid() && Sound(cfg, View())
      requires req.id in rows && rows[req.id] == row && row.status == Reserved
      modifies `rows, `totals, `minted
      ensures Valid() && Sound(cfg, View()) && minted >= old(minted)
      ensures var t := TransitionStep(old(View()), req.id, row.attemptToken, Release).0;
              if CanInvoke(old(View()), req.id, row.attemptToken, req.gate, req.now)
              then res == Admitted(row, ProbeOf(req.gate)) && totals == old(totals)
                   && rows == old(rows)[req.id := row.(status := Invoking, expiresAt := req.now + RESERVATION_TTL_MS)]
                   && LifecycleAdmits(world, row.provider, row.lifecycle)
              else res == Denied(if req.provider == GOOGLE && !row.lifecycle.exempt then "lifecycle_fenced" else "breaker_state_changed")
                   && rows == t.rows && totals == t.totals
    {
      hide Sound, TransitionStep, Invoke, CanInvoke, LifecycleAdmits;
      ghost var s2 := View();
      var applied := MarkInvoking(req.id, row.attemptToken, req.gate, req.now);
      if applied {
        InvokeMeans(s2, req.id, row.attemptToken, req.gate, req.now);
        SoundInvoke(cfg, s2, req.id, req.now + RESERVATION_TTL_MS);
        return Admitted(row, ProbeOf(req.gate));
      }
      InvokeRefused(s2, req.id, row.attemptToken, req.gate, req.now);
      TransitionKeepsSound(cfg, s2, req.id, row.attemptToken, Release);
      var _ := TransitionReservation(req.id, row.attemptToken, Release);
      return Denied(if req.provider == GOOGLE && !row.lifecycle.exempt then "lifecycle_fenced" else "breaker_state_changed");
    }

    /** The whole admission of one call. Admitted: the row is invoking and this call
        owns it. Denied: nothing it reserved is still held, and no probe it took. A call
        turned away at the door, or for the default provider, leaves the store alone. */
    method ProviderAdmission(env: Environment, req: Request) returns (res: Admission)
      requires Valid() && Sound(cfg, View())
      modifies `rows, `totals, `health, `minted
      ensures Valid() && Sound(cfg, View())
      ensures res.Unmetered? <==> req.provider == "workers-ai"
      ensures !res.Unmetered? ==> ReasonOf(res) == AdmissionReason(cfg, env, old(View()), req)
      ensures res.Unmetered? || DoorReason(env, req).Some? ==> View() == old(View())
      ensures res.Admitted? ==>
                && req.id !in old(rows) && req.id in rows
                && rows == old(rows)[req.id := rows[req.id]]
                && rows[req.id].status == Invoking && rows[req.id].attemptToken == res.row.attemptToken >= old(minted)
                && LifecycleAdmits(world, req.provider, req.lifecycle)
                && (res.probe.Some? <==> req.provider in old(health) && old(health)[req.provider].state != Breaker.Closed)
                && (res.probe.Some? ==> req.provider in health && health[req.provider].probeToken == res.probe)
      ensures res.Denied? ==>
                && NothingHeld(old(View()), View(), req.id)
                && (forall p :: p in health && health[p].probeToken.Some? ==> health[p].probeToken.value < old(minted))
    {
      hide Sound, NothingHeld, TurnedAway, DoorReason, HealthReason, SpendReason, LifecycleAdmits, GateHolds, Breaker.Decide,
           Breaker.AcquireProbe;
      ghost var s0 := View();
      if req.provider == DEFAULT_ID {
        return Unmetered;
      }
      TurnsAwayExactly(env, req);
      var refusal := TurnedAway(env, req);
      if refusal.Some? {
        HeldNothing(s0, s0, req.id);
        return Denied(refusal.value);
      }
      var decision, gate := AcquireBreakerGate(req.provider, req.now);
      SoundIgnoresHealth(cfg, s0, View());
      if decision.Refused? {
        HeldIgnoresHealth(s0, s0, View(), req.id);
        return Denied(decision.reason);
      }
      ghost var gated := View();
      SpendIgnoresGate(cfg, s0, gated, req, gate);
      res := ReserveAndInvoke(req.(gate := gate));
      if res.Denied? {
        ghost var denied := View();
        AbandonProbe(req.provider, gate, req.now);
        SoundIgnoresHealth(cfg, denied, View());
        HeldIgnoresHealth(gated, denied, View(), req.id);
        HeldIgnoresStart(s0, gated, View(), req.id);
      }
    }

    /** Account for a call that returned or threw: one terminal transition, then the
        breaker hears of it - unless another caller had already closed the row. A success
        with known usage is settled, a failure known not to be charged is released, and
        everything else - a success without usage above all - is charged in full. */
    method FinishProviderCall(provider: string, reservation: Option<(OpId, Token)>, outcome: CallOutcome, probe: Option<Token>, now: int)
      returns (res: Option<Transition>)
      requires Valid()
      modifies `rows, `totals, `health, `minted
      ensures Valid()
      ensures res.Some? <==> reservation.Some? && provider != "workers-ai"
      ensures res.Some? ==>
                var (t, r) := TransitionStep(old(View()), reservation.value.0, reservation.value.1, ChooseFinish(outcome));
                res == Some(r) && rows == t.rows && totals == t.totals
      ensures res.Some? && res.value.Applied? ==>
                var id := reservation.value.0;
                && id in old(rows) && id in rows
                && (rows[id].status == Settled <==> outcome.ok && outcome.usageKnown && !outcome.ambiguousOutcome)
                && (rows[id].status == Released <==> !outcome.ok && outcome.definitelyNotCharged)
                && (rows[id].status != Settled && rows[id].status != Released ==>
                      && rows[id].status == AmbiguousCharged
                      && res.value == Applied(old(rows)[id].estimatedUnits, old(rows)[id].estimatedCost))
      ensures res.None? ==> rows == old(rows) && totals == old(totals)
      ensures health == if provider == "workers-ai" || (res.Some? && res.value in {Missing, LostRace}) then old(health)
                        else old(health)[provider := Breaker.Outcome(HealthOf(old(health), provider), outcome.ok, outcome.billing, now, probe)]
    {
      if provider == DEFAULT_ID {
        return None;
      }
      res := None;
      if reservation.Some? {
        FinishEnds(View(), reservation.value.0, reservation.value.1, outcome);
        hide TransitionStep, ChooseFinish;
        var transition := TransitionReservation(reservation.value.0, reservation.value.1, ChooseFinish(outcome));
        res := Some(transition);
      }
      if res.None? || CountsForBreaker(res.value) {
        health := health[provider := Breaker.Outcome(HealthOf(health, provider), outcome.ok, outcome.billing, now, probe)];
      }
    }

    /** Close one listed row on the evidence of its listing. */
    method ReapOne(id: OpId, listed: Row) returns (reaped: bool)
      requires Valid() && Sound(cfg, View())
      requires id in rows && rows[id] == listed && Active(listed)
      modifies `rows, `totals, `minted
      ensures Valid() && Sound(cfg, View())
      ensures reaped && rows.Keys == old(rows).Keys && Reaped(listed, rows[id])
      ensures forall j :: j in rows && j != id ==> rows[j] == old(rows)[j]
    {
      hide Sound, TransitionStep;
      var finish := if listed.status == Reserved then Release else MarkAmbiguous;
      ghost var before := View();
      TransitionKeepsSound(cfg, before, id, listed.attemptToken, finish);
      ReapStep(before, id, finish);
      var transition := TransitionReservation(id, listed.attemptToken, finish);
      reaped := transition.Applied?;
    }

    /** Close up to `limit` expired rows, the longest expired first: a row listed as
        reserved is released, one listed as invoking is charged in full. */
    method ReapExpired(limit: int, now: int) returns (reaped: nat, ids: seq<OpId>)
      requires Valid() && Sound(cfg, View())
      modifies `rows, `totals, `minted
      ensures Valid() && Sound(cfg, View())
      ensures IsListing(old(rows), now, Min(250, Max(1, limit)), ids) && reaped == |ids|
      ensures ReapedAll(old(rows), rows, ids)
    {
      hide Sound;
      ids := ListExpired(rows, now, Min(250, Max(1, limit)));
      ghost var listing := rows;
      reaped := 0;
      for i := 0 to |ids|
        invariant Valid() && Sound(cfg, View())
        invariant reaped == i
        invariant ReapedAll(listing, rows, ids[..i])
      {
        assert ids[i] !in ids[..i];
        ghost var before := rows;
        var ok := ReapOne(ids[i], rows[ids[i]]);
        if ok { reaped := reaped + 1; }
        ReapedNext(listing, before, rows, ids, i);
      }
      assert ids[..|ids|] == ids;
    }
  }
}

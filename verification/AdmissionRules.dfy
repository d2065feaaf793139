/** When a provider call is admitted, and why it is not, read off the tables as they stand
    before the call: the reference `ProviderStore` is proved against. */
module AdmissionRules {
  import opened Wrappers
  import opened RateCards
  import opened Ledger
  import opened LedgerMoney
  import opened LedgerPricing
  import opened LedgerFences
  import Breaker

  /** The switches of the deployment: everything off, and credentials for Vertex. */
  datatype Environment = Environment(killed: bool, credentials: bool)

  const WHITE: set<int> := {
    0x20, 0xa0, 0x1680, 0x2000, 0x2001, 0x2002, 0x2003, 0x2004, 0x2005, 0x2006, 0x2007, 0x2008, 0x2009, 0x200a,
    0x2028, 0x2029, 0x202f, 0x205f, 0x3000, 0xfeff}

  /** A usable id is not empty, at most 256 long, without control characters and without
      white space at either end. */
  predicate Usable(id: string) {
    && id != "" && |id| <= 256
    && (forall c :: c in id ==> c as int >= 0x20 && c as int != 0x7f)
    && id[0] as int !in WHITE && id[|id| - 1] as int !in WHITE
  }

  /** Asked of the call alone. */
  function DoorReason(env: Environment, req: Request): Option<string> {
    if env.killed then Some("kill")
    else if req.provider == "google-vertex" && !env.credentials then Some("no_credentials")
    else if req.id.Explicit? && !Usable(req.id.id) then Some("missing_operation_id")
    else if req.model in {None, Some("")} then Some("missing_concrete_model")
    else if req.provider == "google-vertex" && !HealthCheck(req.lifecycle) && !Identified(req.lifecycle)
    then Some("lifecycle_context_missing")
    else None
  }

  function TimeOf(t: Option<int>): int {
    match t
    case Some(at) => at
    case None => 0
  }

  /** Asked of the provider's health: a provider never seen, or one whose breaker is closed,
      is open to calls; a breaker whose time is up is open to one probe. */
  function HealthReason(health: map<string, Breaker.Health>, disabled: set<string>, provider: string, now: int): Option<string> {
    if provider in disabled then Some("disabled")
    else if provider !in health then None
    else
      var h := health[provider];
      if h.state == Breaker.Open && TimeOf(h.cooldownUntil) > now then Some("breaker_open")
      else if h.state == Breaker.HalfOpen && TimeOf(h.probeLeaseUntil) > now then Some("breaker_probe_in_flight")
      else None
  }

  /** The row that holds the id was reserved for another operation. */
  ghost predicate Differs(r: Row, req: Request) {
    !(&& r.provider == req.provider && r.capability == req.capability && r.lifecycle == req.lifecycle
      && Some(r.rate.model) == req.model && r.rate.unitClass == ClassFor(req.capability)
      && r.maxAttempts == Attempts(req.maxAttempts)
      && exists rate :: IsListPrice(rate, req) && OneAttempt(req, rate, r.base.units, BaseCost(r.rate, r.base)))
  }

  /** The rates a request is priced on today. */
  predicate IsListPrice(rate: RateSnapshot, req: Request) {
    && Some(rate.model) == req.model && rate.unitClass == ClassFor(req.capability)
    && Listed(rate.model, rate.unitClass, rate.inputPerMillion, rate.outputPerMillion, rate.rankPer100)
  }

  /** The day's bucket of its class and the month's bucket both have room for every attempt. */
  ghost predicate HasRoom(cfg: Config, totals: map<BucketKey, Bucket>, req: Request) {
    exists rate, units: nat, price: nat ::
      && IsListPrice(rate, req) && OneAttempt(req, rate, units, price)
      && Drawn(totals, DayKey(req.day, req.provider, ClassFor(req.capability))) + units * Attempts(req.maxAttempts)
         <= (match ClassFor(req.capability) case GenTokens => cfg.genTokens case EmbedTokens => cfg.embedTokens case RankUnits => cfg.rankUnits)
      && Drawn(totals, MonthKey(req.month, req.provider)) + price * Attempts(req.maxAttempts) <= cfg.monthlyCost
  }

  function Drawn(totals: map<BucketKey, Bucket>, k: BucketKey): int {
    if k in totals then totals[k].used + totals[k].reserved else 0
  }

  function TakenReason(st: Status): string {
    match st
    case Settled => "operation_already_settled"
    case Released => "operation_released"
    case AmbiguousCharged => "operation_ambiguous"
    case _ => "operation_in_progress"
  }

  /** Asked of the price list and the ledger, with the breaker letting the call through. */
  ghost function ReserveReason(cfg: Config, s: State, req: Request): Option<string>
    requires req.model.Some?
  {
    if forall c :: !Sold(req.model.value, c) then Some("model_rate_unpriced")
    else if !Sold(req.model.value, ClassFor(req.capability)) then Some("model_capability_mismatch")
    else if req.id in s.rows && Differs(s.rows[req.id], req) then Some("operation_id_conflict")
    else if req.id in s.rows then Some(TakenReason(s.rows[req.id].status))
    else if !HasRoom(cfg, s.totals, req) then Some("ceiling")
    else None
  }

  /** Asked of the control plane. */
  function FenceReason(w: World, req: Request): Option<string> {
    if req.provider != "google-vertex" || HealthCheck(req.lifecycle) || (Identified(req.lifecycle) && NoFence(w, req.lifecycle)) then None
    else if req.lifecycle.exempt then Some("breaker_state_changed")
    else Some("lifecycle_fenced")
  }

  ghost function SpendReason(cfg: Config, s: State, req: Request): Option<string>
    requires req.model.Some?
  {
    if ReserveReason(cfg, s, req).Some? then ReserveReason(cfg, s, req) else FenceReason(s.world, req)
  }

  /** Why the call is not admitted; none of the reasons means it is. */
  ghost function AdmissionReason(cfg: Config, env: Environment, s: State, req: Request): Option<string> {
    if DoorReason(env, req).Some? then DoorReason(env, req)
    else if HealthReason(s.health, s.disabled, req.provider, req.now).Some? then HealthReason(s.health, s.disabled, req.provider, req.now)
    else SpendReason(cfg, s, req)
  }

  lemma DecidesExactly(health: map<string, Breaker.Health>, disabled: set<string>, provider: string, now: int)
    ensures var h := if provider in health then health[provider] else Breaker.FRESH;
            match Breaker.Decide(h, provider in disabled, now)
            case Refused(reason) => HealthReason(health, disabled, provider, now) == Some(reason)
            case Pass => HealthReason(health, disabled, provider, now) == None && h.state == Breaker.Closed
            case TryProbe => HealthReason(health, disabled, provider, now) == None && h.state != Breaker.Closed && Breaker.CanProbe(h, now)
  {
  }

  // ----- The reserve statement against the rules -----

  lemma ListPriceIsOne(a: RateSnapshot, b: RateSnapshot, req: Request)
    requires IsListPrice(a, req) && IsListPrice(b, req)
    ensures a.inputPerMillion == b.inputPerMillion && a.outputPerMillion == b.outputPerMillion && a.rankPer100 == b.rankPer100
  {
  }

  lemma SamePriceSameAttempt(a: RateSnapshot, b: RateSnapshot, req: Request, units: nat, price: nat)
    requires IsListPrice(a, req) && IsListPrice(b, req) && OneAttempt(req, a, units, price)
    ensures OneAttempt(req, b, units, price)
  {
    ListPriceIsOne(a, b, req);
    if ClassFor(req.capability) == RankUnits {
      var hundreds: nat :| Packages(AssumedRecords(req.inputs), hundreds) && price == hundreds * a.rankPer100;
      assert RankPrice(b, AssumedRecords(req.inputs), price);
    }
    hide Listed;
  }

  /** A stored row is the request's own operation exactly when it does not differ. */
  lemma DiffersExactly(r: Row, req: Request, rate: RateSnapshot, token: Token)
    requires IsListPrice(rate, req)
    ensures var expected := RowFor(req, rate, token);
            Differs(r, req) <==>
              !(&& r.provider == expected.provider && r.rate.model == expected.rate.model && r.capability == expected.capability
                && r.rate.unitClass == expected.rate.unitClass && r.base.units == expected.base.units
                && BaseCost(r.rate, r.base) == BaseCost(expected.rate, expected.base)
                && r.maxAttempts == expected.maxAttempts && r.lifecycle == expected.lifecycle)
  {
    ReservationHolds(req, rate, token);
    var expected := RowFor(req, rate, token);
    var units, price := expected.base.units, BaseCost(rate, expected.base);
    hide OneAttempt, BaseCost, IsListPrice, RowFor;
    forall other | IsListPrice(other, req) && OneAttempt(req, other, r.base.units, BaseCost(r.rate, r.base))
      ensures r.base.units == units && BaseCost(r.rate, r.base) == price
    {
      SamePriceSameAttempt(other, rate, req, r.base.units, BaseCost(r.rate, r.base));
      AttemptIsOne(req, rate, r.base.units, BaseCost(r.rate, r.base), units, price);
    }
    ModelOf(rate, req);
  }

  lemma ModelOf(rate: RateSnapshot, req: Request)
    requires IsListPrice(rate, req)
    ensures Some(rate.model) == req.model && rate.unitClass == ClassFor(req.capability)
  {
  }

  lemma RoomExactly(cfg: Config, totals: map<BucketKey, Bucket>, req: Request, rate: RateSnapshot, token: Token)
    requires IsListPrice(rate, req)
    ensures var row := RowFor(req, rate, token);
            var after := AddReserved(AddReserved(totals, DayOf(row), row.estimatedUnits), MonthOf(row), row.estimatedCost);
            HasRoom(cfg, totals, req) <==> Fits(cfg, after, DayOf(row)) && Fits(cfg, after, MonthOf(row))
  {
    ReservationHolds(req, rate, token);
    ModelOf(rate, req);
    var row := RowFor(req, rate, token);
    var units, price := row.base.units, BaseCost(rate, row.base);
    hide OneAttempt, BaseCost, IsListPrice, RowFor;
    forall other, units': nat, price': nat | IsListPrice(other, req) && OneAttempt(req, other, units', price')
      ensures units' == units && price' == price
    {
      SamePriceSameAttempt(other, rate, req, units', price');
      AttemptIsOne(req, rate, units', price', units, price);
    }
  }

  /** The reserve batch, with the health clause holding, against the rules. */
  lemma ReservesExactly(cfg: Config, s: State, req: Request)
    requires req.model.Some? && req.model.value != "" && GateHolds(s, req.provider, req.gate, req.now)
    ensures var (t, outcome) := ReserveBatch(cfg, s, req);
            var c := ClassFor(req.capability);
            match outcome
            case Unpriced => !Sold(req.model.value, c)
            case Lost => Sold(req.model.value, c) && req.id in s.rows
            case OverCeiling => Sold(req.model.value, c) && req.id !in s.rows && !HasRoom(cfg, s.totals, req)
            case Won(row) => Sold(req.model.value, c) && req.id !in s.rows && HasRoom(cfg, s.totals, req)
                             && row.expiresAt == req.now + 6 * 60_000
  {
    var c := ClassFor(req.capability);
    SnapshotIsListed(req.model.value, c);
    assert EstimateUnits(req.capability, req.inputs).unitClass == c;
    match GoogleRateSnapshot(req.model, c)
    case Err(_) =>
    case Ok(rate) =>
      assert IsListPrice(rate, req);
      RoomExactly(cfg, s.totals, req, rate, s.nextToken);
      ReservationHolds(req, rate, s.nextToken);
      hide HasRoom, GateHolds, EstimateUnits, GoogleRateSnapshot, Sold, Listed, OneAttempt, BaseCost, Fits, AddReserved, RowFor;
  }
}

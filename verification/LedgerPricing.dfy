/** What a call is estimated at and what its usage is priced at, stated on the request,
    the usage and the list prices. */
module LedgerPricing {
  import opened Wrappers
  import opened RateCards
  import opened Ledger

  /** A count the provider reported; nothing below zero is believed. */
  predicate Reads(reported: Option<int>, count: nat) {
    if reported.Some? && reported.value >= 0 then count == reported.value else count == 0
  }

  /** The least whole number of micro-USD that covers a price per million tokens. */
  predicate TokenPrice(rate: RateSnapshot, input: nat, output: nat, cost: nat) {
    var exact := input * rate.inputPerMillion + output * rate.outputPerMillion;
    cost * 1_000_000 >= exact && (cost > 0 ==> (cost - 1) * 1_000_000 < exact)
  }

  /** The least number of hundreds, and at least one, that covers the records. */
  predicate Packages(records: int, hundreds: nat) {
    hundreds >= 1 && hundreds * 100 >= records && (hundreds == 1 || (hundreds - 1) * 100 < records)
  }

  ghost predicate RankPrice(rate: RateSnapshot, records: int, cost: nat) {
    exists hundreds: nat :: Packages(records, hundreds) && cost == hundreds * rate.rankPer100
  }

  lemma CeilIsTight(a: nat, b: nat)
    requires b > 0
    ensures CeilDiv(a, b) * b >= a && (CeilDiv(a, b) > 0 ==> (CeilDiv(a, b) - 1) * b < a)
  {
    var q := CeilDiv(a, b);
    assert forall p: nat :: p * b >= a ==> p >= q;
  }

  lemma TokensCost(rate: RateSnapshot, input: nat, output: nat, records: int)
    requires rate.unitClass != RankUnits
    ensures TokenPrice(rate, input, output, EstimateCost(rate, input, output, records))
  {
    CeilIsTight(input * rate.inputPerMillion + output * rate.outputPerMillion, 1_000_000);
  }

  lemma RanksCost(rate: RateSnapshot, input: nat, output: nat, records: int)
    requires rate.unitClass == RankUnits
    ensures RankPrice(rate, records, EstimateCost(rate, input, output, records))
  {
    var hundreds := if records <= 100 then 1 else CeilDiv(records, 100);
    if records > 100 { CeilIsTight(records, 100); }
    assert Packages(records, hundreds);
  }

  /** The units a settlement books: the reported total when there is one, else the tokens,
      or the records - the estimated ones when none are reported, and at least one. */
  predicate BookedUnits(r: Row, u: Usage, input: nat, output: nat, units: nat) {
    if u.actualUnits.Some? then Reads(u.actualUnits, units)
    else if r.rate.unitClass == RankUnits then
      var records := if u.records.Some? then u.records.value else r.base.units;
      units >= 1 && units >= records && (units == 1 || units == records)
    else units == input + output
  }

  /** The cost it books, on the row's own rates. */
  ghost predicate BookedCost(r: Row, u: Usage, input: nat, output: nat, units: nat, cost: nat) {
    if r.rate.unitClass == RankUnits
    then RankPrice(r.rate, if u.records.Some? then u.records.value else units, cost)
    else TokenPrice(r.rate, input, output, cost)
  }

  lemma SettlementIsPriced(id: OpId, r: Row, u: Usage, input: nat, output: nat)
    requires Reads(u.inputTokens, input) && Reads(u.outputTokens, output)
    ensures var c := Prepare(id, r, Settle(u)); BookedUnits(r, u, input, output, c.used) && BookedCost(r, u, input, output, c.used, c.cost)
  {
    var c := Prepare(id, r, Settle(u));
    var records := Max(1, u.records.GetOr(c.used));
    if r.rate.unitClass == RankUnits {
      RanksCost(r.rate, input, output, records);
      var hundreds: nat :| Packages(records, hundreds) && c.cost == hundreds * r.rate.rankPer100;
      assert Packages(if u.records.Some? then u.records.value else c.used, hundreds);
    } else {
      TokensCost(r.rate, input, output, records);
    }
    hide EstimateCost;
  }

  lemma PriceIsOne(rate: RateSnapshot, input: nat, output: nat, a: nat, b: nat)
    requires TokenPrice(rate, input, output, a) && TokenPrice(rate, input, output, b)
    ensures a == b
  {
  }

  lemma RankPriceIsOne(rate: RateSnapshot, records: int, a: nat, b: nat)
    requires RankPrice(rate, records, a) && RankPrice(rate, records, b)
    ensures a == b
  {
    var m: nat :| Packages(records, m) && a == m * rate.rankPer100;
    var n: nat :| Packages(records, n) && b == n * rate.rankPer100;
    assert m == n;
  }

  // ----- List prices -----

  /** The price list: micro-USD per million input and output tokens, or per hundred records. */
  predicate Listed(model: string, c: UnitClass, input: nat, output: nat, rank: nat) {
    || (model == "gemini-2.5-flash" && c == GenTokens && input == 300_000 && output == 2_500_000 && rank == 0)
    || (model == "gemini-2.5-flash-lite" && c == GenTokens && input == 100_000 && output == 400_000 && rank == 0)
    || (model == "gemini-2.5-pro" && c == GenTokens && input == 1_250_000 && output == 10_000_000 && rank == 0)
    || (model == "gemini-embedding-001" && c == EmbedTokens && input == 150_000 && output == 0 && rank == 0)
    || (model == "semantic-ranker-default-004" && c == RankUnits && input == 0 && output == 0 && rank == 1_000)
  }

  /** The model is on the list for this class. */
  predicate Sold(model: string, c: UnitClass) {
    match c
    case GenTokens => model in {"gemini-2.5-flash", "gemini-2.5-flash-lite", "gemini-2.5-pro"}
    case EmbedTokens => model == "gemini-embedding-001"
    case RankUnits => model == "semantic-ranker-default-004"
  }

  /** The class a capability is counted in. */
  function ClassFor(capability: string): UnitClass {
    if capability == "rerank" then RankUnits
    else if capability in {"embed_documents", "embed_query"} then EmbedTokens
    else GenTokens
  }

  lemma SoldOnce(model: string, c: UnitClass, d: UnitClass)
    requires Sold(model, c) && Sold(model, d)
    ensures c == d
  {
  }

  lemma CardIsListed(model: string)
    ensures match GoogleModelCard(model)
            case Some(card) => Sold(model, card.unitClass) && Listed(model, card.unitClass, card.inputPerMillion, card.outputPerMillion, card.rankPer100)
            case None => forall c :: !Sold(model, c)
  {
    if model in GOOGLE_MODELS {
      assert !EndsWith(model, "-latest");
    }
  }

  /** A model is priced exactly when it is listed for the class asked for, and then at its
      list price; one listed for another class is told from one not listed at all. */
  lemma SnapshotIsListed(model: string, c: UnitClass)
    requires model != ""
    ensures match GoogleRateSnapshot(Some(model), c)
            case Ok(rate) =>
              && Sold(model, c) && rate.model == model && rate.unitClass == c
              && Listed(model, c, rate.inputPerMillion, rate.outputPerMillion, rate.rankPer100)
            case Err(ModelCapabilityMismatch) => !Sold(model, c) && exists d :: Sold(model, d)
            case Err(ModelRateUnpriced) => forall d :: !Sold(model, d)
  {
    CardIsListed(model);
    match GoogleModelCard(model)
    case None => hide Sold, Listed, GoogleModelCard;
    case Some(card) =>
      if Sold(model, c) { SoldOnce(model, c, card.unitClass); }
      ListedRates(model, card);
      hide Sold, Listed, GoogleModelCard;
  }

  /** A listed model has no rate of another kind. */
  lemma ListedRates(model: string, card: Card)
    requires Listed(model, card.unitClass, card.inputPerMillion, card.outputPerMillion, card.rankPer100)
    ensures if card.unitClass == RankUnits then card.inputPerMillion == 0 && card.outputPerMillion == 0 else card.rankPer100 == 0
  {
  }

  /** A call that names no model is priced on the dearest of its class. */
  lemma UnnamedModel(c: UnitClass)
    ensures GoogleRateSnapshot(Some(""), c) == GoogleRateSnapshot(None, c)
    ensures match GoogleRateSnapshot(None, c)
            case Ok(rate) =>
              && Sold(rate.model, c) && rate.unitClass == c
              && Listed(rate.model, c, rate.inputPerMillion, rate.outputPerMillion, rate.rankPer100)
              && forall model: string, input: nat, output: nat, rank: nat ::
                   Listed(model, c, input, output, rank) ==>
                     input <= rate.inputPerMillion && output <= rate.outputPerMillion && rank <= rate.rankPer100
            case Err(_) => false
  {
    match c
    case GenTokens =>
    case EmbedTokens =>
    case RankUnits =>
  }

  // ----- Estimates -----

  /** A token for each byte of the request, at least one. */
  function AssumedInput(inputs: Inputs): nat {
    match inputs.jsonBytes
    case Some(bytes) => if bytes == 0 then 1 else bytes
    case None => 16_384
  }

  /** The output bound asked for, or 4096; embeddings have no output. */
  function AssumedOutput(c: UnitClass, inputs: Inputs): nat {
    match inputs.maxTokens
    case Some(bound) => if c != GenTokens || bound < 0 then 0 else bound
    case None => if c == GenTokens then 4096 else 0
  }

  function AssumedRecords(inputs: Inputs): nat {
    match inputs.contexts
    case Some(contexts) => if contexts == 0 then 1 else contexts
    case None => 1
  }

  function Attempts(asked: int): nat {
    if asked < 1 then 1 else if asked > 10 then 10 else asked
  }

  /** The units and the price of one attempt of a request. */
  ghost predicate OneAttempt(req: Request, rate: RateSnapshot, units: nat, price: nat) {
    var c := ClassFor(req.capability);
    var input, output := AssumedInput(req.inputs), AssumedOutput(c, req.inputs);
    if c == RankUnits
    then units == AssumedRecords(req.inputs) && RankPrice(rate, AssumedRecords(req.inputs), price)
    else units == input + output && TokenPrice(rate, input, output, price)
  }

  lemma AttemptIsOne(req: Request, rate: RateSnapshot, units: nat, price: nat, units': nat, price': nat)
    requires OneAttempt(req, rate, units, price) && OneAttempt(req, rate, units', price')
    ensures units == units' && price == price'
  {
    var c := ClassFor(req.capability);
    if c == RankUnits {
      RankPriceIsOne(rate, AssumedRecords(req.inputs), price, price');
    } else {
      PriceIsOne(rate, AssumedInput(req.inputs), AssumedOutput(c, req.inputs), price, price');
    }
  }

  /** A reservation row holds its worst case: the units and the price of one attempt on the
      rates it stores, for every attempt it may make - from one to ten. */
  lemma ReservationHolds(req: Request, rate: RateSnapshot, token: Token)
    requires rate.unitClass == ClassFor(req.capability)
    ensures EstimateUnits(req.capability, req.inputs).unitClass == ClassFor(req.capability)
    ensures var r := RowFor(req, rate, token);
            && r.maxAttempts == Attempts(req.maxAttempts) && r.expiresAt == req.now + 6 * 60_000
            && r.status == Reserved && r.settleToken == None && r.attemptToken == token
            && r.provider == req.provider && r.capability == req.capability && r.rate == rate
            && r.day == req.day && r.month == req.month && r.lifecycle == req.lifecycle && r.admitted == req.lifecycle
            && OneAttempt(req, rate, r.base.units, BaseCost(rate, r.base))
            && r.estimatedUnits == r.base.units * Attempts(req.maxAttempts)
            && r.estimatedCost == BaseCost(rate, r.base) * Attempts(req.maxAttempts)
  {
    var est := EstimateUnits(req.capability, req.inputs);
    if req.capability == "rerank" {
      RanksCost(rate, est.inputTokens, est.outputTokens, est.units);
    } else {
      TokensCost(rate, est.inputTokens, est.outputTokens, 0);
    }
    hide EstimateCost, RankPrice, TokenPrice;
  }
}

/** Rate identities and micro-USD arithmetic: which rates a reservation pins, and
    why the price reserved up front covers every in-estimate settlement. */
module RateCards {
  import opened Wrappers

  datatype UnitClass = GenTokens | EmbedTokens | RankUnits

  datatype Card = Card(unitClass: UnitClass, inputPerMillion: nat, outputPerMillion: nat, rankPer100: nat)

  datatype RateSnapshot = RateSnapshot(
    version: string, model: string, unitClass: UnitClass,
    inputPerMillion: nat, outputPerMillion: nat, rankPer100: nat)

  datatype RateError = ModelRateUnpriced | ModelCapabilityMismatch

  const RATE_CARD_VERSION := "2026-08-22.2"

  const GOOGLE_MODELS: map<string, Card> := map[
    "gemini-2.5-flash" := Card(GenTokens, 300_000, 2_500_000, 0),
    "gemini-2.5-flash-lite" := Card(GenTokens, 100_000, 400_000, 0),
    "gemini-2.5-pro" := Card(GenTokens, 1_250_000, 10_000_000, 0),
    "gemini-embedding-001" := Card(EmbedTokens, 150_000, 0, 0),
    "semantic-ranker-default-004" := Card(RankUnits, 0, 0, 1_000)
  ]

  function FallbackModel(unitClass: UnitClass): string {
    match unitClass
    case GenTokens => "gemini-2.5-pro"
    case EmbedTokens => "gemini-embedding-001"
    case RankUnits => "semantic-ranker-default-004"
  }

  predicate EndsWith(s: string, suffix: string) {
    |suffix| <= |s| && s[|s| - |suffix|..] == suffix
  }

  /** A moving "-latest" alias never has a price. */
  function GoogleModelCard(model: string): Option<Card> {
    if EndsWith(model, "-latest") || model !in GOOGLE_MODELS then None else Some(GOOGLE_MODELS[model])
  }

  function GoogleRateSnapshot(model: Option<string>, unitClass: UnitClass): Result<RateSnapshot, RateError> {
    var concrete := if model.Some? && model.value != "" then model.value else FallbackModel(unitClass);
    match GoogleModelCard(concrete)
    case None => Err(ModelRateUnpriced)
    case Some(card) =>
      if card.unitClass != unitClass then Err(ModelCapabilityMismatch)
      else if unitClass == RankUnits then
        Ok(RateSnapshot(RATE_CARD_VERSION, concrete, unitClass, 0, 0, card.rankPer100))
      else
        Ok(RateSnapshot(RATE_CARD_VERSION, concrete, unitClass, card.inputPerMillion, card.outputPerMillion, 0))
  }

  /** The least integer at or above `a / b`. */
  function CeilDiv(a: nat, b: nat): (q: nat)
    requires b > 0
    ensures q * b >= a
    ensures forall p: nat :: p * b >= a ==> p >= q
  {
    CeilDivLeast(a, b);
    (a + b - 1) / b
  }

  lemma CeilDivLeast(a: nat, b: nat)
    requires b > 0
    ensures ((a + b - 1) / b) * b >= a
    ensures forall p: nat :: p * b >= a ==> p >= (a + b - 1) / b
  {
    var q := (a + b - 1) / b;
    assert a + b - 1 == q * b + (a + b - 1) % b;
    forall p: nat | p < q ensures p * b < a {
      MulMonotone(p, q - 1, b);
    }
  }

  function EstimateCost(rate: RateSnapshot, inputTokens: int, outputTokens: int, records: int): nat {
    if rate.unitClass == RankUnits then
      (if records <= 100 then 1 else CeilDiv(records, 100)) * rate.rankPer100
    else
      CeilDiv(Max(0, inputTokens) * rate.inputPerMillion + Max(0, outputTokens) * rate.outputPerMillion, 1_000_000)
  }

  /** What the estimator can observe of a call: how many contexts a rerank carries,
      the length of the UTF-8 JSON encoding (None when it cannot be encoded), and
      the requested output bound. */
  datatype Inputs = Inputs(contexts: Option<nat>, jsonBytes: Option<nat>, maxTokens: Option<int>)

  datatype Estimate = Estimate(unitClass: UnitClass, units: nat, inputTokens: nat, outputTokens: nat)

  function UnitClassOf(capability: string): UnitClass {
    if capability == "embed_documents" || capability == "embed_query" then EmbedTokens
    else if capability == "rerank" then RankUnits
    else GenTokens
  }

  function EstimateUnits(capability: string, inputs: Inputs): Estimate {
    var unitClass := UnitClassOf(capability);
    if unitClass == RankUnits then
      Estimate(unitClass, Max(1, inputs.contexts.GetOr(1)), 0, 0)
    else
      var inputTokens := Max(1, inputs.jsonBytes.GetOr(16_384));
      if unitClass == EmbedTokens then Estimate(unitClass, inputTokens, inputTokens, 0)
      else
        var outputTokens := if inputs.maxTokens.Some? then Max(0, inputs.maxTokens.value) else 4096;
        Estimate(unitClass, inputTokens + outputTokens, inputTokens, outputTokens)
  }

  function BaseCost(rate: RateSnapshot, est: Estimate): nat {
    EstimateCost(rate, est.inputTokens, est.outputTokens, if est.unitClass == RankUnits then est.units else 0)
  }

  /** Usage that stays within `attempts` copies of the base estimate. */
  predicate WithinEstimate(est: Estimate, attempts: nat, inputTokens: int, outputTokens: int, records: int) {
    if est.unitClass == RankUnits then records <= attempts * est.units
    else inputTokens <= attempts * est.inputTokens && outputTokens <= attempts * est.outputTokens
  }

  /** Reserving `attempts` rounded-up prices covers one rounded-up price of all the
      usage together, on the same pinned rates. */
  lemma ReservationCoversUsage(rate: RateSnapshot, est: Estimate, attempts: nat, inputTokens: int, outputTokens: int, records: int)
    requires attempts >= 1
    requires rate.unitClass == est.unitClass
    requires WithinEstimate(est, attempts, inputTokens, outputTokens, records)
    ensures EstimateCost(rate, inputTokens, outputTokens, records) <= attempts * BaseCost(rate, est)
  {
    if rate.unitClass == RankUnits {
      RankPackagesCover(attempts, est.units, records);
      var used := if records <= 100 then 1 else CeilDiv(records, 100);
      var base := if est.units <= 100 then 1 else CeilDiv(est.units, 100);
      MulMonotone(used, attempts * base, rate.rankPer100);
      assert (attempts * base) * rate.rankPer100 == attempts * (base * rate.rankPer100);
    } else {
      var usage := Max(0, inputTokens) * rate.inputPerMillion + Max(0, outputTokens) * rate.outputPerMillion;
      var base := est.inputTokens * rate.inputPerMillion + est.outputTokens * rate.outputPerMillion;
      MulMonotone(Max(0, inputTokens), attempts * est.inputTokens, rate.inputPerMillion);
      MulMonotone(Max(0, outputTokens), attempts * est.outputTokens, rate.outputPerMillion);
      Distribute(attempts, est.inputTokens, rate.inputPerMillion, est.outputTokens, rate.outputPerMillion);
      assert usage <= attempts * base;
      CeilDivScales(attempts, base, usage, 1_000_000);
    }
  }

  lemma RankPackagesCover(attempts: nat, units: nat, records: int)
    requires attempts >= 1 && records <= attempts * units
    ensures (if records <= 100 then 1 else CeilDiv(records, 100)) <= attempts * (if units <= 100 then 1 else CeilDiv(units, 100))
  {
    var base := if units <= 100 then 1 else CeilDiv(units, 100);
    assert base * 100 >= units;
    MulMonotone(units, base * 100, attempts);
    assert (base * 100) * attempts == (attempts * base) * 100;
    assert (attempts * base) * 100 >= records;
    MulMonotone(1, base, attempts);
  }

  lemma CeilDivScales(n: nat, a: nat, usage: nat, b: nat)
    requires b > 0 && usage <= n * a
    ensures CeilDiv(usage, b) <= n * CeilDiv(a, b)
  {
    var q := CeilDiv(a, b);
    MulMonotone(a, q * b, n);
    assert (q * b) * n == (n * q) * b;
    assert (n * q) * b >= usage;
  }

  lemma MulMonotone(a: int, b: int, c: nat)
    requires a <= b
    ensures a * c <= b * c
  {
  }

  lemma Distribute(n: nat, a: nat, r: nat, b: nat, s: nat)
    ensures (n * a) * r + (n * b) * s == n * (a * r + b * s)
  {
    assert (n * a) * r == n * (a * r);
    assert (n * b) * s == n * (b * s);
  }

  /** A priced snapshot always carries its own class, and a rate of the other kind
      is zero, so units of one class can never be billed on another class's rate. */
  lemma SnapshotPricesItsOwnClass(model: Option<string>, unitClass: UnitClass)
    ensures match GoogleRateSnapshot(model, unitClass)
            case Ok(rate) =>
              && rate.unitClass == unitClass
              && !EndsWith(rate.model, "-latest")
              && (unitClass == RankUnits <==> rate.rankPer100 > 0)
              && (unitClass == RankUnits <==> rate.inputPerMillion == 0)
              && (unitClass == GenTokens <==> rate.outputPerMillion > 0)
            case Err(_) => model.Some? && model.value != ""
  {
    assert !EndsWith(FallbackModel(unitClass), "-latest");
  }
}

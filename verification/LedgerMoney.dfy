/** Money over every run of the ledger: conservation, the unreachable drift poison,
    and how far settled overshoot can push a bucket past its ceiling. */
module LedgerMoney {
  import opened Wrappers
  import opened RateCards
  import opened Ledger

  // ----- Sums over the reservation table -----

  /** What a row contributes to a bucket: the estimate it still holds, the usage it
      was closed with, or how far a settled usage exceeded its estimate. */
  datatype Part = Held | Spent | Overshoot

  function Estimated(k: BucketKey, r: Row): nat {
    if k.DayKey? then r.estimatedUnits else r.estimatedCost
  }

  function Actual(k: BucketKey, r: Row): nat {
    if k.DayKey? then r.actualUnits else r.actualCost
  }

  function Weight(part: Part, k: BucketKey, r: Row): nat {
    if k != DayOf(r) && k != MonthOf(r) then 0
    else match part
      case Held => if Active(r) then Estimated(k, r) else 0
      case Spent => if Active(r) then 0 else Actual(k, r)
      case Overshoot => if r.status == Settled then Max(0, Actual(k, r) - Estimated(k, r)) else 0
  }

  ghost function Total(rows: map<OpId, Row>, part: Part, k: BucketKey): nat {
    if rows == map[] then 0 else
      var id :| id in rows;
      Weight(part, k, rows[id]) + Total(rows - {id}, part, k)
  }

  /** The total does not depend on which row is taken out first. */
  lemma {:induction false} TotalWithout(rows: map<OpId, Row>, part: Part, k: BucketKey, id: OpId)
    requires id in rows
    ensures Total(rows, part, k) == Weight(part, k, rows[id]) + Total(rows - {id}, part, k)
    decreases |rows|
  {
    hide Weight;
    var c :| c in rows && Total(rows, part, k) == Weight(part, k, rows[c]) + Total(rows - {c}, part, k);
    if c != id {
      assert (rows - {c}).Keys == rows.Keys - {c} && (rows - {id}).Keys == rows.Keys - {id};
      TotalWithout(rows - {c}, part, k, id);
      TotalWithout(rows - {id}, part, k, c);
      assert rows - {c} - {id} == rows - {id} - {c};
    }
  }

  /** Inserting or replacing one row moves the total by that row's change. */
  lemma TotalUpdate(rows: map<OpId, Row>, part: Part, k: BucketKey, id: OpId, r: Row)
    ensures Total(rows[id := r], part, k)
            == Total(rows, part, k) - (if id in rows then Weight(part, k, rows[id]) else 0) + Weight(part, k, r)
  {
    hide Weight;
    TotalWithout(rows[id := r], part, k, id);
    if id in rows {
      TotalWithout(rows, part, k, id);
      assert rows[id := r] - {id} == rows - {id};
    } else {
      assert rows[id := r] - {id} == rows;
    }
  }

  /** Rewriting columns that carry no weight leaves every total alone. */
  lemma {:induction false} TotalCongruent(rows: map<OpId, Row>, rows': map<OpId, Row>, part: Part, k: BucketKey)
    requires rows.Keys == rows'.Keys
    requires forall id :: id in rows ==> Weight(part, k, rows[id]) == Weight(part, k, rows'[id])
    ensures Total(rows, part, k) == Total(rows', part, k)
    decreases |rows|
  {
    hide Weight;
    if rows == map[] {
      assert rows' == map[];
    } else {
      var id :| id in rows;
      TotalWithout(rows, part, k, id);
      TotalWithout(rows', part, k, id);
      assert (rows - {id}).Keys == rows.Keys - {id} == (rows' - {id}).Keys;
      TotalCongruent(rows - {id}, rows' - {id}, part, k);
    }
  }

  lemma {:induction false} TotalOfNothing(rows: map<OpId, Row>, part: Part, k: BucketKey)
    requires forall id :: id in rows ==> Weight(part, k, rows[id]) == 0
    ensures Total(rows, part, k) == 0
    decreases |rows|
  {
    if rows != map[] {
      var id :| id in rows;
      TotalWithout(rows, part, k, id);
      assert (rows - {id}).Keys == rows.Keys - {id};
      TotalOfNothing(rows - {id}, part, k);
    }
  }

  // ----- Conservation of the two totals tables -----

  /** Every bucket holds exactly the estimates of its active rows and the actuals of
      its terminal ones, and no row lacks a bucket. */
  ghost predicate Conserved(rows: map<OpId, Row>, totals: map<BucketKey, Bucket>) {
    && (forall id :: id in rows ==> DayOf(rows[id]) in totals && MonthOf(rows[id]) in totals)
    && (forall k :: BucketOf(totals, k) == Bucket(Total(rows, Spent, k), Total(rows, Held, k)))
  }

  ghost predicate WithinOvershoot(cfg: Config, rows: map<OpId, Row>, totals: map<BucketKey, Bucket>) {
    forall k :: BucketOf(totals, k).used + BucketOf(totals, k).reserved <= Ceiling(cfg, k) + Total(rows, Overshoot, k)
  }

  /** The bucket a row's change leaves behind. */
  function Moved(totals: map<BucketKey, Bucket>, k: BucketKey, before: Option<Row>, after: Row): Bucket {
    var b := BucketOf(totals, k);
    Bucket(b.used + Weight(Spent, k, after) - (if before.Some? then Weight(Spent, k, before.value) else 0),
           b.reserved + Weight(Held, k, after) - (if before.Some? then Weight(Held, k, before.value) else 0))
  }

  function RowAt(rows: map<OpId, Row>, id: OpId): Option<Row> {
    if id in rows then Some(rows[id]) else None
  }

  /** One row changes and its two buckets move with it. */
  lemma RowMoves(rows: map<OpId, Row>, totals: map<BucketKey, Bucket>, id: OpId, r: Row, totals': map<BucketKey, Bucket>)
    requires Conserved(rows, totals)
    requires id in rows ==> DayOf(rows[id]) == DayOf(r) && MonthOf(rows[id]) == MonthOf(r)
    requires totals' == totals[DayOf(r) := Moved(totals, DayOf(r), RowAt(rows, id), r)][MonthOf(r) := Moved(totals, MonthOf(r), RowAt(rows, id), r)]
    ensures Conserved(rows[id := r], totals')
    ensures forall k :: Total(rows[id := r], Overshoot, k)
              == Total(rows, Overshoot, k) - (if id in rows then Weight(Overshoot, k, rows[id]) else 0) + Weight(Overshoot, k, r)
  {
    forall k
      ensures BucketOf(totals', k) == Bucket(Total(rows[id := r], Spent, k), Total(rows[id := r], Held, k))
      ensures Total(rows[id := r], Overshoot, k)
              == Total(rows, Overshoot, k) - (if id in rows then Weight(Overshoot, k, rows[id]) else 0) + Weight(Overshoot, k, r)
    {
      TotalUpdate(rows, Spent, k, id, r);
      TotalUpdate(rows, Held, k, id, r);
      TotalUpdate(rows, Overshoot, k, id, r);
      assert BucketOf(totals, k) == Bucket(Total(rows, Spent, k), Total(rows, Held, k));
    }
  }

  lemma SameWeightWeighs(part: Part, k: BucketKey, r: Row, r': Row)
    requires SameWeight(r, r')
    ensures Weight(part, k, r) == Weight(part, k, r') && DayOf(r) == DayOf(r') && MonthOf(r) == MonthOf(r')
  {
  }

  /** Relabelling rows without touching key, status class or money keeps it all. */
  lemma RowsRelabelled(rows: map<OpId, Row>, totals: map<BucketKey, Bucket>, rows': map<OpId, Row>)
    requires Conserved(rows, totals)
    requires rows'.Keys == rows.Keys
    requires forall id :: id in rows ==> SameWeight(rows[id], rows'[id])
    ensures Conserved(rows', totals)
    ensures forall k :: Total(rows', Overshoot, k) == Total(rows, Overshoot, k)
  {
    hide Weight, SameWeight;
    forall k, part: Part ensures Total(rows', part, k) == Total(rows, part, k) {
      forall id | id in rows ensures Weight(part, k, rows[id]) == Weight(part, k, rows'[id]) {
        SameWeightWeighs(part, k, rows[id], rows'[id]);
      }
      TotalCongruent(rows, rows', part, k);
    }
    forall id | id in rows' ensures DayOf(rows'[id]) in totals && MonthOf(rows'[id]) in totals {
      SameWeightWeighs(Held, DayOf(rows[id]), rows[id], rows'[id]);
    }
    forall k ensures BucketOf(totals, k) == Bucket(Total(rows', Spent, k), Total(rows', Held, k)) {
      assert Total(rows', Spent, k) == Total(rows, Spent, k) && Total(rows', Held, k) == Total(rows, Held, k);
    }
  }

  // ----- The invariant -----

  predicate SameWeight(r: Row, r': Row) {
    && DayOf(r) == DayOf(r') && MonthOf(r) == MonthOf(r')
    && Active(r) == Active(r') && (r.status == Settled <==> r'.status == Settled)
    && r.estimatedUnits == r'.estimatedUnits && r.estimatedCost == r'.estimatedCost
    && r.actualUnits == r'.actualUnits && r.actualCost == r'.actualCost
  }

  /** The columns of a row that no statement ever changes. */
  predicate SamePrice(r: Row, stored: Row) {
    && DayOf(r) == DayOf(stored) && MonthOf(r) == MonthOf(stored)
    && r.estimatedUnits == stored.estimatedUnits && r.estimatedCost == stored.estimatedCost
    && r.rate == stored.rate && r.base == stored.base && r.maxAttempts == stored.maxAttempts
    && r.attemptToken == stored.attemptToken && r.admitted == stored.admitted
  }

  /** A row's price is its base estimate times its attempts, at its own rates. */
  predicate Priced(r: Row) {
    && r.maxAttempts >= 1
    && r.base.unitClass == r.rate.unitClass
    && r.estimatedUnits == r.base.units * r.maxAttempts
    && r.estimatedCost == BaseCost(r.rate, r.base) * r.maxAttempts
    && (r.base.unitClass == RankUnits ==> r.base.units >= 1)
    && (r.base.unitClass != RankUnits ==> r.base.units == r.base.inputTokens + r.base.outputTokens)
  }

  predicate CallSound(rows: map<OpId, Row>, c: Call) {
    c.Loaded? ==>
      && c.id in rows && SamePrice(rows[c.id], c.stored)
      && c.to in {Settled, Released, AmbiguousCharged} && c.froms <= {Reserved, Invoking}
      && (c.to != Settled ==> c.used <= c.stored.estimatedUnits && c.cost <= c.stored.estimatedCost)
  }

  ghost predicate Sound(cfg: Config, s: State) {
    && Conserved(s.rows, s.totals)
    && WithinOvershoot(cfg, s.rows, s.totals)
    && (forall id :: id in s.rows ==> Priced(s.rows[id]))
    && (forall c :: c in s.calls ==> CallSound(s.rows, s.calls[c]) && !s.calls[c].Poisoned?)
  }

  /** A bucket always covers the estimate of each active row that drew on it. */
  lemma BucketCoversRow(rows: map<OpId, Row>, totals: map<BucketKey, Bucket>, id: OpId, k: BucketKey)
    requires Conserved(rows, totals) && id in rows && Active(rows[id])
    requires k == DayOf(rows[id]) || k == MonthOf(rows[id])
    ensures k in totals && totals[k].reserved >= Estimated(k, rows[id])
  {
    TotalWithout(rows, Held, k, id);
    assert BucketOf(totals, k) == Bucket(Total(rows, Spent, k), Total(rows, Held, k));
  }

  /** A winning settlement always finds its buckets present and funded. */
  lemma WinnerIsFunded(s: State, c: Call)
    requires Conserved(s.rows, s.totals) && c.Loaded? && CallSound(s.rows, c) && Wins(s, c)
    ensures !Drifted(s, c)
  {
    BucketCoversRow(s.rows, s.totals, c.id, DayOf(c.stored));
    BucketCoversRow(s.rows, s.totals, c.id, MonthOf(c.stored));
  }

  // ----- Each step keeps it -----

  lemma RowForIsPriced(req: Request, rate: RateSnapshot, token: Token)
    requires rate.unitClass == EstimateUnits(req.capability, req.inputs).unitClass
    ensures Priced(RowFor(req, rate, token))
  {
  }

  lemma InsertKeeps(cfg: Config, s: State, req: Request, row: Row)
    requires Conserved(s.rows, s.totals) && WithinOvershoot(cfg, s.rows, s.totals)
    requires row.status == Reserved && row.actualUnits == 0 && row.actualCost == 0
    ensures var t := InsertAndHold(cfg, s, req, row).0;
            Conserved(t.rows, t.totals) && WithinOvershoot(cfg, t.rows, t.totals)
  {
    var (t, outcome) := InsertAndHold(cfg, s, req, row);
    match outcome
    case Won(_) =>
      RowMoves(s.rows, s.totals, req.id, row, t.totals);
      forall k ensures BucketOf(t.totals, k).used + BucketOf(t.totals, k).reserved <= Ceiling(cfg, k) + Total(t.rows, Overshoot, k) {
        if k != DayOf(row) && k != MonthOf(row) {
          assert BucketOf(t.totals, k) == BucketOf(s.totals, k);
          assert Total(t.rows, Overshoot, k) == Total(s.rows, Overshoot, k);
        }
      }
    case Lost =>
      assert forall k :: BucketOf(t.totals, k) == BucketOf(s.totals, k);
    case _ =>
  }

  /** One bucket of a closed row: it moves by actual minus estimate, which is never
      more than the overshoot the row adds. */
  lemma ClosedRowBucket(k: BucketKey, r: Row, r': Row, before: Bucket, after: Bucket)
    requires Active(r) && !Active(r') && (k == DayOf(r') || k == MonthOf(r'))
    requires Estimated(k, r) == Estimated(k, r')
    requires r'.status == Settled || Actual(k, r') <= Estimated(k, r')
    requires after == Bucket(before.used + Actual(k, r'), before.reserved - Estimated(k, r'))
    ensures after.used + after.reserved <= before.used + before.reserved + Weight(Overshoot, k, r')
  {
  }

  lemma CommitKeeps(cfg: Config, s: State, c: Call)
    requires Conserved(s.rows, s.totals) && WithinOvershoot(cfg, s.rows, s.totals)
    requires c.Loaded? && CallSound(s.rows, c) && Wins(s, c) && !Drifted(s, c)
    ensures var t := Commit(s, c); Conserved(t.rows, t.totals) && WithinOvershoot(cfg, t.rows, t.totals)
  {
    var t := Commit(s, c);
    var r := s.rows[c.id];
    var r' := r.(status := c.to, settleToken := Some(s.nextToken), actualUnits := c.used, actualCost := c.cost);
    RowMoves(s.rows, s.totals, c.id, r', t.totals);
    forall k ensures BucketOf(t.totals, k).used + BucketOf(t.totals, k).reserved <= Ceiling(cfg, k) + Total(t.rows, Overshoot, k) {
      assert Total(t.rows, Overshoot, k) == Total(s.rows, Overshoot, k) + Weight(Overshoot, k, r');
      if k == DayOf(r') || k == MonthOf(r') {
        ClosedRowBucket(k, r, r', s.totals[k], t.totals[k]);
        assert BucketOf(s.totals, k) == s.totals[k] && BucketOf(t.totals, k) == t.totals[k];
      } else {
        assert BucketOf(t.totals, k) == BucketOf(s.totals, k);
      }
    }
  }

  lemma RelabelKeeps(cfg: Config, s: State, t: State)
    requires Sound(cfg, s)
    requires t.totals == s.totals && t.calls == s.calls && t.rows.Keys == s.rows.Keys
    requires forall id :: id in s.rows ==> SamePrice(t.rows[id], s.rows[id]) && SameWeight(s.rows[id], t.rows[id])
    ensures Sound(cfg, t)
  {
    RowsRelabelled(s.rows, s.totals, t.rows);
    forall k ensures BucketOf(t.totals, k).used + BucketOf(t.totals, k).reserved <= Ceiling(cfg, k) + Total(t.rows, Overshoot, k) {
      assert Total(t.rows, Overshoot, k) == Total(s.rows, Overshoot, k);
    }
  }

  lemma SoundInsert(cfg: Config, s: State, req: Request, row: Row)
    requires Sound(cfg, s) && Priced(row)
    requires row.status == Reserved && row.actualUnits == 0 && row.actualCost == 0
    ensures Sound(cfg, InsertAndHold(cfg, s, req, row).0)
  {
    hide Priced, Conserved, WithinOvershoot;
    InsertKeeps(cfg, s, req, row);
  }

  lemma SoundReserve(cfg: Config, s: State, req: Request)
    requires Sound(cfg, s)
    ensures Sound(cfg, ReserveBatch(cfg, s, req).0)
  {
    hide Sound, InsertAndHold, Priced;
    match GoogleRateSnapshot(req.model, EstimateUnits(req.capability, req.inputs).unitClass)
    case Err(_) =>
    case Ok(rate) =>
      RowForIsPriced(req, rate, s.nextToken);
      SoundInsert(cfg, s, req, RowFor(req, rate, s.nextToken));
  }

  lemma SoundBatch(cfg: Config, s: State, call: nat)
    requires Sound(cfg, s) && call in s.calls && s.calls[call].Loaded?
    ensures Sound(cfg, ApplyBatch(s, call))
  {
    var c := s.calls[call];
    if Wins(s, c) {
      WinnerIsFunded(s, c);
      CommitKeeps(cfg, s, c);
      var t := Commit(s, c);
      assert SamePrice(t.rows[c.id], s.rows[c.id]);
    }
  }

  lemma SoundInvoke(cfg: Config, s: State, id: OpId, expiresAt: int)
    requires Sound(cfg, s) && id in s.rows && s.rows[id].status == Reserved
    ensures Sound(cfg, s.(rows := s.rows[id := s.rows[id].(status := Invoking, expiresAt := expiresAt)]))
  {
    hide Sound;
    RelabelKeeps(cfg, s, s.(rows := s.rows[id := s.rows[id].(status := Invoking, expiresAt := expiresAt)]));
  }

  lemma SoundScrub(cfg: Config, s: State, sel: Selector)
    requires Sound(cfg, s)
    ensures Sound(cfg, Scrub(s, sel))
  {
    hide Sound;
    RelabelKeeps(cfg, s, Scrub(s, sel));
  }

  /** A step that writes no row, no total and at most one call. */
  lemma SoundAside(cfg: Config, s: State, t: State, call: nat, c: Call)
    requires Sound(cfg, s) && t.rows == s.rows && t.totals == s.totals
    requires t.calls == s.calls || t.calls == s.calls[call := c]
    requires t.calls == s.calls || (CallSound(s.rows, c) && !c.Poisoned?)
    ensures Sound(cfg, t)
  {
  }

  lemma SoundLoad(cfg: Config, s: State, call: nat, id: OpId, token: Token, finish: Finish)
    requires Sound(cfg, s)
    ensures Sound(cfg, Apply(cfg, s, LoadStep(call, id, token, finish)))
  {
    var c := if id in s.rows && s.rows[id].attemptToken == token then Prepare(id, s.rows[id], finish) else Absent;
    SoundAside(cfg, s, Apply(cfg, s, LoadStep(call, id, token, finish)), call, c);
  }

  lemma SoundStep(cfg: Config, s: State, step: Step)
    requires Sound(cfg, s)
    ensures Sound(cfg, Apply(cfg, s, step))
  {
    hide Sound;
    match step
    case ReserveStep(req) => SoundReserve(cfg, s, req);
    case BatchStep(call) => if call in s.calls && s.calls[call].Loaded? { SoundBatch(cfg, s, call); }
    case InvokeStep(id, token, gate, now) =>
      if CanInvoke(s, id, token, gate, now) { SoundInvoke(cfg, s, id, now + RESERVATION_TTL_MS); }
    case ScrubStep(sel) => SoundScrub(cfg, s, sel);
    case LoadStep(call, id, token, finish) => SoundLoad(cfg, s, call, id, token, finish);
    case ReportStep(call) =>
      if call in s.calls && s.calls[call].Committed? {
        SoundAside(cfg, s, Apply(cfg, s, step), call, Apply(cfg, s, step).calls[call]);
      }
    case HealthStep(provider, event) => SoundAside(cfg, s, ApplyHealth(s, provider, event), 0, Absent);
    case OverrideStep(_, _) => SoundAside(cfg, s, Apply(cfg, s, step), 0, Absent);
    case WorldStep(_) => SoundAside(cfg, s, Apply(cfg, s, step), 0, Absent);
  }

  lemma {:induction false} SoundRun(cfg: Config, w: World, steps: seq<Step>)
    ensures Sound(cfg, Run(cfg, Initial(w), steps))
  {
    if steps != [] {
      SoundRun(cfg, w, steps[..|steps| - 1]);
      SoundStep(cfg, Run(cfg, Initial(w), steps[..|steps| - 1]), steps[|steps| - 1]);
    }
  }

  // ----- Main results -----

  /** Ledger conservation, in every state every interleaving can reach. */
  lemma LedgerConservation(cfg: Config, w: World, steps: seq<Step>)
    ensures var s := Run(cfg, Initial(w), steps); Conserved(s.rows, s.totals)
  {
    SoundRun(cfg, w, steps);
  }

  /** The drift poison of the settlement batch never fires. */
  lemma DriftPoisonNeverFires(cfg: Config, w: World, steps: seq<Step>, call: nat)
    ensures var s := Run(cfg, Initial(w), steps);
            call in s.calls ==>
              && !s.calls[call].Poisoned?
              && (s.calls[call].Loaded? && Wins(s, s.calls[call]) ==> !Drifted(s, s.calls[call]))
  {
    SoundRun(cfg, w, steps);
    var s := Run(cfg, Initial(w), steps);
    if call in s.calls && s.calls[call].Loaded? && Wins(s, s.calls[call]) {
      WinnerIsFunded(s, s.calls[call]);
    }
  }

  /** The bound every reachable bucket obeys: measured overshoot is the only way past
      a ceiling, and a reserve that succeeds always ends within both of its own. */
  lemma CeilingWithOvershoot(cfg: Config, w: World, steps: seq<Step>, req: Request)
    ensures var s := Run(cfg, Initial(w), steps);
            && WithinOvershoot(cfg, s.rows, s.totals)
            && match ReserveBatch(cfg, s, req)
               case (t, Won(row)) =>
                 && req.id !in s.rows && t.rows == s.rows[req.id := row]
                 && Fits(cfg, t.totals, DayOf(row)) && Fits(cfg, t.totals, MonthOf(row))
               case (t, _) => t.rows == s.rows
  {
    SoundRun(cfg, w, steps);
    hide Conserved, WithinOvershoot, Priced, GateHolds, EstimateCost;
  }

  // ----- In-estimate usage -----

  /** The records a settlement is priced on. */
  function RecordsOf(r: Row, u: Usage): int {
    Max(1, u.records.GetOr(FinalUnits(r, u)))
  }

  /** Reported usage within the row's attempts times its base estimate. */
  predicate InEstimate(r: Row, u: Usage) {
    && WithinEstimate(r.base, r.maxAttempts, u.inputTokens.GetOr(0), u.outputTokens.GetOr(0), RecordsOf(r, u))
    && (u.actualUnits.Some? ==> u.actualUnits.value <= r.estimatedUnits)
  }

  lemma InEstimateCosts(r: Row, u: Usage)
    requires Priced(r) && InEstimate(r, u)
    ensures FinalUnits(r, u) <= r.estimatedUnits && FinalCost(r, u) <= r.estimatedCost
  {
    var a, i, o := r.maxAttempts, r.base.inputTokens, r.base.outputTokens;
    var inputs, outputs := Max(0, u.inputTokens.GetOr(0)), Max(0, u.outputTokens.GetOr(0));
    ProductNonNegative(a, i, o);
    assert FinalUnits(r, u) <= r.estimatedUnits;
    hide BaseCost, EstimateCost;
    ReservationCoversUsage(r.rate, r.base, a, inputs, outputs, RecordsOf(r, u));
  }

  lemma ProductNonNegative(a: nat, i: nat, o: nat)
    ensures a * i >= 0 && a * o >= 0 && a * i + a * o == (i + o) * a
  {
  }

  /** A step that loads a settlement loads one whose usage is in-estimate. */
  predicate Thrifty(s: State, step: Step) {
    step.LoadStep? && step.finish.Settle? && step.id in s.rows ==> InEstimate(s.rows[step.id], step.finish.usage)
  }

  ghost predicate ThriftyRun(cfg: Config, s: State, steps: seq<Step>) {
    steps != [] ==>
      && ThriftyRun(cfg, s, steps[..|steps| - 1])
      && Thrifty(Run(cfg, s, steps[..|steps| - 1]), steps[|steps| - 1])
  }

  predicate NoOvershoot(s: State) {
    && (forall id :: id in s.rows && s.rows[id].status == Settled ==>
          s.rows[id].actualUnits <= s.rows[id].estimatedUnits && s.rows[id].actualCost <= s.rows[id].estimatedCost)
    && (forall c :: c in s.calls && s.calls[c].Loaded? ==>
          s.calls[c].used <= s.calls[c].stored.estimatedUnits && s.calls[c].cost <= s.calls[c].stored.estimatedCost)
  }

  lemma ThriftyBatch(s: State, call: nat)
    requires call in s.calls && s.calls[call].Loaded? && CallSound(s.rows, s.calls[call]) && NoOvershoot(s)
    ensures NoOvershoot(ApplyBatch(s, call))
  {
  }

  lemma ThriftyReserve(cfg: Config, s: State, req: Request)
    requires NoOvershoot(s)
    ensures NoOvershoot(ReserveBatch(cfg, s, req).0)
  {
    hide GateHolds, Fits, AddReserved, EstimateCost;
    match GoogleRateSnapshot(req.model, EstimateUnits(req.capability, req.inputs).unitClass)
    case Err(_) =>
    case Ok(rate) =>
      var t := InsertAndHold(cfg, s, req, RowFor(req, rate, s.nextToken)).0;
      assert forall id :: id in t.rows && t.rows[id].status == Settled ==> id in s.rows && t.rows[id] == s.rows[id];
  }

  lemma ThriftyLoad(s: State, id: OpId, finish: Finish)
    requires id in s.rows && Priced(s.rows[id])
    requires finish.Settle? ==> InEstimate(s.rows[id], finish.usage)
    ensures var c := Prepare(id, s.rows[id], finish);
            c.used <= c.stored.estimatedUnits && c.cost <= c.stored.estimatedCost
  {
    if finish.Settle? {
      InEstimateCosts(s.rows[id], finish.usage);
    }
  }

  lemma ThriftyInvoke(s: State, id: OpId, expiresAt: int)
    requires NoOvershoot(s) && id in s.rows && s.rows[id].status == Reserved
    ensures NoOvershoot(s.(rows := s.rows[id := s.rows[id].(status := Invoking, expiresAt := expiresAt)]))
  {
  }

  lemma ThriftyScrub(s: State, sel: Selector)
    requires NoOvershoot(s)
    ensures NoOvershoot(Scrub(s, sel))
  {
  }

  lemma ThriftyAside(s: State, t: State, call: nat, c: Call)
    requires NoOvershoot(s) && t.rows == s.rows
    requires t.calls == s.calls || t.calls == s.calls[call := c]
    requires c.Loaded? ==> c.used <= c.stored.estimatedUnits && c.cost <= c.stored.estimatedCost
    ensures NoOvershoot(t)
  {
  }

  lemma ThriftyStep(cfg: Config, s: State, step: Step)
    requires Sound(cfg, s) && NoOvershoot(s) && Thrifty(s, step)
    ensures NoOvershoot(Apply(cfg, s, step))
  {
    var t := Apply(cfg, s, step);
    hide Conserved, WithinOvershoot, InEstimate, Prepare, Priced, NoOvershoot;
    match step
    case ReserveStep(req) => ThriftyReserve(cfg, s, req);
    case LoadStep(call, id, token, finish) =>
      if call !in s.calls && id in s.rows && s.rows[id].attemptToken == token {
        ThriftyLoad(s, id, finish);
        ThriftyAside(s, t, call, Prepare(id, s.rows[id], finish));
      } else {
        ThriftyAside(s, t, call, Absent);
      }
    case BatchStep(call) => if call in s.calls && s.calls[call].Loaded? { ThriftyBatch(s, call); }
    case InvokeStep(id, token, gate, now) =>
      if CanInvoke(s, id, token, gate, now) { ThriftyInvoke(s, id, now + RESERVATION_TTL_MS); }
    case ScrubStep(sel) => ThriftyScrub(s, sel);
    case ReportStep(call) => ThriftyAside(s, t, call, if call in t.calls && call in s.calls && s.calls[call].Committed? then t.calls[call] else Absent);
    case HealthStep(provider, event) => ThriftyAside(s, ApplyHealth(s, provider, event), 0, Absent);
    case OverrideStep(_, _) => ThriftyAside(s, t, 0, Absent);
    case WorldStep(_) => ThriftyAside(s, t, 0, Absent);
  }

  lemma {:induction false} ThriftyRunsNeverOvershoot(cfg: Config, w: World, steps: seq<Step>)
    requires ThriftyRun(cfg, Initial(w), steps)
    ensures NoOvershoot(Run(cfg, Initial(w), steps))
  {
    if steps != [] {
      ThriftyRunsNeverOvershoot(cfg, w, steps[..|steps| - 1]);
      SoundRun(cfg, w, steps[..|steps| - 1]);
      ThriftyStep(cfg, Run(cfg, Initial(w), steps[..|steps| - 1]), steps[|steps| - 1]);
    }
  }

  /** If every settlement stays within its estimate, no bucket ever passes its ceiling. */
  lemma InEstimateRunsRespectCeilings(cfg: Config, w: World, steps: seq<Step>, k: BucketKey)
    requires ThriftyRun(cfg, Initial(w), steps)
    ensures Fits(cfg, Run(cfg, Initial(w), steps).totals, k)
  {
    SoundRun(cfg, w, steps);
    ThriftyRunsNeverOvershoot(cfg, w, steps);
    TotalOfNothing(Run(cfg, Initial(w), steps).rows, Overshoot, k);
  }

  // ----- When a ceiling is passed -----

  /** What bucket `k` gains when the call's row gives its estimate back and books `used`
      units and `cost` instead. */
  function Growth(c: Call, k: BucketKey): int
    requires c.Loaded?
  {
    if k == DayOf(c.stored) then c.used - c.stored.estimatedUnits
    else if k == MonthOf(c.stored) then c.cost - c.stored.estimatedCost
    else 0
  }

  /** The settlement about to be booked would outgrow what is left under the ceiling. */
  predicate Outgrows(cfg: Config, s: State, step: Step, k: BucketKey) {
    && step.BatchStep? && step.call in s.calls && s.calls[step.call].Loaded?
    && s.calls[step.call].to == Settled && Wins(s, s.calls[step.call])
    && Growth(s.calls[step.call], k) > Ceiling(cfg, k) - BucketOf(s.totals, k).used - BucketOf(s.totals, k).reserved
  }

  lemma BatchBreaksExactly(cfg: Config, s: State, call: nat, k: BucketKey)
    requires Sound(cfg, s) && call in s.calls && s.calls[call].Loaded? && Fits(cfg, s.totals, k)
    ensures Fits(cfg, ApplyBatch(s, call).totals, k) <==> !Outgrows(cfg, s, BatchStep(call), k)
  {
    var c := s.calls[call];
    assert CallSound(s.rows, c);
    if Wins(s, c) {
      WinnerIsFunded(s, c);
      BatchGrows(s, call, k);
    }
    hide Conserved, WithinOvershoot, Priced, Ceiling, ApplyBatch, MoveMoney;
  }

  lemma BatchGrows(s: State, call: nat, k: BucketKey)
    requires call in s.calls && s.calls[call].Loaded? && Wins(s, s.calls[call]) && !Drifted(s, s.calls[call])
    ensures var b, b' := BucketOf(s.totals, k), BucketOf(ApplyBatch(s, call).totals, k);
            b'.used + b'.reserved == b.used + b.reserved + Growth(s.calls[call], k)
  {
  }

  lemma ReserveStaysWithin(cfg: Config, s: State, req: Request, k: BucketKey)
    requires Fits(cfg, s.totals, k)
    ensures Fits(cfg, ReserveBatch(cfg, s, req).0.totals, k)
  {
    hide GateHolds, EstimateCost, EstimateUnits, BaseCost, Ceiling;
    match GoogleRateSnapshot(req.model, EstimateUnits(req.capability, req.inputs).unitClass)
    case Err(_) =>
    case Ok(rate) =>
      var row := RowFor(req, rate, s.nextToken);
      InsertStaysWithin(cfg, s, req, row, k);
  }

  lemma InsertStaysWithin(cfg: Config, s: State, req: Request, row: Row, k: BucketKey)
    requires Fits(cfg, s.totals, k)
    ensures Fits(cfg, InsertAndHold(cfg, s, req, row).0.totals, k)
  {
    hide GateHolds, Ceiling;
    var t := InsertAndHold(cfg, s, req, row).0;
    assert k == DayOf(row) || k == MonthOf(row) || BucketOf(t.totals, k) == BucketOf(s.totals, k);
  }

  /** In any reachable state, a step takes a bucket from within its ceiling to past it
      exactly when it is the winning batch of a settlement whose charge exceeds its
      estimate by more than the bucket has left - which can be read off the row, the
      reported usage and the bucket before the batch. */
  lemma CeilingIsPassedExactly(cfg: Config, w: World, steps: seq<Step>, step: Step, k: BucketKey)
    requires Fits(cfg, Run(cfg, Initial(w), steps).totals, k)
    ensures var s := Run(cfg, Initial(w), steps);
            !Fits(cfg, Apply(cfg, s, step).totals, k) <==> Outgrows(cfg, s, step, k)
  {
    SoundRun(cfg, w, steps);
    var s := Run(cfg, Initial(w), steps);
    hide Sound, Run, Outgrows, Fits, ReserveBatch, ApplyBatch, CanInvoke;
    assert Outgrows(cfg, s, step, k) ==> step.BatchStep? && step.call in s.calls && s.calls[step.call].Loaded? by {
      OutgrowsMeansBatch(cfg, s, step, k);
    }
    match step
    case BatchStep(call) => if call in s.calls && s.calls[call].Loaded? { BatchBreaksExactly(cfg, s, call, k); }
    case ReserveStep(req) => ReserveStaysWithin(cfg, s, req, k);
    case _ =>
  }

  /** A bucket stays within its ceiling all along a run exactly when no step of the run
      is such a settlement. */
  lemma {:induction false} CeilingsHoldExactly(cfg: Config, w: World, steps: seq<Step>, k: BucketKey)
    ensures (forall i :: 0 <= i <= |steps| ==> Fits(cfg, Run(cfg, Initial(w), steps[..i]).totals, k))
            <==> (forall i :: 0 <= i < |steps| ==> !Outgrows(cfg, Run(cfg, Initial(w), steps[..i]), steps[i], k))
  {
    hide Fits, Outgrows, Apply;
    assert Fits(cfg, Run(cfg, Initial(w), steps[..0]).totals, k) by { NothingFits(cfg, w, k); }
    forall i | 0 <= i < |steps| && Fits(cfg, Run(cfg, Initial(w), steps[..i]).totals, k)
      ensures Fits(cfg, Run(cfg, Initial(w), steps[..i + 1]).totals, k) <==> !Outgrows(cfg, Run(cfg, Initial(w), steps[..i]), steps[i], k)
    {
      CeilingIsPassedExactly(cfg, w, steps[..i], steps[i], k);
      assert steps[..i + 1][..i] == steps[..i];
    }
    hide Run, Initial;
    if forall i :: 0 <= i < |steps| ==> !Outgrows(cfg, Run(cfg, Initial(w), steps[..i]), steps[i], k) {
      StaysFitting(cfg, w, steps, k, |steps|);
    } else {
      var i :| 0 <= i < |steps| && Outgrows(cfg, Run(cfg, Initial(w), steps[..i]), steps[i], k);
      assert Fits(cfg, Run(cfg, Initial(w), steps[..i]).totals, k) ==> !Fits(cfg, Run(cfg, Initial(w), steps[..i + 1]).totals, k);
    }
  }

  lemma NothingFits(cfg: Config, w: World, k: BucketKey)
    ensures Fits(cfg, Run(cfg, Initial(w), []).totals, k)
  {
  }

  lemma {:induction false} StaysFitting(cfg: Config, w: World, steps: seq<Step>, k: BucketKey, n: nat)
    requires n <= |steps| && Fits(cfg, Run(cfg, Initial(w), steps[..0]).totals, k)
    requires forall i :: 0 <= i < |steps| && Fits(cfg, Run(cfg, Initial(w), steps[..i]).totals, k) ==>
               Fits(cfg, Run(cfg, Initial(w), steps[..i + 1]).totals, k)
    ensures forall i :: 0 <= i <= n ==> Fits(cfg, Run(cfg, Initial(w), steps[..i]).totals, k)
  {
    hide Fits, Run, Initial;
    if n > 0 {
      var m := n - 1;
      StaysFitting(cfg, w, steps, k, m);
      assert Fits(cfg, Run(cfg, Initial(w), steps[..m]).totals, k);
      assert Fits(cfg, Run(cfg, Initial(w), steps[..m + 1]).totals, k);
    }
  }

  lemma OutgrowsMeansBatch(cfg: Config, s: State, step: Step, k: BucketKey)
    ensures Outgrows(cfg, s, step, k) ==> step.BatchStep? && step.call in s.calls && s.calls[step.call].Loaded?
  {
  }

  // ----- Overshoot happens -----

  lemma RunOne(cfg: Config, s: State, step: Step)
    ensures Run(cfg, s, [step]) == Apply(cfg, s, step)
  {
    hide Apply;
    assert [step][..0] == [];
    assert Run(cfg, s, [step][..0]) == s;
  }

  lemma RerankOfOne(cfg: Config, w: World, req: Request)
    requires cfg == Config(10, 10, 10, 1_000_000)
    requires req.model == None && req.provider == GOOGLE && req.capability == "rerank" && req.inputs.contexts == Some(1) && req.maxAttempts == 1 && req.gate == None
    ensures var (t, outcome) := ReserveBatch(cfg, Initial(w), req);
            outcome.Won? && outcome.row.expiresAt == req.now + RESERVATION_TTL_MS && t.calls == map[]
  {
    RerankRate();
    RerankPrice(GoogleRateSnapshot(None, RankUnits).value, req);
    hide GoogleRateSnapshot, BaseCost;
    var rate := GoogleRateSnapshot(None, RankUnits).value;
    var row := RowFor(req, rate, 0);
    assert row.estimatedUnits == 1 && row.estimatedCost == 1_000;
    assert InsertAndHold(cfg, Initial(w), req, row).1 == Won(row);
  }

  lemma RerankRate()
    ensures var rate := GoogleRateSnapshot(None, RankUnits); rate.Ok? && rate.value.unitClass == RankUnits && rate.value.rankPer100 == 1_000
  {
    SnapshotPricesItsOwnClass(None, RankUnits);
  }

  lemma RerankPrice(rate: RateSnapshot, req: Request)
    requires rate.unitClass == RankUnits && rate.rankPer100 == 1_000
    requires req.capability == "rerank" && req.inputs.contexts == Some(1)
    ensures var est := EstimateUnits(req.capability, req.inputs); est == Estimate(RankUnits, 1, 0, 0) && BaseCost(rate, est) == 1_000
  {
  }

  /** The run: reserve one rerank, invoke it, and settle it at a hundred units. */
  function OvershootRun(req: Request): seq<Step> {
    [ReserveStep(req), InvokeStep(req.id, 0, None, 0),
     LoadStep(0, req.id, 0, Settle(Usage(None, None, None, Some(100)))), BatchStep(0)]
  }

  predicate IsProbeOfOne(req: Request) {
    && req.model == None && req.provider == GOOGLE && req.capability == "rerank" && req.inputs.contexts == Some(1)
    && req.maxAttempts == 1 && req.gate == None && req.now == 0 && ExemptShape(req.lifecycle)
  }

  lemma RunFour(cfg: Config, s: State, steps: seq<Step>)
    requires |steps| == 4
    ensures Run(cfg, s, steps) == Apply(cfg, Run(cfg, s, steps[..3]), steps[3])
  {
  }

  /** Reserved, invoked, and the settlement loaded. */
  function ReadyToSettle(cfg: Config, w: World, req: Request): State {
    var s2 := Apply(cfg, ReserveBatch(cfg, Initial(w), req).0, InvokeStep(req.id, 0, None, 0));
    Apply(cfg, s2, LoadStep(0, req.id, 0, Settle(Usage(None, None, None, Some(100)))))
  }

  lemma SettlementIsLoaded(cfg: Config, w: World, req: Request) returns (row: Row)
    requires cfg == Config(10, 10, 10, 1_000_000) && IsProbeOfOne(req)
    ensures var s3 := ReadyToSettle(cfg, w, req);
            && 0 in s3.calls && s3.calls[0].Loaded? && s3.calls[0].used == 100 && s3.calls[0].id == req.id
            && Wins(s3, s3.calls[0])
            && DayOf(s3.calls[0].stored) == DayOf(row) && row.rate.unitClass == RankUnits
            && DayOf(row) in s3.totals && s3.totals[DayOf(row)].used == 0
  {
    var s0 := Initial(w);
    RerankOfOne(cfg, w, req);
    var s1 := ReserveBatch(cfg, s0, req).0;
    row := ReserveBatch(cfg, s0, req).1.row;
    assert s1.rows == map[req.id := row] && row.attemptToken == 0 && row.rate.unitClass == RankUnits;
    assert DayOf(row) in s1.totals && s1.totals[DayOf(row)].used == 0;
    hide ReserveBatch, EstimateCost;
    var s2 := Apply(cfg, s1, InvokeStep(req.id, 0, None, 0));
    assert s2.rows[req.id].status == Invoking;
  }

  lemma OvershootPasses(cfg: Config, w: World, req: Request)
    requires cfg == Config(10, 10, 10, 1_000_000) && IsProbeOfOne(req)
    ensures var totals := Run(cfg, Initial(w), OvershootRun(req)).totals;
            exists k :: k in totals && totals[k].used == 100 && Ceiling(cfg, k) == 10
  {
    var row := SettlementIsLoaded(cfg, w, req);
    OvershootRuns(cfg, w, req);
    var s3 := ReadyToSettle(cfg, w, req);
    hide ReadyToSettle, Run, Conserved, OvershootRun;
    var s4 := Apply(cfg, s3, BatchStep(0));
    assert s4.totals[DayOf(row)].used == 100;
  }

  lemma OvershootRuns(cfg: Config, w: World, req: Request)
    requires cfg == Config(10, 10, 10, 1_000_000) && IsProbeOfOne(req)
    ensures var s3 := ReadyToSettle(cfg, w, req);
            && Run(cfg, Initial(w), OvershootRun(req)) == Apply(cfg, s3, BatchStep(0))
            && (0 in s3.calls && s3.calls[0].Loaded? && Wins(s3, s3.calls[0]) ==> !Drifted(s3, s3.calls[0]))
  {
    var steps := OvershootRun(req);
    RunFour(cfg, Initial(w), steps);
    RunThree(cfg, Initial(w), steps[..3]);
    var s3 := ReadyToSettle(cfg, w, req);
    assert s3 == Run(cfg, Initial(w), steps[..3]);
    hide ReadyToSettle, Run, Conserved, Apply;
    if 0 in s3.calls && s3.calls[0].Loaded? && Wins(s3, s3.calls[0]) { DriftPoisonNeverFires(cfg, w, steps[..3], 0); }
  }

  lemma RunThree(cfg: Config, s: State, steps: seq<Step>)
    requires |steps| == 3
    ensures Run(cfg, s, steps) == Apply(cfg, Apply(cfg, Apply(cfg, s, steps[0]), steps[1]), steps[2])
  {
    hide Apply;
    assert steps[..3][..2] == steps[..2] && steps[..2][..1] == steps[..1] && steps[..1][..0] == [];
    assert steps[..3] == steps;
    assert Run(cfg, s, steps[..1]) == Apply(cfg, s, steps[0]);
    assert Run(cfg, s, steps[..2]) == Apply(cfg, Run(cfg, s, steps[..1]), steps[1]);
  }

  /** The ceiling alone is no invariant: reported usage above the estimate is booked. */
  lemma CeilingCanBePassed()
    ensures exists cfg: Config, w: World, steps: seq<Step>, k ::
              !Fits(cfg, Run(cfg, Initial(w), steps).totals, k)
  {
    var cfg := Config(10, 10, 10, 1_000_000);
    var w := World(map[], {}, map[], {}, {}, {}, {});
    var probe := Lifecycle(None, None, None, None, None, Some("provider_health"), Some("p"), true);
    var req := Request(Explicit("op"), GOOGLE, None, "rerank", Inputs(Some(1), None, None), 1, probe, None, "d", "m", 0);
    OvershootPasses(cfg, w, req);
    var totals := Run(cfg, Initial(w), OvershootRun(req)).totals;
    var k :| k in totals && totals[k].used == 100 && Ceiling(cfg, k) == 10;
    LedgerConservation(cfg, w, OvershootRun(req));
    hide Run, OvershootRun, Total;
    assert BucketOf(totals, k).reserved >= 0;
    assert !Fits(cfg, totals, k);
  }
}

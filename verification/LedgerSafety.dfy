/** Who may invoke, who may settle, and what a deletion fence stops: safety of the
    reservation state machine over every interleaving. */
module LedgerSafety {
  import opened Wrappers
  import opened RateCards
  import opened Ledger
  import opened LedgerMoney

  // ----- How one row evolves -----

  function Rank(st: Status): nat {
    match st
    case Reserved => 0
    case Invoking => 1
    case _ => 2
  }

  /** A row is never deleted or re-admitted, its status only moves forward, and a
      terminal row keeps its verdict, its winner and its charge. */
  predicate Evolves(r: Row, r': Row) {
    && SamePrice(r', r)
    && Rank(r.status) <= Rank(r'.status)
    && (!Active(r) ==> r'.status == r.status && r'.settleToken == r.settleToken
                       && r'.actualUnits == r.actualUnits && r'.actualCost == r.actualCost)
  }

  ghost predicate RowsEvolve(s: State, t: State) {
    forall id :: id in s.rows ==> id in t.rows && Evolves(s.rows[id], t.rows[id])
  }

  lemma BatchEvolves(s: State, call: nat)
    requires call in s.calls && s.calls[call].Loaded? && CallSound(s.rows, s.calls[call])
    ensures RowsEvolve(s, ApplyBatch(s, call))
  {
  }

  lemma InvokeEvolves(s: State, id: OpId, expiresAt: int)
    requires id in s.rows && s.rows[id].status == Reserved
    ensures RowsEvolve(s, s.(rows := s.rows[id := s.rows[id].(status := Invoking, expiresAt := expiresAt)]))
  {
  }

  lemma ScrubEvolves(s: State, sel: Selector)
    ensures RowsEvolve(s, Scrub(s, sel))
  {
  }

  lemma InsertEvolves(s: State, t: State)
    requires forall id :: id in s.rows ==> id in t.rows && t.rows[id] == s.rows[id]
    ensures RowsEvolve(s, t)
  {
  }

  lemma RowsEvolveInStep(cfg: Config, s: State, step: Step)
    requires forall c :: c in s.calls ==> CallSound(s.rows, s.calls[c])
    ensures RowsEvolve(s, Apply(cfg, s, step))
  {
    hide RowsEvolve;
    match step
    case ReserveStep(req) =>
      ReserveInsertsOnly(cfg, s, req);
      InsertEvolves(s, ReserveBatch(cfg, s, req).0);
    case BatchStep(call) =>
      if call in s.calls && s.calls[call].Loaded? { BatchEvolves(s, call); } else { InsertEvolves(s, s); }
    case InvokeStep(id, token, gate, now) =>
      if CanInvoke(s, id, token, gate, now) { InvokeEvolves(s, id, now + RESERVATION_TTL_MS); } else { InsertEvolves(s, s); }
    case ScrubStep(sel) => ScrubEvolves(s, sel);
    case LoadStep(_, _, _, _) => InsertEvolves(s, Apply(cfg, s, step));
    case ReportStep(_) => InsertEvolves(s, Apply(cfg, s, step));
    case HealthStep(provider, event) => InsertEvolves(s, ApplyHealth(s, provider, event));
    case OverrideStep(_, _) => InsertEvolves(s, Apply(cfg, s, step));
    case WorldStep(_) => InsertEvolves(s, Apply(cfg, s, step));
  }

  lemma ReserveInsertsOnly(cfg: Config, s: State, req: Request)
    ensures var (t, outcome) := ReserveBatch(cfg, s, req);
            && t.calls == s.calls && t.world == s.world && t.nextToken >= s.nextToken
            && match outcome
               case Won(row) => && t.nextToken == s.nextToken + 1 && req.id !in s.rows && t.rows == s.rows[req.id := row]
                                && row.status == Reserved && row.settleToken.None?
                                && row.attemptToken == s.nextToken && row.lifecycle == row.admitted == req.lifecycle
                                && row.provider == req.provider
               case _ => t.rows == s.rows
  {
    match GoogleRateSnapshot(req.model, EstimateUnits(req.capability, req.inputs).unitClass)
    case Err(_) =>
    case Ok(rate) => var row := RowFor(req, rate, s.nextToken);
  }

  lemma {:induction false} RowsEvolveInRun(cfg: Config, w: World, before: seq<Step>, after: seq<Step>)
    ensures RowsEvolve(Run(cfg, Initial(w), before), Run(cfg, Initial(w), before + after))
  {
    if after == [] {
      assert before + after == before;
    } else {
      var front := after[..|after| - 1];
      RowsEvolveInRun(cfg, w, before, front);
      assert (before + after)[..|before + after| - 1] == before + front;
      SoundRun(cfg, w, before + front);
      RowsEvolveInStep(cfg, Run(cfg, Initial(w), before + front), after[|after| - 1]);
    }
  }

  // ----- One invocation, one settlement -----

  function StateAt(cfg: Config, w: World, steps: seq<Step>, i: nat): State
    requires i <= |steps|
  {
    Run(cfg, Initial(w), steps[..i])
  }

  predicate Invokes(s: State, step: Step, id: OpId) {
    step.InvokeStep? && step.id == id && CanInvoke(s, id, step.token, step.gate, step.now)
  }

  predicate Closes(cfg: Config, s: State, step: Step, id: OpId) {
    && id in s.rows && Active(s.rows[id])
    && var t := Apply(cfg, s, step); id in t.rows && !Active(t.rows[id])
  }

  lemma LaterRows(cfg: Config, w: World, steps: seq<Step>, i: nat, j: nat)
    requires i < j < |steps|
    ensures RowsEvolve(Apply(cfg, StateAt(cfg, w, steps, i), steps[i]), StateAt(cfg, w, steps, j))
  {
    assert steps[..i + 1][..i] == steps[..i];
    RowsEvolveInRun(cfg, w, steps[..i + 1], steps[i + 1..j]);
    assert steps[..i + 1] + steps[i + 1..j] == steps[..j];
  }

  /** Over any run, an operation id is taken from reserved to invoking at most once,
      and from active to terminal at most once. */
  lemma SingleInvocationSingleSettlement(cfg: Config, w: World, steps: seq<Step>, i: nat, j: nat, id: OpId)
    requires i < j < |steps|
    ensures !(Invokes(StateAt(cfg, w, steps, i), steps[i], id) && Invokes(StateAt(cfg, w, steps, j), steps[j], id))
    ensures !(Closes(cfg, StateAt(cfg, w, steps, i), steps[i], id) && Closes(cfg, StateAt(cfg, w, steps, j), steps[j], id))
    ensures !(Closes(cfg, StateAt(cfg, w, steps, i), steps[i], id) && Invokes(StateAt(cfg, w, steps, j), steps[j], id))
  {
    LaterRows(cfg, w, steps, i, j);
  }

  /** What a step does to the money, seen from the rows it closes. */
  ghost predicate MoneyFollowsRows(s: State, t: State) {
    && (forall id, k :: id in s.rows && Active(s.rows[id]) && id in t.rows && !Active(t.rows[id]) ==>
          && BucketOf(t.totals, k).used - BucketOf(s.totals, k).used == Weight(Spent, k, t.rows[id])
          && BucketOf(s.totals, k).reserved - BucketOf(t.totals, k).reserved == Weight(Held, k, s.rows[id]))
    && ((forall id :: id in s.rows && Active(s.rows[id]) ==> id in t.rows && Active(t.rows[id])) ==> t.totals == s.totals)
  }

  lemma BatchMovesItsRow(s: State, call: nat)
    requires Conserved(s.rows, s.totals)
    requires call in s.calls && s.calls[call].Loaded? && CallSound(s.rows, s.calls[call])
    ensures MoneyFollowsRows(s, ApplyBatch(s, call))
  {
    var c := s.calls[call];
    if Wins(s, c) {
      WinnerIsFunded(s, c);
      var t := ApplyBatch(s, call);
      assert !Active(t.rows[c.id]);
    }
  }

  lemma NothingCloses(s: State, t: State)
    requires t.totals == s.totals
    requires forall id :: id in s.rows && Active(s.rows[id]) ==> id in t.rows && Active(t.rows[id])
    ensures MoneyFollowsRows(s, t)
  {
  }

  /** Outside a reserve, money moves only when a row closes, and a closing row moves
      exactly its own estimate out and its own charge in. */
  lemma MoneyMovesOnlyWithItsRow(cfg: Config, w: World, steps: seq<Step>, step: Step)
    requires !step.ReserveStep?
    ensures var s := Run(cfg, Initial(w), steps); MoneyFollowsRows(s, Apply(cfg, s, step))
  {
    SoundRun(cfg, w, steps);
    var s := Run(cfg, Initial(w), steps);
    hide Sound, Conserved, MoneyFollowsRows, CallSound;
    match step
    case BatchStep(call) =>
      if call in s.calls && s.calls[call].Loaded? {
        SoundCall(cfg, s, call);
        BatchMovesItsRow(s, call);
      } else {
        NothingCloses(s, s);
      }
    case InvokeStep(_, _, _, _) => NothingCloses(s, Apply(cfg, s, step));
    case ScrubStep(sel) => NothingCloses(s, Scrub(s, sel));
    case HealthStep(provider, event) => NothingCloses(s, ApplyHealth(s, provider, event));
    case LoadStep(_, _, _, _) => NothingCloses(s, Apply(cfg, s, step));
    case ReportStep(_) => NothingCloses(s, Apply(cfg, s, step));
    case OverrideStep(_, _) => NothingCloses(s, Apply(cfg, s, step));
    case WorldStep(_) => NothingCloses(s, Apply(cfg, s, step));
  }

  lemma SoundCall(cfg: Config, s: State, call: nat)
    requires Sound(cfg, s) && call in s.calls
    ensures Conserved(s.rows, s.totals) && CallSound(s.rows, s.calls[call])
  {
  }

  // ----- Exactly one caller reports applied -----

  predicate HasToken(c: Call) {
    c.Committed? || c.Done?
  }

  predicate IsWinner(s: State, call: nat, id: OpId) {
    && call in s.calls && HasToken(s.calls[call]) && s.calls[call].id == id
    && id in s.rows && s.rows[id].settleToken == Some(s.calls[call].token)
  }

  /** A row is terminal exactly when it names a winner, and that winner is a call. */
  ghost predicate RowsAttributed(s: State) {
    forall id :: id in s.rows ==>
      && (s.rows[id].settleToken.Some? <==> !Active(s.rows[id]))
      && (s.rows[id].settleToken.Some? ==> s.rows[id].settleToken.value < s.nextToken && exists c :: IsWinner(s, c, id))
  }

  /** Settle tokens are fresh and never shared between calls. */
  ghost predicate TokensDistinct(s: State) {
    && (forall c :: c in s.calls && HasToken(s.calls[c]) ==> s.calls[c].token < s.nextToken && s.calls[c].id in s.rows)
    && (forall c, d :: c in s.calls && d in s.calls && c != d && HasToken(s.calls[c]) && HasToken(s.calls[d])
                       ==> s.calls[c].token != s.calls[d].token)
  }

  /** A winner intended the verdict the row has, and reports say `applied` exactly
      for winners. */
  ghost predicate VerdictsTrue(s: State) {
    forall c :: c in s.calls && HasToken(s.calls[c]) ==>
      && (IsWinner(s, c, s.calls[c].id) ==> s.calls[c].to == s.rows[s.calls[c].id].status)
      && (s.calls[c].Done? ==> (s.calls[c].applied <==> IsWinner(s, c, s.calls[c].id)))
  }

  ghost predicate Attributed(s: State) {
    RowsAttributed(s) && TokensDistinct(s) && VerdictsTrue(s)
  }

  lemma AttributedBatch(s: State, call: nat)
    requires Conserved(s.rows, s.totals) && Attributed(s)
    requires call in s.calls && s.calls[call].Loaded? && CallSound(s.rows, s.calls[call])
    ensures Attributed(ApplyBatch(s, call))
  {
    var c := s.calls[call];
    var t := ApplyBatch(s, call);
    if Wins(s, c) {
      WinnerIsFunded(s, c);
      WinningBatch(s, call);
    } else {
      forall id | id in t.rows && t.rows[id].settleToken.Some? ensures exists d :: IsWinner(t, d, id) {
        var d :| IsWinner(s, d, id);
        assert IsWinner(t, d, id);
      }
      assert forall d :: d in s.calls && d != call && HasToken(s.calls[d]) ==> (IsWinner(t, d, s.calls[d].id) <==> IsWinner(s, d, s.calls[d].id));
    }
  }

  /** What a winning batch does to the attribution of rows and calls. */
  lemma WinningBatch(s: State, call: nat)
    requires Attributed(s) && call in s.calls && s.calls[call].Loaded? && CallSound(s.rows, s.calls[call])
    requires Wins(s, s.calls[call]) && !Drifted(s, s.calls[call])
    ensures Attributed(ApplyBatch(s, call))
  {
    var c := s.calls[call];
    var t := ApplyBatch(s, call);
    var r' := t.rows[c.id];
    var c' := Committed(c.id, c.to, s.nextToken);
    WinnerAttributed(s, t, call, c.id, r', c');
  }

  lemma WinnerAttributed(s: State, t: State, call: nat, id: OpId, r': Row, c': Call)
    requires Attributed(s)
    requires call in s.calls && !HasToken(s.calls[call]) && id in s.rows && Active(s.rows[id])
    requires c' == Committed(id, r'.status, s.nextToken) && r'.settleToken == Some(s.nextToken) && !Active(r')
    requires t.rows == s.rows[id := r'] && t.calls == s.calls[call := c'] && t.nextToken == s.nextToken + 1
    ensures Attributed(t)
  {
    assert IsWinner(t, call, id);
    forall j | j in t.rows && t.rows[j].settleToken.Some? ensures exists d :: IsWinner(t, d, j) {
      if j != id {
        var d :| IsWinner(s, d, j);
        assert IsWinner(t, d, j);
      }
    }
    forall d | d in t.calls && d != call && HasToken(t.calls[d])
      ensures IsWinner(t, d, t.calls[d].id) <==> IsWinner(s, d, s.calls[d].id)
    {
    }
  }

  /** A step that touches no settle token, no verdict and no call with a token. */
  ghost predicate KeepsVerdicts(s: State, t: State) {
    && t.nextToken >= s.nextToken
    && (forall id :: id in s.rows ==>
          && id in t.rows && t.rows[id].settleToken == s.rows[id].settleToken
          && Active(t.rows[id]) == Active(s.rows[id]) && (!Active(s.rows[id]) ==> t.rows[id].status == s.rows[id].status))
    && (forall id :: id in t.rows && id !in s.rows ==> t.rows[id].settleToken.None? && Active(t.rows[id]))
    && (forall c :: c in s.calls && HasToken(s.calls[c]) ==> c in t.calls && t.calls[c] == s.calls[c])
    && (forall c :: c in t.calls && HasToken(t.calls[c]) ==> c in s.calls && HasToken(s.calls[c]))
  }

  lemma AttributedAside(s: State, t: State)
    requires Attributed(s) && KeepsVerdicts(s, t)
    ensures Attributed(t)
  {
    forall id | id in t.rows && t.rows[id].settleToken.Some? ensures exists d :: IsWinner(t, d, id) {
      var d :| IsWinner(s, d, id);
      assert IsWinner(t, d, id);
    }
    forall c | c in t.calls && HasToken(t.calls[c])
      ensures IsWinner(t, c, t.calls[c].id) <==> IsWinner(s, c, s.calls[c].id)
    {
    }
  }

  lemma AttributedReport(s: State, call: nat)
    requires Attributed(s) && call in s.calls && s.calls[call].Committed?
    ensures var c := s.calls[call];
            Attributed(s.(calls := s.calls[call := Done(c.id, c.to, c.token, ReportsApplied(s, c))]))
  {
    var c := s.calls[call];
    var t := s.(calls := s.calls[call := Done(c.id, c.to, c.token, ReportsApplied(s, c))]);
    assert forall d, id :: IsWinner(t, d, id) <==> IsWinner(s, d, id);
    forall id | id in t.rows && t.rows[id].settleToken.Some? ensures exists d :: IsWinner(t, d, id) {
      var d :| IsWinner(s, d, id);
      assert IsWinner(t, d, id);
    }
  }

  lemma InvokeKeepsVerdicts(s: State, id: OpId, expiresAt: int)
    requires id in s.rows && s.rows[id].status == Reserved
    ensures KeepsVerdicts(s, s.(rows := s.rows[id := s.rows[id].(status := Invoking, expiresAt := expiresAt)]))
  {
  }

  lemma ScrubKeepsVerdicts(s: State, sel: Selector)
    ensures KeepsVerdicts(s, Scrub(s, sel))
  {
  }

  lemma ReserveKeepsVerdicts(cfg: Config, s: State, req: Request)
    ensures KeepsVerdicts(s, ReserveBatch(cfg, s, req).0)
  {
    ReserveInsertsOnly(cfg, s, req);
  }

  lemma LoadKeepsVerdicts(s: State, t: State, call: nat, c: Call)
    requires t.rows == s.rows && t.nextToken >= s.nextToken && !HasToken(c)
    requires t.calls == s.calls || (call !in s.calls && t.calls == s.calls[call := c])
    ensures KeepsVerdicts(s, t)
  {
  }

  lemma KeepsVerdictsStep(cfg: Config, s: State, step: Step)
    requires !step.BatchStep? && !step.ReportStep?
    ensures KeepsVerdicts(s, Apply(cfg, s, step))
  {
    var t := Apply(cfg, s, step);
    hide KeepsVerdicts;
    match step
    case ReserveStep(req) => ReserveKeepsVerdicts(cfg, s, req);
    case InvokeStep(id, token, gate, now) =>
      if CanInvoke(s, id, token, gate, now) { InvokeKeepsVerdicts(s, id, now + RESERVATION_TTL_MS); }
      else { LoadKeepsVerdicts(s, s, 0, Absent); }
    case ScrubStep(sel) => ScrubKeepsVerdicts(s, sel);
    case LoadStep(call, _, _, _) => LoadKeepsVerdicts(s, t, call, if call in t.calls && call !in s.calls then t.calls[call] else Absent);
    case HealthStep(provider, event) => LoadKeepsVerdicts(s, ApplyHealth(s, provider, event), 0, Absent);
    case OverrideStep(_, _) => LoadKeepsVerdicts(s, t, 0, Absent);
    case WorldStep(_) => LoadKeepsVerdicts(s, t, 0, Absent);
  }

  lemma AttributedStep(cfg: Config, s: State, step: Step)
    requires Sound(cfg, s) && Attributed(s)
    ensures Attributed(Apply(cfg, s, step))
  {
    hide Sound, Attributed;
    if step.BatchStep? {
      if step.call in s.calls && s.calls[step.call].Loaded? {
        SoundCall(cfg, s, step.call);
        AttributedBatch(s, step.call);
      }
    } else if step.ReportStep? {
      if step.call in s.calls && s.calls[step.call].Committed? {
        AttributedReport(s, step.call);
      }
    } else {
      KeepsVerdictsStep(cfg, s, step);
      AttributedAside(s, Apply(cfg, s, step));
    }
  }

  lemma {:induction false} AttributedRun(cfg: Config, w: World, steps: seq<Step>)
    ensures var s := Run(cfg, Initial(w), steps); Attributed(s)
  {
    if steps != [] {
      AttributedRun(cfg, w, steps[..|steps| - 1]);
      SoundRun(cfg, w, steps[..|steps| - 1]);
      AttributedStep(cfg, Run(cfg, Initial(w), steps[..|steps| - 1]), steps[|steps| - 1]);
    }
  }

  /** Among any number of concurrent finishers and reapers: every terminal row was
      closed by exactly one call, and of the calls that have reported, only that one
      says `applied`. */
  lemma ExactlyOneApplied(cfg: Config, w: World, steps: seq<Step>, id: OpId)
    ensures var s := Run(cfg, Initial(w), steps);
            id in s.rows && !Active(s.rows[id]) ==>
              && (exists c :: IsWinner(s, c, id))
              && (forall c, d :: IsWinner(s, c, id) && IsWinner(s, d, id) ==> c == d)
              && (forall c :: c in s.calls && s.calls[c].Done? && s.calls[c].id == id ==> (s.calls[c].applied <==> IsWinner(s, c, id)))
    ensures var s := Run(cfg, Initial(w), steps);
            forall c :: c in s.calls && s.calls[c].Done? && s.calls[c].applied ==>
              s.calls[c].id in s.rows && s.rows[s.calls[c].id].status == s.calls[c].to
  {
    AttributedRun(cfg, w, steps);
  }

  // ----- The deletion fence -----

  /** A row carries the lifecycle it was admitted with, or was scrubbed of it while
      not invoking and can never invoke; and nothing of Google's invokes without a
      complete lifecycle. */
  predicate LifecycleKept(r: Row) {
    && (r.lifecycle == r.admitted || (r.lifecycle == SCRUBBED && (r.provider == GOOGLE ==> r.status != Invoking)))
    && (r.provider == GOOGLE && r.status == Invoking ==> TenantShape(r.lifecycle) || ExemptShape(r.lifecycle))
  }

  ghost predicate LifecyclesKept(s: State) {
    forall id :: id in s.rows ==> LifecycleKept(s.rows[id])
  }

  lemma LifecyclesKeptStep(cfg: Config, s: State, step: Step)
    requires LifecyclesKept(s)
    requires forall c :: c in s.calls ==> CallSound(s.rows, s.calls[c])
    ensures LifecyclesKept(Apply(cfg, s, step))
  {
    var t := Apply(cfg, s, step);
    if step.ReserveStep? {
      ReserveInsertsOnly(cfg, s, step.req);
    } else {
      forall id | id in t.rows ensures LifecycleKept(t.rows[id]) {
        OneRowStep(cfg, s, step, id);
      }
    }
  }

  predicate RowStepped(s: State, step: Step, r: Row, r': Row) {
    || r' == r
    || (r.status == Reserved && r' == r.(status := Invoking, expiresAt := r'.expiresAt)
        && LifecycleAdmits(s.world, r.provider, r.lifecycle)
        && step.InvokeStep? && r.expiresAt >= step.now)
    || (Active(r) && !Active(r') && r'.lifecycle == r.lifecycle && SamePrice(r', r) && r'.provider == r.provider)
    || (r.provider == GOOGLE && r.status != Invoking && r' == r.(lifecycle := SCRUBBED))
  }

  lemma BatchSteps(s: State, step: Step, call: nat, id: OpId)
    requires call in s.calls && s.calls[call].Loaded? && CallSound(s.rows, s.calls[call])
    ensures var t := ApplyBatch(s, call);
            && t.rows.Keys == s.rows.Keys && t.world == s.world
            && (id in s.rows ==> RowStepped(s, step, s.rows[id], t.rows[id]))
  {
    hide LifecycleAdmits, Drifted, MoveMoney;
    var c := s.calls[call];
    if Wins(s, c) && !Drifted(s, c) {
    } else {
    }
  }

  lemma ScrubSteps(s: State, step: Step, sel: Selector, id: OpId)
    ensures var t := Scrub(s, sel);
            && t.rows.Keys == s.rows.Keys && t.world == s.world
            && (id in s.rows ==> RowStepped(s, step, s.rows[id], t.rows[id]))
  {
    hide LifecycleAdmits, Selected, InWindow;
  }

  /** What any step other than a reserve can do to one row. */
  lemma OneRowStep(cfg: Config, s: State, step: Step, id: OpId)
    requires !step.ReserveStep?
    requires forall c :: c in s.calls ==> CallSound(s.rows, s.calls[c])
    ensures var t := Apply(cfg, s, step);
            && t.rows.Keys == s.rows.Keys
            && BarriersOnlyRise(s.world, t.world)
            && (id in s.rows ==> RowStepped(s, step, s.rows[id], t.rows[id]))
  {
    hide Scrub, ApplyBatch, LifecycleAdmits, GateHolds;
    match step
    case BatchStep(call) =>
      if call in s.calls && s.calls[call].Loaded? { BatchSteps(s, step, call, id); }
    case InvokeStep(_, _, _, _) =>
    case ScrubStep(sel) => ScrubSteps(s, step, sel, id);
    case HealthStep(_, _) =>
    case LoadStep(_, _, _, _) =>
    case ReportStep(_) =>
    case OverrideStep(_, _) =>
    case WorldStep(_) =>
  }

  lemma {:induction false} LifecyclesKeptRun(cfg: Config, w: World, steps: seq<Step>)
    ensures LifecyclesKept(Run(cfg, Initial(w), steps))
  {
    if steps != [] {
      LifecyclesKeptRun(cfg, w, steps[..|steps| - 1]);
      SoundRun(cfg, w, steps[..|steps| - 1]);
      LifecyclesKeptStep(cfg, Run(cfg, Initial(w), steps[..|steps| - 1]), steps[|steps| - 1]);
    }
  }

  predicate AcceptedBy(r: Row, user: string, b: int) {
    && r.provider == GOOGLE && r.admitted.memoryUser == Some(user)
    && r.admitted.acceptedAt.Some? && r.admitted.acceptedAt.value <= b
  }

  ghost predicate Fenced(s: State, user: string, b: int) {
    && user in s.world.barriers && s.world.barriers[user] >= b
    && (forall id :: id in s.rows && AcceptedBy(s.rows[id], user, b) ==> s.rows[id].status != Invoking)
  }

  lemma FenceTakesEffect(s: State, user: string, b: int)
    requires LifecyclesKept(s)
    requires user in s.world.barriers && s.world.barriers[user] >= b
    requires NoActiveInvocation(s, Selector(Some(user), None, None, Some(b)))
    ensures Fenced(s, user, b)
  {
    var sel := Selector(Some(user), None, None, Some(b));
    forall id | id in s.rows && AcceptedBy(s.rows[id], user, b) ensures s.rows[id].status != Invoking {
      var r := s.rows[id];
      assert LifecycleKept(r);
      if r.lifecycle == r.admitted {
        assert Selected(s.world, sel, r.lifecycle) && InWindow(sel, r.lifecycle);
      }
    }
  }

  lemma FenceHoldsStep(cfg: Config, s: State, step: Step, user: string, b: int)
    requires Sound(cfg, s) && LifecyclesKept(s) && Fenced(s, user, b)
    ensures Fenced(Apply(cfg, s, step), user, b)
  {
    var t := Apply(cfg, s, step);
    if step.ReserveStep? {
      ReserveInsertsOnly(cfg, s, step.req);
    } else {
      forall id | id in t.rows && AcceptedBy(t.rows[id], user, b) ensures t.rows[id].status != Invoking {
        OneRowStep(cfg, s, step, id);
        assert LifecycleKept(s.rows[id]);
      }
      OneRowStep(cfg, s, step, Explicit(""));
    }
  }

  /** Once a deleter has raised the user's barrier to `b` and its check through `b`
      has passed, no Google reservation the user's content accepted by then is
      invoking, then or ever after - whatever scrubs, reserves and races follow. */
  lemma {:induction false} DeletionFenceHolds(cfg: Config, w: World, before: seq<Step>, after: seq<Step>, user: string, b: int)
    requires var s := Run(cfg, Initial(w), before);
             && user in s.world.barriers && s.world.barriers[user] >= b
             && NoActiveInvocation(s, Selector(Some(user), None, None, Some(b)))
    ensures Fenced(Run(cfg, Initial(w), before + after), user, b)
  {
    if after == [] {
      assert before + after == before;
      LifecyclesKeptRun(cfg, w, before);
      FenceTakesEffect(Run(cfg, Initial(w), before), user, b);
    } else {
      var front := after[..|after| - 1];
      DeletionFenceHolds(cfg, w, before, front, user, b);
      assert (before + after)[..|before + after| - 1] == before + front;
      SoundRun(cfg, w, before + front);
      LifecyclesKeptRun(cfg, w, before + front);
      FenceHoldsStep(cfg, Run(cfg, Initial(w), before + front), after[|after| - 1], user, b);
    }
  }
}

/** What stands between a reserved row and the provider: each fence of the invocation
    guard by itself, and the fences that hold over whole runs. */
module LedgerFences {
  import opened Wrappers
  import opened Ledger
  import opened LedgerMoney
  import opened LedgerSafety
  import Breaker

  // ----- One row, one moment -----

  /** The account fence: the row's user or its account has been erased. */
  predicate Erased(w: World, l: Lifecycle) {
    exists user :: user in w.tombstones && (l.memoryUser == Some(user) || l.account == Some(user))
  }

  /** The deletion fence: the user's barrier is at or past the row's acceptance. */
  predicate BehindBarrier(w: World, l: Lifecycle) {
    exists user :: user in w.barriers && l.memoryUser == Some(user) && l.acceptedAt.Some? && l.acceptedAt.value <= w.barriers[user]
  }

  predicate Running(w: World, project: string) {
    project in w.projects && w.projects[project].active && w.projects[project].lifecycleActive
  }

  /** The project fence: the project the row names is not running, or not at its epoch. */
  predicate ProjectGone(w: World, l: Lifecycle) {
    l.project.Some? && !(Running(w, l.project.value) && l.epoch == Some(w.projects[l.project.value].epoch))
  }

  /** The membership fence: the user belongs, or belonged, to a project that is not running,
      to another one than the row names, or to one at another epoch. */
  predicate Misplaced(w: World, l: Lifecycle) {
    exists m :: m in w.memberships && l.memoryUser == Some(m.memoryUser)
      && !(&& m.active && Running(w, m.project) && l.project in {None, Some(m.project)}
           && l.epoch in {None, Some(w.projects[m.project].epoch)})
  }

  /** The retention fence: what the row's project accepted by then is past its retention. */
  predicate Expired(w: World, l: Lifecycle) {
    exists f :: f in w.fences && l.project == Some(f.project) && l.acceptedAt.Some? && f.cutoffAt >= l.acceptedAt.value
      && f.fenceClass in {SemanticMemory, SourceEpisodes, PlaygroundTranscripts}
  }

  /** A save or a capture whose own run is no longer running. */
  predicate Ownerless(w: World, l: Lifecycle) {
    && l.scopeId.Some? && l.memoryUser.Some?
    && ((l.scope == Some("save") && OwnedRun(l.scopeId.value, l.memoryUser.value) !in w.runningSaves)
        || (l.scope == Some("atomic_capture") && OwnedRun(l.scopeId.value, l.memoryUser.value) !in w.runningCaptures))
  }

  predicate Identified(l: Lifecycle) {
    l.memoryUser != None && l.acceptedAt != None && l.scope != None && l.scopeId != None && !l.exempt
  }

  /** The lifecycle of a provider health check, which belongs to no tenant. */
  predicate HealthCheck(l: Lifecycle) {
    l == Lifecycle(None, None, None, l.epoch, None, Some("provider_health"), l.scopeId, true) && l.scopeId != None
  }

  predicate NoFence(w: World, l: Lifecycle) {
    && !Erased(w, l) && !BehindBarrier(w, l) && !ProjectGone(w, l) && !Misplaced(w, l) && !Expired(w, l) && !Ownerless(w, l)
  }

  lemma AdmitsExactly(w: World, provider: string, l: Lifecycle)
    ensures LifecycleAdmits(w, provider, l)
            <==> provider != "google-vertex" || HealthCheck(l) || (Identified(l) && NoFence(w, l))
  {
    if TenantShape(l) {
      assert l.memoryUser.value in w.tombstones ==> Erased(w, l);
      assert l.account.Some? && l.account.value in w.tombstones ==> Erased(w, l);
      assert l.memoryUser.value in w.barriers && w.barriers[l.memoryUser.value] >= l.acceptedAt.value ==> BehindBarrier(w, l);
      hide Erased, BehindBarrier;
    }
  }

  /** The health clause: the provider is on, and the breaker is as the caller's gate saw it. */
  predicate GateStands(s: State, provider: string, gate: Option<HealthGate>, now: int) {
    && provider !in s.disabled
    && (gate.Some? ==>
          && provider in s.health
          && var h := s.health[provider];
             match gate.value
             case ClosedGate => h.state == Breaker.Closed
             case ProbeGate(token) => h.state == Breaker.HalfOpen && h.probeToken == Some(token)
                                      && now <= (if h.probeLeaseUntil.Some? then h.probeLeaseUntil.value else 0))
  }

  /** A step makes a row invoking exactly when it is an invoke under the row's own token, in
      time, with the health clause holding and no fence in the way. */
  lemma InvokedExactly(cfg: Config, s: State, step: Step, id: OpId)
    requires id in s.rows && s.rows[id].status != Invoking
    requires forall c :: c in s.calls ==> CallSound(s.rows, s.calls[c])
    ensures var t := Apply(cfg, s, step);
            var r := s.rows[id];
            && id in t.rows
            && (t.rows[id].status == Invoking <==>
                  && step.InvokeStep? && step.id == id && step.token == r.attemptToken
                  && r.status == Reserved && step.now <= r.expiresAt && GateStands(s, r.provider, step.gate, step.now)
                  && (r.provider != "google-vertex" || HealthCheck(r.lifecycle) || (Identified(r.lifecycle) && NoFence(s.world, r.lifecycle))))
            && (t.rows[id].status == Invoking ==> t.rows[id] == r.(status := Invoking, expiresAt := step.now + 6 * 60_000))
  {
    AdmitsExactly(s.world, s.rows[id].provider, s.rows[id].lifecycle);
    hide LifecycleAdmits, HealthCheck, Identified, NoFence;
    if step.ReserveStep? {
      ReserveInsertsOnly(cfg, s, step.req);
    } else if step.InvokeStep? {
      hide CallSound;
    } else {
      hide Apply, GateHolds, CallSound;
      OneRowStep(cfg, s, step, id);
    }
  }

  // ----- Whole runs -----

  /** An erased account, or a project that has been closed. */
  datatype Boundary = Account(user: string) | Project(id: string)

  predicate Stands(w: World, b: Boundary) {
    match b
    case Account(user) => user in w.tombstones
    case Project(id) => !Running(w, id)
  }

  predicate Covers(b: Boundary, l: Lifecycle) {
    match b
    case Account(user) => l.memoryUser == Some(user) || l.account == Some(user)
    case Project(id) => l.project == Some(id)
  }

  /** The deleter's question for the boundary. */
  function CheckOf(b: Boundary): Selector {
    match b
    case Account(user) => Selector(None, Some(user), None, None)
    case Project(id) => Selector(None, None, Some(id), None)
  }

  ghost predicate NoneInvoking(s: State, b: Boundary) {
    forall id :: id in s.rows && s.rows[id].provider == GOOGLE && Covers(b, s.rows[id].admitted) ==> s.rows[id].status != Invoking
  }

  /** The check passing means that nothing admitted inside the boundary is invoking now,
      whether its tenant columns are still there or have been scrubbed. */
  lemma CheckClears(s: State, b: Boundary)
    requires LifecyclesKept(s) && NoActiveInvocation(s, CheckOf(b))
    ensures NoneInvoking(s, b)
  {
    forall id | id in s.rows && s.rows[id].provider == GOOGLE && Covers(b, s.rows[id].admitted)
      ensures s.rows[id].status != Invoking
    {
      assert LifecycleKept(s.rows[id]);
      assert s.rows[id].lifecycle == s.rows[id].admitted ==> Selected(s.world, CheckOf(b), s.rows[id].lifecycle);
    }
  }

  lemma RowStaysOut(s: State, step: Step, r: Row, r': Row, b: Boundary)
    requires RowStepped(s, step, r, r') && LifecycleKept(r) && Stands(s.world, b)
    requires r.provider == GOOGLE && r.status != Invoking && Covers(b, r.admitted)
    ensures r'.status != Invoking
  {
    if r.lifecycle == r.admitted {
      AdmitsExactly(s.world, r.provider, r.lifecycle);
      FencedOff(s.world, b, r.lifecycle);
    }
    hide NoFence, HealthCheck, Covers, Stands;
  }

  lemma BoundaryHoldsStep(cfg: Config, s: State, step: Step, b: Boundary)
    requires forall c :: c in s.calls ==> CallSound(s.rows, s.calls[c])
    requires LifecyclesKept(s) && NoneInvoking(s, b) && Stands(s.world, b)
    ensures NoneInvoking(Apply(cfg, s, step), b)
  {
    hide Apply, CallSound, LifecycleKept, RowStepped, Covers, Stands;
    var t := Apply(cfg, s, step);
    if step.ReserveStep? {
      ReserveIsNotInvoking(cfg, s, step, b);
    } else {
      forall id | id in t.rows && t.rows[id].provider == GOOGLE && Covers(b, t.rows[id].admitted)
        ensures t.rows[id].status != Invoking
      {
        OneRowStep(cfg, s, step, id);
        SameRow(s, step, s.rows[id], t.rows[id]);
        if t.rows[id].admitted == s.rows[id].admitted {
          RowStaysOut(s, step, s.rows[id], t.rows[id], b);
        }
      }
    }
  }

  lemma SameRow(s: State, step: Step, r: Row, r': Row)
    requires RowStepped(s, step, r, r')
    ensures r'.provider == r.provider && (r'.status == Invoking ==> r'.admitted == r.admitted)
  {
  }

  lemma ReserveIsNotInvoking(cfg: Config, s: State, step: Step, b: Boundary)
    requires step.ReserveStep? && NoneInvoking(s, b)
    ensures NoneInvoking(Apply(cfg, s, step), b)
  {
    ReserveInsertsOnly(cfg, s, step.req);
    hide ReserveBatch, Covers;
  }

  lemma FencedOff(w: World, b: Boundary, l: Lifecycle)
    requires Stands(w, b) && Covers(b, l)
    ensures !HealthCheck(l) && !NoFence(w, l)
  {
    match b
    case Account(user) => assert Erased(w, l);
    case Project(id) => assert ProjectGone(w, l);
  }

  predicate StandsThroughout(cfg: Config, s: State, steps: seq<Step>, b: Boundary) {
    Stands(Run(cfg, s, steps).world, b) && (steps != [] ==> StandsThroughout(cfg, s, steps[..|steps| - 1], b))
  }

  /** Once an account is erased, or a project closed, and the deleter's check has passed,
      nothing admitted inside that boundary is invoking, then or for as long as it stands. */
  lemma {:induction false} BoundaryHolds(cfg: Config, w: World, before: seq<Step>, after: seq<Step>, b: Boundary)
    requires NoActiveInvocation(Run(cfg, Initial(w), before), CheckOf(b))
    requires StandsThroughout(cfg, Run(cfg, Initial(w), before), after, b)
    ensures NoneInvoking(Run(cfg, Initial(w), before + after), b)
  {
    hide NoActiveInvocation, NoneInvoking, Apply, Stands, Initial;
    if after == [] {
      assert before + after == before;
      LifecyclesKeptRun(cfg, w, before);
      CheckClears(Run(cfg, Initial(w), before), b);
    } else {
      var front := after[..|after| - 1];
      BoundaryHolds(cfg, w, before, front, b);
      assert (before + after)[..|before + after| - 1] == before + front;
      SoundRun(cfg, w, before + front);
      LifecyclesKeptRun(cfg, w, before + front);
      RunFrom(cfg, Initial(w), before, front);
      assert Stands(Run(cfg, Initial(w), before + front).world, b);
      BoundaryHoldsStep(cfg, Run(cfg, Initial(w), before + front), after[|after| - 1], b);
    }
  }

  lemma {:induction false} RunFrom(cfg: Config, s: State, before: seq<Step>, after: seq<Step>)
    ensures Run(cfg, Run(cfg, s, before), after) == Run(cfg, s, before + after)
  {
    hide Apply;
    if after == [] {
      assert before + after == before;
    } else {
      RunFrom(cfg, s, before, after[..|after| - 1]);
      assert (before + after)[..|before + after| - 1] == before + after[..|after| - 1];
    }
  }

  // ----- What a scrub forgets -----

  /** The row belongs to the user, the account or the project the deleter names. */
  predicate Belongs(w: World, sel: Selector, l: Lifecycle) {
    || (l.memoryUser.Some? && (l.memoryUser == sel.memoryUser || l.memoryUser == sel.account))
    || (l.account.Some? && l.account == sel.account)
    || (l.project.Some? && l.project == sel.project)
    || (exists m :: m in w.memberships && l.memoryUser == Some(m.memoryUser) && sel.project == Some(m.project))
  }

  /** The deleter's check asks about the rows it names, and - failing closed - about rows
      whose tenant columns are gone; a deleter who names nobody asks nothing. */
  lemma CheckPassesExactly(s: State, sel: Selector)
    ensures NoActiveInvocation(s, sel) <==>
              || sel == Selector(None, None, None, sel.acceptedThrough)
              || !exists id :: id in s.rows
                   && s.rows[id].provider == "google-vertex" && s.rows[id].status == Invoking && !s.rows[id].lifecycle.exempt
                   && (Belongs(s.world, sel, s.rows[id].lifecycle)
                       || s.rows[id].lifecycle.memoryUser == None || s.rows[id].lifecycle.acceptedAt == None)
                   && (sel.acceptedThrough.Some? && s.rows[id].lifecycle.acceptedAt.Some? ==>
                         s.rows[id].lifecycle.acceptedAt.value <= sel.acceptedThrough.value)
  {
    forall id | id in s.rows ensures Belongs(s.world, sel, s.rows[id].lifecycle) <==> Selected(s.world, sel, s.rows[id].lifecycle) {
    }
    hide Belongs, Selected;
  }

  /** After a scrub no row the deleter names keeps a tenant column, unless it is invoking or
      was accepted after the window; and every other row is as it was, down to its money. */
  lemma ScrubForgets(s: State, sel: Selector, id: OpId)
    requires id in s.rows
    ensures var r, t := s.rows[id], Scrub(s, sel);
            && t == s.(rows := t.rows) && t.rows.Keys == s.rows.Keys
            && (t.rows[id] == r || t.rows[id] == r.(lifecycle := Lifecycle(None, None, None, None, None, None, None, false)))
            && (t.rows[id] != r ==> r.provider == "google-vertex" && r.status != Invoking && Belongs(s.world, sel, r.lifecycle))
            && (r.provider == "google-vertex" && !r.lifecycle.exempt && r.status != Invoking && Belongs(s.world, sel, r.lifecycle)
                && (sel.acceptedThrough.Some? && r.lifecycle.acceptedAt.Some? ==> r.lifecycle.acceptedAt.value <= sel.acceptedThrough.value)
                ==> t.rows[id].lifecycle.memoryUser == None && t.rows[id].lifecycle.account == None && t.rows[id].lifecycle.project == None)
            && (r.lifecycle.exempt
                || (sel.acceptedThrough.Some? && r.lifecycle.acceptedAt.Some? && r.lifecycle.acceptedAt.value > sel.acceptedThrough.value)
                ==> t.rows[id] == r)
  {
  }

  // ----- The control plane -----

  /** What else can move under a call: an operator switches a provider, the breaker hears of
      an event, the control plane changes - its barriers only upwards. Nothing else moves
      then, and no other step moves any of the three. */
  lemma ControlMoves(cfg: Config, s: State, step: Step, provider: string)
    ensures var t := Apply(cfg, s, step);
            && (provider in t.disabled <==>
                  if step.OverrideStep? && step.provider == provider then step.off else provider in s.disabled)
            && ((provider in t.health && !(provider in s.health && t.health[provider] == s.health[provider])) ==>
                  && step.HealthStep? && step.provider == provider
                  && t.health[provider]
                     == Breaker.Step(Breaker.State(if provider in s.health then s.health[provider] else Breaker.FRESH, s.nextToken), step.event).health)
            && (step.HealthStep? && step.provider == provider ==>
                  && provider in t.health
                  && Breaker.Step(Breaker.State(if provider in s.health then s.health[provider] else Breaker.FRESH, s.nextToken), step.event)
                     == Breaker.State(t.health[provider], t.nextToken))
            && (t.world == if step.WorldStep? && (forall u :: u in s.world.barriers ==>
                                  u in step.world.barriers && s.world.barriers[u] <= step.world.barriers[u])
                           then step.world else s.world)
            && (step.OverrideStep? || step.HealthStep? || step.WorldStep? ==>
                  t.rows == s.rows && t.totals == s.totals && t.calls == s.calls)
  {
    hide Scrub, ApplyBatch, Invoke, ReportsApplied, ReserveBatch;
    match step
    case ReserveStep(req) => ReserveLeavesControl(cfg, s, req);
    case BatchStep(call) => if call in s.calls && s.calls[call].Loaded? { BatchLeavesControl(s, call); }
    case InvokeStep(id, token, gate, now) => InvokeLeavesControl(s, id, token, gate, now);
    case ScrubStep(sel) => ScrubLeavesControl(s, sel);
    case _ =>
  }

  lemma ReserveLeavesControl(cfg: Config, s: State, req: Request)
    ensures var t := ReserveBatch(cfg, s, req).0; t.health == s.health && t.disabled == s.disabled && t.world == s.world
  {
    hide GateHolds, AddReserved, Fits;
  }

  lemma BatchLeavesControl(s: State, call: nat)
    requires call in s.calls && s.calls[call].Loaded?
    ensures var t := ApplyBatch(s, call); t.health == s.health && t.disabled == s.disabled && t.world == s.world
  {
  }

  lemma InvokeLeavesControl(s: State, id: OpId, token: Token, gate: Option<HealthGate>, now: int)
    ensures var t := Invoke(s, id, token, gate, now); t.health == s.health && t.disabled == s.disabled && t.world == s.world
  {
    hide CanInvoke;
  }

  lemma ScrubLeavesControl(s: State, sel: Selector)
    ensures var t := Scrub(s, sel); t.health == s.health && t.disabled == s.disabled && t.world == s.world
  {
  }
}

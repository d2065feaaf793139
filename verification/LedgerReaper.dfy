/** The expiry reaper. It lists expired rows in one statement and closes each in a
    later batch; between the two the owner may still cross to invoking. This module
    says exactly when a row the reaper listed as never invoked is released after
    its owner did invoke. */
module LedgerReaper {
  import opened Wrappers
  import opened RateCards
  import opened Ledger
  import opened LedgerMoney
  import opened LedgerSafety

  predicate Listed(s: State, id: OpId, now: int) {
    id in s.rows && Active(s.rows[id]) && s.rows[id].expiresAt < now
  }

  /** The reaper's choice, made on the row as listed. */
  function ReapAs(r: Row): Finish {
    if r.status == Reserved then Release else MarkAmbiguous
  }

  /** Every invocation in `steps` reads a clock no earlier than `now`. */
  predicate FreshClocks(steps: seq<Step>, now: int) {
    forall i :: 0 <= i < |steps| ==> FreshClock(steps[i], now)
  }

  predicate FreshClock(step: Step, now: int) {
    step.InvokeStep? ==> now <= step.now
  }

  /** Not invoking, and never going to be on a clock at or after `now`. */
  predicate PastInvoking(s: State, id: OpId, now: int) {
    id in s.rows && s.rows[id].status != Invoking && (s.rows[id].status == Reserved ==> s.rows[id].expiresAt < now)
  }

  lemma PastInvokingStep(cfg: Config, s: State, step: Step, id: OpId, now: int)
    requires forall c :: c in s.calls ==> CallSound(s.rows, s.calls[c])
    requires PastInvoking(s, id, now) && FreshClock(step, now)
    ensures PastInvoking(Apply(cfg, s, step), id, now)
  {
    if step.ReserveStep? {
      ReserveInsertsOnly(cfg, s, step.req);
    } else {
      hide Apply, LifecycleAdmits, CallSound;
      OneRowStep(cfg, s, step, id);
    }
  }

  /** With fresh clocks a listed, never-invoked row can no longer be invoked at all,
      so the release that follows is of a row that never reached the provider. */
  lemma {:induction false} FreshClocksProtectListedRows(cfg: Config, w: World, before: seq<Step>, after: seq<Step>, id: OpId, now: int)
    requires var s := Run(cfg, Initial(w), before); Listed(s, id, now) && s.rows[id].status == Reserved
    requires FreshClocks(after, now)
    ensures PastInvoking(Run(cfg, Initial(w), before + after), id, now)
  {
    if after == [] {
      assert before + after == before;
    } else {
      var front := after[..|after| - 1];
      FreshClocksProtectListedRows(cfg, w, before, front, id, now);
      assert (before + after)[..|before + after| - 1] == before + front;
      SoundRun(cfg, w, before + front);
      hide PastInvoking, Apply, Conserved, WithinOvershoot, Priced;
      PastInvokingStep(cfg, Run(cfg, Initial(w), before + front), after[|after| - 1], id, now);
    }
  }

  function StatusOf(s: State, id: OpId): Option<Status> {
    if id in s.rows then Some(s.rows[id].status) else None
  }

  /** The reaper holds its handle on the row it listed; then the owner invokes. */
  function InvokedUnderReaper(cfg: Config, s: State, call: nat, id: OpId, gate: Option<HealthGate>, invokedAt: int): State
    requires id in s.rows
  {
    var r := s.rows[id];
    Apply(cfg, Apply(cfg, s, LoadStep(call, id, r.attemptToken, ReapAs(r))), InvokeStep(id, r.attemptToken, gate, invokedAt))
  }

  /** The race itself: the reaper's handle is loaded, the owner's invoke lands, the
      reaper's batch lands. The invoked row is released exactly when the owner's
      clock reading was stale enough to pass the expiry test and its other guards
      held - which no reading at or after the listing can. */
  lemma ReleasedAfterInvokeExactly(cfg: Config, w: World, steps: seq<Step>, call: nat, id: OpId,
                                   gate: Option<HealthGate>, listedAt: int, invokedAt: int)
    requires var s := Run(cfg, Initial(w), steps);
             Listed(s, id, listedAt) && s.rows[id].status == Reserved && call !in s.calls
    ensures var s := Run(cfg, Initial(w), steps);
            var invoked := InvokedUnderReaper(cfg, s, call, id, gate, invokedAt);
            && StatusOf(Apply(cfg, invoked, BatchStep(call)), id) == Some(Released)
            && (StatusOf(invoked, id) == Some(Invoking) <==>
                  && invokedAt <= s.rows[id].expiresAt
                  && GateHolds(s, s.rows[id].provider, gate, invokedAt)
                  && LifecycleAdmits(s.world, s.rows[id].provider, s.rows[id].lifecycle))
            && (listedAt <= invokedAt ==> StatusOf(invoked, id) == Some(Reserved))
  {
    SoundRun(cfg, w, steps);
    var s := Run(cfg, Initial(w), steps);
    var load := LoadStep(call, id, s.rows[id].attemptToken, ReapAs(s.rows[id]));
    var loaded := Apply(cfg, s, load);
    SoundStep(cfg, s, load);
    var invoke := InvokeStep(id, s.rows[id].attemptToken, gate, invokedAt);
    SoundStep(cfg, loaded, invoke);
    var invoked := Apply(cfg, loaded, invoke);
    hide Sound, LifecycleAdmits, Run, Conserved;
    assert GateHolds(loaded, s.rows[id].provider, gate, invokedAt) == GateHolds(s, s.rows[id].provider, gate, invokedAt);
    SoundCall(cfg, invoked, call);
    WinnerIsFunded(invoked, invoked.calls[call]);
  }

  // ----- Over any run between the listing and the batch -----

  /** A row becomes invoking by an invoke that lands, and stops by being closed. */
  lemma InvokingStepExactly(cfg: Config, s: State, step: Step, id: OpId)
    requires forall c :: c in s.calls ==> CallSound(s.rows, s.calls[c])
    requires id in s.rows
    ensures var t := Apply(cfg, s, step);
            && id in t.rows
            && (t.rows[id].status == Invoking
                <==> Invokes(s, step, id) || (s.rows[id].status == Invoking && !Closes(cfg, s, step, id)))
            && (t.rows[id].status == Reserved ==> s.rows[id].status == Reserved && t.rows[id].expiresAt == s.rows[id].expiresAt)
  {
    if step.ReserveStep? {
      ReserveInsertsOnly(cfg, s, step.req);
    } else if step.InvokeStep? {
      hide LifecycleAdmits, GateHolds, CallSound;
    } else {
      hide Apply, LifecycleAdmits, GateHolds, CallSound;
      OneRowStep(cfg, s, step, id);
    }
  }

  /** Step `i` invoked the row on a clock before `listedAt`, and no step since closed it. */
  ghost predicate InvokedAt(cfg: Config, w: World, steps: seq<Step>, i: nat, id: OpId, listedAt: int)
    requires i < |steps|
  {
    && Invokes(StateAt(cfg, w, steps, i), steps[i], id) && steps[i].now < listedAt
    && forall j :: i < j < |steps| ==> !Closes(cfg, StateAt(cfg, w, steps, j), steps[j], id)
  }

  lemma InvokedOneMore(cfg: Config, w: World, steps: seq<Step>, i: nat, id: OpId, listedAt: int)
    requires i < |steps| - 1
    ensures var n := |steps| - 1;
            InvokedAt(cfg, w, steps, i, id, listedAt)
            <==> InvokedAt(cfg, w, steps[..n], i, id, listedAt) && !Closes(cfg, StateAt(cfg, w, steps, n), steps[n], id)
  {
    hide Run, Invokes, Closes;
    var n := |steps| - 1;
    var front := steps[..n];
    assert forall j :: 0 <= j < n ==> front[..j] == steps[..j] && front[j] == steps[j];
    if InvokedAt(cfg, w, front, i, id, listedAt) && !Closes(cfg, StateAt(cfg, w, steps, n), steps[n], id) {
      forall j | i < j < |steps| ensures !Closes(cfg, StateAt(cfg, w, steps, j), steps[j], id) {
        if j < n {
          assert !Closes(cfg, StateAt(cfg, w, front, j), front[j], id);
        }
      }
    }
    if InvokedAt(cfg, w, steps, i, id, listedAt) {
      forall j | i < j < n ensures !Closes(cfg, StateAt(cfg, w, front, j), front[j], id) {
        assert !Closes(cfg, StateAt(cfg, w, steps, j), steps[j], id);
      }
    }
  }

  ghost predicate InvokedSince(cfg: Config, w: World, steps: seq<Step>, from: nat, id: OpId, listedAt: int) {
    exists i :: from <= i < |steps| && InvokedAt(cfg, w, steps, i, id, listedAt)
  }

  lemma InvokedSinceStep(cfg: Config, w: World, steps: seq<Step>, from: nat, id: OpId, listedAt: int)
    requires from < |steps|
    ensures var n := |steps| - 1;
            var s := StateAt(cfg, w, steps, n);
            InvokedSince(cfg, w, steps, from, id, listedAt)
            <==> (Invokes(s, steps[n], id) && steps[n].now < listedAt)
                 || (InvokedSince(cfg, w, steps[..n], from, id, listedAt) && !Closes(cfg, s, steps[n], id))
  {
    var n := |steps| - 1;
    assert InvokedAt(cfg, w, steps, n, id, listedAt)
           <==> Invokes(StateAt(cfg, w, steps, n), steps[n], id) && steps[n].now < listedAt;
    hide InvokedAt, Invokes, Closes, Run;
    forall i | from <= i < n
      ensures InvokedAt(cfg, w, steps, i, id, listedAt)
              <==> InvokedAt(cfg, w, steps[..n], i, id, listedAt) && !Closes(cfg, StateAt(cfg, w, steps, n), steps[n], id)
    {
      InvokedOneMore(cfg, w, steps, i, id, listedAt);
    }
  }

  /** Whatever runs after the listing, a row listed as never invoked is invoking exactly
      when a step since then invoked it on an earlier clock and none has closed it. */
  lemma {:induction false} InvokingSinceExactly(cfg: Config, w: World, before: seq<Step>, after: seq<Step>, id: OpId, listedAt: int)
    requires var s := Run(cfg, Initial(w), before); Listed(s, id, listedAt) && s.rows[id].status == Reserved
    ensures var t := Run(cfg, Initial(w), before + after);
            && id in t.rows
            && (t.rows[id].status == Reserved ==> t.rows[id].expiresAt < listedAt)
            && (t.rows[id].status == Invoking <==> InvokedSince(cfg, w, before + after, |before|, id, listedAt))
  {
    hide Apply, Initial, InvokedAt, Invokes, Closes, Conserved, WithinOvershoot, Priced;
    if after == [] {
      assert before + after == before;
    } else {
      var front := after[..|after| - 1];
      var all := before + after;
      var n := |all| - 1;
      assert all[..n] == before + front && all[n] == after[|after| - 1];
      InvokingSinceExactly(cfg, w, before, front, id, listedAt);
      SoundRun(cfg, w, before + front);
      var s := Run(cfg, Initial(w), before + front);
      LandsEarly(s, all[n], id, listedAt);
      InvokingStepExactly(cfg, s, all[n], id);
      InvokedSinceStep(cfg, w, all, |before|, id, listedAt);
      hide InvokedSince, Listed;
    }
  }

  /** An expired row can only be invoked on a clock before its expiry. */
  lemma LandsEarly(s: State, step: Step, id: OpId, listedAt: int)
    requires id in s.rows && (s.rows[id].status == Reserved ==> s.rows[id].expiresAt < listedAt)
    ensures Invokes(s, step, id) ==> step.InvokeStep? && step.now < listedAt
  {
  }

  /** The race over any steps between: a call whose handle means to release the listed
      row - loaded at any moment - takes an invoking row down exactly when, since the
      listing, a step invoked it on a clock before the listing's and none closed it. */
  lemma InvokedRowReleasedExactly(cfg: Config, w: World, before: seq<Step>, after: seq<Step>, call: nat, id: OpId, listedAt: int)
    requires var s := Run(cfg, Initial(w), before); Listed(s, id, listedAt) && s.rows[id].status == Reserved
    requires var t := Run(cfg, Initial(w), before + after);
             && call in t.calls && t.calls[call].Loaded? && t.calls[call].id == id
             && t.calls[call].to == Released && t.calls[call].froms == {Reserved, Invoking}
    ensures var t := Run(cfg, Initial(w), before + after);
            && StatusOf(t, id) == Some(Invoking) && StatusOf(Apply(cfg, t, BatchStep(call)), id) == Some(Released)
            <==> InvokedSince(cfg, w, before + after, |before|, id, listedAt)
  {
    InvokingSinceExactly(cfg, w, before, after, id, listedAt);
    SoundRun(cfg, w, before + after);
    var t := Run(cfg, Initial(w), before + after);
    hide Run, InvokedSince, Conserved, WithinOvershoot, Priced;
    SoundCall(cfg, t, call);
    if t.rows[id].status == Invoking {
      WinnerIsFunded(t, t.calls[call]);
    }
  }

  /** The race was lost: listed as never invoked, invoked, released. */
  ghost predicate LosesInvokedRow(cfg: Config, s: State, id: OpId) {
    && Listed(s, id, RESERVATION_TTL_MS + 1)
    && var invoked := InvokedUnderReaper(cfg, s, 0, id, None, 0);
       StatusOf(invoked, id) == Some(Invoking) && StatusOf(Apply(cfg, invoked, BatchStep(0)), id) == Some(Released)
  }

  /** And the race is real: a health probe reserved at time 0, listed just after its
      time-to-live, invoked with the clock captured at 0, is released while invoking. */
  lemma StaleClockLosesAnInvokedRow()
    ensures exists cfg: Config, w: World, req: Request ::
              LosesInvokedRow(cfg, Run(cfg, Initial(w), [ReserveStep(req)]), req.id)
  {
    var cfg := Config(10, 10, 10, 1_000_000);
    var w := World(map[], {}, map[], {}, {}, {}, {});
    var probe := Lifecycle(None, None, None, None, None, Some("provider_health"), Some("p"), true);
    var req := Request(Explicit("op"), GOOGLE, None, "rerank", Inputs(Some(1), None, None), 1, probe, None, "d", "m", 0);
    hide LosesInvokedRow, Run, Initial;
    ProbeLosesRow(cfg, w, req);
  }

  lemma ProbeLosesRow(cfg: Config, w: World, req: Request)
    requires cfg == Config(10, 10, 10, 1_000_000)
    requires req.model == None && req.provider == GOOGLE && req.capability == "rerank" && req.inputs.contexts == Some(1)
    requires req.maxAttempts == 1 && req.gate == None && req.now == 0
    requires req.lifecycle.exempt && ExemptShape(req.lifecycle)
    ensures LosesInvokedRow(cfg, Run(cfg, Initial(w), [ReserveStep(req)]), req.id)
  {
    var steps := [ReserveStep(req)];
    RerankOfOne(cfg, w, req);
    RunOne(cfg, Initial(w), ReserveStep(req));
    ReserveInsertsOnly(cfg, Initial(w), req);
    hide ReserveBatch, Run, InsertAndHold;
    ReleasedAfterInvokeExactly(cfg, w, steps, 0, req.id, None, RESERVATION_TTL_MS + 1, 0);
    hide Apply;
  }
}

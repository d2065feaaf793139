/** The shadow-extraction outbox over the spend ledger: token-fenced claims, admission to
    the provider call, and a retry rule that asks the ledger whether the last attempt was
    billed. */
module Shadow {
  import opened Wrappers
  import opened Decimal
  import Ledger
  import LedgerMoney
  import LedgerSafety

  const MAX_ATTEMPTS := 2

  type JobId = string
  type Token = nat

  datatype Status = Pending | Running | Invoking | Done | Cancelled | DeadLetter

  datatype Job = Job(status: Status, attempts: nat, token: Option<Token>, leaseUntil: int)

  predicate Terminal(j: Job) {
    j.status == Done || j.status == Cancelled || j.status == DeadLetter
  }

  /** A drain's hold on one claimed attempt. After a failure it has read from the ledger
      whether the attempt is proven unbilled. */
  datatype WorkerPc = Claimed | Admitted | Failed(admitted: bool, unbilled: bool)
  datatype Worker = Worker(job: JobId, attempt: nat, token: Token, pc: WorkerPc)

  /** `admits` is history: the attempts of each job that were admitted, in order. */
  datatype State = State(
    jobs: map<JobId, Job>, ledger: Ledger.State, workers: map<nat, Worker>, nextToken: Token, admits: map<JobId, seq<nat>>)

  // ----- One ledger operation per attempt -----

  const SHADOW_SCOPE := "shadow_extract"

  function AttemptScope(job: JobId, attempt: nat): string {
    job + ":attempt:" + Show(attempt)
  }

  function AttemptId(job: JobId, attempt: nat): Ledger.OpId {
    Ledger.Derived(SHADOW_SCOPE, AttemptScope(job, attempt), "extract", 0)
  }

  predicate IsShadowId(id: Ledger.OpId) {
    id.Derived? && id.scope == SHADOW_SCOPE
  }

  /** The digits after the last colon are the attempt, whatever the job id contains. */
  lemma AttemptIdInjective(job: JobId, attempt: nat, job': JobId, attempt': nat)
    requires AttemptId(job, attempt) == AttemptId(job', attempt')
    ensures job == job' && attempt == attempt'
  {
    var d, e := Show(attempt), Show(attempt');
    var a, b := job + ":attempt", job' + ":attempt";
    ShowIsDigits(attempt);
    ShowIsDigits(attempt');
    hide Show;
    assert job + ":attempt:" == a + ":" && job' + ":attempt:" == b + ":";
    assert a + ":" + d == b + ":" + e;
    LastColonSplits(a, d, b, e);
    assert a[..|a| - 8] == job && b[..|b| - 8] == job';
    ShowInjective(attempt, attempt');
  }

  lemma LastColonSplits(a: string, d: string, b: string, e: string)
    requires a + ":" + d == b + ":" + e
    requires forall i :: 0 <= i < |d| ==> IsDigit(d[i])
    requires forall i :: 0 <= i < |e| ==> IsDigit(e[i])
    ensures a == b && d == e
  {
    var s := a + ":" + d;
    assert s[|a|] == ':' && s[|b|] == ':';
    assert forall i :: |a| < i < |s| ==> s[i] == d[i - |a| - 1];
    assert forall i :: |b| < i < |s| ==> s[i] == e[i - |b| - 1];
    assert |a| == |b|;
    assert s[..|a|] == a && s[..|b|] == b;
    assert s[|a| + 1..] == d && s[|b| + 1..] == e;
  }

  // ----- Steps -----

  datatype Step =
    | Enqueue(job: JobId, status: Status)
    | Claim(worker: nat, job: JobId, now: int, leaseMs: nat)
    | Admit(worker: nat, fenced: bool, now: int, leaseMs: nat)
    | ReserveFor(worker: nat, req: Ledger.Request)
    | Elsewhere(step: Ledger.Step)
    | Disposition(worker: nat)
    | SettleFailure(worker: nat)
    | Settle(worker: nat, status: Status)
    | Retire(now: int)
    | Cancel(job: JobId, now: int)
    | Die(worker: nat)

  function AdmitsOf(s: State, job: JobId): seq<nat> {
    if job in s.admits then s.admits[job] else []
  }

  predicate MayClaim(j: Job, now: int) {
    j.status == Pending || (j.status == Running && j.leaseUntil < now)
  }

  function DoClaim(s: State, worker: nat, job: JobId, now: int, leaseMs: nat): State {
    if worker in s.workers || job !in s.jobs || !MayClaim(s.jobs[job], now) then s
    else
      var n := s.jobs[job].attempts + 1;
      s.(jobs := s.jobs[job := Job(Running, n, Some(s.nextToken), now + leaseMs)],
         workers := s.workers[worker := Worker(job, n, s.nextToken, Claimed)],
         nextToken := s.nextToken + 1)
  }

  /** The claim is still this worker's, in this status. */
  predicate Holds(s: State, w: Worker, status: Status) {
    w.job in s.jobs && s.jobs[w.job].status == status && s.jobs[w.job].token == Some(w.token)
  }

  /** Past the attempt limit the job is never admitted; the lifecycle fences refuse too. */
  function DoAdmit(s: State, worker: nat, fenced: bool, now: int, leaseMs: nat): State {
    if !(worker in s.workers && s.workers[worker].pc == Claimed && s.workers[worker].attempt <= MAX_ATTEMPTS) then s
    else
      var w := s.workers[worker];
      if !fenced && Holds(s, w, Running)
      then s.(jobs := s.jobs[w.job := s.jobs[w.job].(status := Invoking, leaseUntil := now + leaseMs)],
              workers := s.workers[worker := w.(pc := Admitted)],
              admits := s.admits[w.job := AdmitsOf(s, w.job) + [w.attempt]])
      else s
  }

  function DoReserve(cfg: Ledger.Config, s: State, worker: nat, req: Ledger.Request): State {
    if worker in s.workers && s.workers[worker].pc == Admitted
       && req.id == AttemptId(s.workers[worker].job, s.workers[worker].attempt)
    then s.(ledger := Ledger.Apply(cfg, s.ledger, Ledger.ReserveStep(req)))
    else s
  }

  /** Everything else that happens to the ledger: invocations, finishers, reapers and
      deleters of any row, and reservations of any other operation. */
  function DoElsewhere(cfg: Ledger.Config, s: State, step: Ledger.Step): State {
    if step.ReserveStep? && IsShadowId(step.req.id) then s else s.(ledger := Ledger.Apply(cfg, s.ledger, step))
  }

  predicate Unbilled(l: Ledger.State, id: Ledger.OpId) {
    id !in l.rows || l.rows[id].status == Ledger.Released
  }

  function DoDisposition(s: State, worker: nat): State {
    if worker in s.workers && !s.workers[worker].pc.Failed?
    then
      var w := s.workers[worker];
      s.(workers := s.workers[worker := w.(pc := Failed(w.pc == Admitted, Unbilled(s.ledger, AttemptId(w.job, w.attempt))))])
    else s
  }

  /** `settleShadowJob`: lands only under the claim's own token. */
  function Land(s: State, w: Worker, status: Status): map<JobId, Job> {
    if Holds(s, w, Running) || Holds(s, w, Invoking)
    then s.jobs[w.job := s.jobs[w.job].(status := status, token := None)]
    else s.jobs
  }

  function DoSettleFailure(s: State, worker: nat): State {
    if worker in s.workers && s.workers[worker].pc.Failed?
    then
      var w := s.workers[worker];
      var status := if w.pc.unbilled && w.attempt < MAX_ATTEMPTS then Pending else DeadLetter;
      s.(jobs := Land(s, w, status), workers := s.workers - {worker})
    else s
  }

  /** A terminal settlement: done only after the provider call. */
  function DoSettle(s: State, worker: nat, status: Status): State {
    if worker in s.workers && !s.workers[worker].pc.Failed?
       && (status == Cancelled || status == DeadLetter || (status == Done && s.workers[worker].pc == Admitted))
    then s.(jobs := Land(s, s.workers[worker], status), workers := s.workers - {worker})
    else s
  }

  function DoRetire(s: State, now: int): State {
    s.(jobs := map j | j in s.jobs ::
         if s.jobs[j].status == Invoking && s.jobs[j].leaseUntil < now
         then s.jobs[j].(status := DeadLetter, token := None) else s.jobs[j])
  }

  function DoCancel(s: State, job: JobId, now: int): State {
    if job in s.jobs && (s.jobs[job].status == Pending || s.jobs[job].status == Running
                         || (s.jobs[job].status == Invoking && s.jobs[job].leaseUntil <= now))
    then s.(jobs := s.jobs[job := s.jobs[job].(status := Cancelled, token := None)])
    else s
  }

  function DoEnqueue(s: State, job: JobId, status: Status): State {
    if job !in s.jobs && (status == Pending || status == Cancelled)
    then s.(jobs := s.jobs[job := Job(status, 0, None, 0)]) else s
  }

  function Apply(cfg: Ledger.Config, s: State, step: Step): State {
    match step
    case Enqueue(job, status) => DoEnqueue(s, job, status)
    case Claim(worker, job, now, leaseMs) => DoClaim(s, worker, job, now, leaseMs)
    case Admit(worker, fenced, now, leaseMs) => DoAdmit(s, worker, fenced, now, leaseMs)
    case ReserveFor(worker, req) => DoReserve(cfg, s, worker, req)
    case Elsewhere(step) => DoElsewhere(cfg, s, step)
    case Disposition(worker) => DoDisposition(s, worker)
    case SettleFailure(worker) => DoSettleFailure(s, worker)
    case Settle(worker, status) => DoSettle(s, worker, status)
    case Retire(now) => DoRetire(s, now)
    case Cancel(job, now) => DoCancel(s, job, now)
    case Die(worker) => s.(workers := s.workers - {worker})
  }

  function Run(cfg: Ledger.Config, s: State, steps: seq<Step>): State {
    if steps == [] then s
    else Apply(cfg, Run(cfg, s, steps[..|steps| - 1]), steps[|steps| - 1])
  }

  function Initial(w: Ledger.World): State {
    State(map[], Ledger.Initial(w), map[], 0, map[])
  }

  // ----- The invariant -----

  predicate Ascending(xs: seq<nat>) {
    forall i, j :: 0 <= i < j < |xs| ==> xs[i] < xs[j]
  }

  /** Tokens, statuses and admissions of one job agree. */
  predicate JobSound(s: State, j: JobId)
    requires j in s.jobs
  {
    var job := s.jobs[j];
    && (job.token.Some? <==> job.status == Running || job.status == Invoking)
    && (job.token.Some? ==> job.token.value < s.nextToken)
    && Ascending(AdmitsOf(s, j))
    && (forall i :: 0 <= i < |AdmitsOf(s, j)| ==> 1 <= AdmitsOf(s, j)[i] <= Min(job.attempts, MAX_ATTEMPTS))
    && (job.status == Running ==> forall i :: 0 <= i < |AdmitsOf(s, j)| ==> AdmitsOf(s, j)[i] < job.attempts)
  }

  ghost predicate WorkerSound(s: State, w: Worker) {
    && w.job in s.jobs && 1 <= w.attempt <= s.jobs[w.job].attempts && w.token < s.nextToken
    && (s.jobs[w.job].token == Some(w.token) ==> w.attempt == s.jobs[w.job].attempts)
    && ((w.pc == Claimed || (w.pc.Failed? && !w.pc.admitted)) && s.jobs[w.job].token == Some(w.token) ==>
          s.jobs[w.job].status == Running)
    && (w.pc == Admitted || (w.pc.Failed? && w.pc.admitted) ==>
          w.attempt == s.jobs[w.job].attempts && (Holds(s, w, Invoking) || Terminal(s.jobs[w.job])))
    && (w.pc.Failed? && w.pc.unbilled ==> Unbilled(s.ledger, AttemptId(w.job, w.attempt)))
  }

  ghost predicate WorkersApart(s: State) {
    forall v, w :: v in s.workers && w in s.workers && v != w ==>
      s.workers[v].token != s.workers[w].token
      && (s.workers[v].job == s.workers[w].job ==> s.workers[v].attempt != s.workers[w].attempt)
  }

  /** Only the latest attempt of a job can be anything but unbilled, and only once it has
      been admitted. */
  ghost predicate BilledSound(s: State) {
    && (forall j, n: nat :: j in s.jobs && (n < s.jobs[j].attempts || s.jobs[j].status == Pending || s.jobs[j].status == Running) ==>
          Unbilled(s.ledger, AttemptId(j, n)))
    && (forall j, n: nat :: AttemptId(j, n) in s.ledger.rows ==> j in s.jobs && n <= s.jobs[j].attempts)
  }

  ghost predicate Sound(cfg: Ledger.Config, s: State) {
    && LedgerMoney.Sound(cfg, s.ledger)
    && (forall j :: j in s.jobs ==> JobSound(s, j))
    && (forall j :: j in s.admits ==> j in s.jobs)
    && (forall w :: w in s.workers ==> WorkerSound(s, s.workers[w]))
    && WorkersApart(s)
    && BilledSound(s)
  }

  // ----- Ledger steps under the invariant -----

  /** No attempt row appears, and an unbilled attempt stays unbilled. */
  ghost predicate AttemptsKept(l: Ledger.State, m: Ledger.State) {
    forall id :: IsShadowId(id) ==> (id in m.rows ==> id in l.rows) && (Unbilled(l, id) ==> Unbilled(m, id))
  }

  lemma RowsComeFromReserves(cfg: Ledger.Config, l: Ledger.State, step: Ledger.Step)
    ensures var m := Ledger.Apply(cfg, l, step);
            forall id :: id in m.rows ==> id in l.rows || (step.ReserveStep? && id == step.req.id)
  {
    match step
    case ReserveStep(req) => LedgerSafety.ReserveInsertsOnly(cfg, l, req); hide Ledger.ReserveBatch;
    case BatchStep(call) =>
    case InvokeStep(id, token, gate, now) =>
    case _ =>
  }

  lemma LedgerKeepsUnbilled(cfg: Ledger.Config, l: Ledger.State, step: Ledger.Step, id: Ledger.OpId)
    requires LedgerMoney.Sound(cfg, l) && Unbilled(l, id) && (step.ReserveStep? ==> step.req.id != id)
    ensures Unbilled(Ledger.Apply(cfg, l, step), id)
  {
    RowsComeFromReserves(cfg, l, step);
    assert forall c :: c in l.calls ==> LedgerMoney.CallSound(l.rows, l.calls[c]);
    LedgerSafety.RowsEvolveInStep(cfg, l, step);
    hide Ledger.Apply, LedgerMoney.Sound;
  }

  lemma ElsewhereKeepsAttempts(cfg: Ledger.Config, l: Ledger.State, step: Ledger.Step)
    requires LedgerMoney.Sound(cfg, l) && !(step.ReserveStep? && IsShadowId(step.req.id))
    ensures AttemptsKept(l, Ledger.Apply(cfg, l, step)) && LedgerMoney.Sound(cfg, Ledger.Apply(cfg, l, step))
  {
    RowsComeFromReserves(cfg, l, step);
    LedgerMoney.SoundStep(cfg, l, step);
    hide Ledger.Apply, LedgerMoney.Sound, Unbilled;
    forall id | IsShadowId(id) && Unbilled(l, id) ensures Unbilled(Ledger.Apply(cfg, l, step), id) {
      LedgerKeepsUnbilled(cfg, l, step, id);
    }
  }

  lemma SoundElsewhere(cfg: Ledger.Config, s: State, step: Ledger.Step)
    requires Sound(cfg, s)
    ensures Sound(cfg, DoElsewhere(cfg, s, step))
  {
    if !(step.ReserveStep? && IsShadowId(step.req.id)) {
      ElsewhereKeepsAttempts(cfg, s.ledger, step);
      var m := Ledger.Apply(cfg, s.ledger, step);
      hide Ledger.Apply, LedgerMoney.Sound, Unbilled, AttemptScope;
      KeptSound(cfg, s, m);
    }
  }

  lemma KeptSound(cfg: Ledger.Config, s: State, m: Ledger.State)
    requires Sound(cfg, s) && AttemptsKept(s.ledger, m) && LedgerMoney.Sound(cfg, m)
    ensures Sound(cfg, s.(ledger := m))
  {
    var t := s.(ledger := m);
    hide LedgerMoney.Sound, Unbilled, AttemptScope;
    assert forall j, n: nat :: IsShadowId(AttemptId(j, n));
    forall w | w in t.workers ensures WorkerSound(t, t.workers[w]) {
      assert WorkerSound(s, s.workers[w]);
    }
    forall j | j in t.jobs ensures JobSound(t, j) {
      assert JobSound(s, j);
    }
  }

  lemma SoundReserve(cfg: Ledger.Config, s: State, worker: nat, req: Ledger.Request)
    requires Sound(cfg, s)
    ensures Sound(cfg, DoReserve(cfg, s, worker, req))
  {
    if worker in s.workers && s.workers[worker].pc == Admitted
       && req.id == AttemptId(s.workers[worker].job, s.workers[worker].attempt) {
      var w := s.workers[worker];
      var step := Ledger.ReserveStep(req);
      var m := Ledger.Apply(cfg, s.ledger, step);
      assert WorkerSound(s, w);
      RowsComeFromReserves(cfg, s.ledger, step);
      LedgerMoney.SoundStep(cfg, s.ledger, step);
      hide Ledger.Apply, LedgerMoney.Sound, AttemptId, Unbilled;
      forall j, n: nat | AttemptId(j, n) == req.id ensures j == w.job && n == w.attempt {
        AttemptIdInjective(j, n, w.job, w.attempt);
      }
      forall j, n: nat | AttemptId(j, n) != req.id && Unbilled(s.ledger, AttemptId(j, n)) ensures Unbilled(m, AttemptId(j, n)) {
        LedgerKeepsUnbilled(cfg, s.ledger, step, AttemptId(j, n));
      }
      ReservedSound(cfg, s, worker, m);
    }
  }

  /** Every attempt but the worker's own is as it was. */
  ghost predicate OthersKept(s: State, worker: nat, m: Ledger.State)
    requires worker in s.workers
  {
    forall j, n: nat :: !(j == s.workers[worker].job && n == s.workers[worker].attempt) ==>
      (AttemptId(j, n) in m.rows ==> AttemptId(j, n) in s.ledger.rows)
      && (Unbilled(s.ledger, AttemptId(j, n)) ==> Unbilled(m, AttemptId(j, n)))
  }

  lemma ReservedWorkers(s: State, worker: nat, m: Ledger.State)
    requires worker in s.workers && s.workers[worker].pc == Admitted && OthersKept(s, worker, m) && WorkersApart(s)
    requires forall w :: w in s.workers ==> WorkerSound(s, s.workers[w])
    ensures var t := s.(ledger := m); forall w :: w in t.workers ==> WorkerSound(t, t.workers[w])
  {
    hide Unbilled, AttemptId;
    var t := s.(ledger := m);
    forall w | w in t.workers ensures WorkerSound(t, t.workers[w]) {
      assert WorkerSound(s, s.workers[w]);
    }
  }

  lemma ReservedBilled(s: State, worker: nat, m: Ledger.State)
    requires worker in s.workers && s.workers[worker].pc == Admitted && OthersKept(s, worker, m)
    requires BilledSound(s) && WorkerSound(s, s.workers[worker])
    ensures BilledSound(s.(ledger := m))
  {
    hide Unbilled, AttemptId;
  }

  /** The admitted worker's own row may appear. */
  lemma ReservedSound(cfg: Ledger.Config, s: State, worker: nat, m: Ledger.State)
    requires Sound(cfg, s) && worker in s.workers && s.workers[worker].pc == Admitted && LedgerMoney.Sound(cfg, m)
    requires OthersKept(s, worker, m)
    ensures Sound(cfg, s.(ledger := m))
  {
    var t := s.(ledger := m);
    hide LedgerMoney.Sound, Unbilled, AttemptId, WorkerSound, BilledSound, WorkersApart, OthersKept, Sound;
    PartsOf(cfg, s);
    ReservedWorkers(s, worker, m);
    ReservedBilled(s, worker, m);
    forall j | j in t.jobs ensures JobSound(t, j) {
      assert JobSound(s, j);
    }
    assert WorkersApart(t) by { SameWorkersApart(s, t); }
    SoundParts(cfg, t);
  }

  lemma SameWorkersApart(s: State, t: State)
    requires WorkersApart(s) && t.workers == s.workers
    ensures WorkersApart(t)
  {
  }

  // ----- Steps on jobs and workers -----

  /** What the job changes must respect for the workers and rows of other attempts. */
  lemma SoundParts(cfg: Ledger.Config, s: State)
    requires LedgerMoney.Sound(cfg, s.ledger)
    requires forall j :: j in s.jobs ==> JobSound(s, j)
    requires forall j :: j in s.admits ==> j in s.jobs
    requires forall w :: w in s.workers ==> WorkerSound(s, s.workers[w])
    requires WorkersApart(s) && BilledSound(s)
    ensures Sound(cfg, s)
  {
  }

  lemma PartsOf(cfg: Ledger.Config, s: State)
    requires Sound(cfg, s)
    ensures LedgerMoney.Sound(cfg, s.ledger)
    ensures forall j :: j in s.jobs ==> JobSound(s, j)
    ensures forall j :: j in s.admits ==> j in s.jobs
    ensures forall w :: w in s.workers ==> WorkerSound(s, s.workers[w])
    ensures WorkersApart(s) && BilledSound(s)
  {
  }

  lemma ClaimWorkers(s: State, worker: nat, job: JobId, now: int, leaseMs: nat)
    requires job in s.jobs && JobSound(s, job) && MayClaim(s.jobs[job], now) && worker !in s.workers
    requires forall w :: w in s.workers ==> WorkerSound(s, s.workers[w])
    ensures var t := DoClaim(s, worker, job, now, leaseMs); forall w :: w in t.workers ==> WorkerSound(t, t.workers[w])
  {
    hide AttemptId, Unbilled, JobSound;
    var t := DoClaim(s, worker, job, now, leaseMs);
    forall w | w in t.workers ensures WorkerSound(t, t.workers[w]) {
      if w in s.workers { assert WorkerSound(s, s.workers[w]); }
    }
  }

  lemma ClaimApart(s: State, worker: nat, job: JobId, now: int, leaseMs: nat)
    requires job in s.jobs && MayClaim(s.jobs[job], now) && worker !in s.workers && WorkersApart(s)
    requires forall w :: w in s.workers ==> WorkerSound(s, s.workers[w])
    ensures WorkersApart(DoClaim(s, worker, job, now, leaseMs))
  {
    hide AttemptId, Unbilled;
    var t := DoClaim(s, worker, job, now, leaseMs);
    forall w | w in s.workers
      ensures s.workers[w].token < s.nextToken && (s.workers[w].job == job ==> s.workers[w].attempt <= s.jobs[job].attempts)
    {
      assert WorkerSound(s, s.workers[w]);
    }
    assert forall w :: w in t.workers && w != worker ==> t.workers[w] == s.workers[w];
  }

  lemma ClaimBilled(s: State, worker: nat, job: JobId, now: int, leaseMs: nat)
    requires job in s.jobs && MayClaim(s.jobs[job], now) && worker !in s.workers && BilledSound(s)
    ensures BilledSound(DoClaim(s, worker, job, now, leaseMs))
  {
    hide AttemptId;
    var t := DoClaim(s, worker, job, now, leaseMs);
    forall j, n: nat | j in t.jobs && (n < t.jobs[j].attempts || t.jobs[j].status == Pending || t.jobs[j].status == Running)
      ensures Unbilled(t.ledger, AttemptId(j, n))
    {
      if j == job && n > s.jobs[job].attempts { LaterAttemptsUnbilled(s, job, n); }
    }
  }

  lemma SoundClaim(cfg: Ledger.Config, s: State, worker: nat, job: JobId, now: int, leaseMs: nat)
    requires Sound(cfg, s)
    ensures Sound(cfg, DoClaim(s, worker, job, now, leaseMs))
  {
    hide LedgerMoney.Sound, AttemptId, Sound, WorkerSound, WorkersApart, BilledSound;
    PartsOf(cfg, s);
    if worker !in s.workers && job in s.jobs && MayClaim(s.jobs[job], now) {
      var t := DoClaim(s, worker, job, now, leaseMs);
      ClaimWorkers(s, worker, job, now, leaseMs);
      ClaimApart(s, worker, job, now, leaseMs);
      ClaimBilled(s, worker, job, now, leaseMs);
      forall j | j in t.jobs ensures JobSound(t, j) {
        assert JobSound(s, j);
      }
      SoundParts(cfg, t);
    }
  }

  lemma AdmitJobs(s: State, worker: nat, now: int, leaseMs: nat)
    requires worker in s.workers && Holds(s, s.workers[worker], Running) && s.workers[worker].attempt <= MAX_ATTEMPTS
    requires s.workers[worker].pc == Claimed && WorkerSound(s, s.workers[worker])
    requires forall j :: j in s.jobs ==> JobSound(s, j)
    ensures var t := DoAdmit(s, worker, false, now, leaseMs); forall j :: j in t.jobs ==> JobSound(t, j)
  {
    hide AttemptId, Unbilled;
    var t := DoAdmit(s, worker, false, now, leaseMs);
    forall j | j in t.jobs ensures JobSound(t, j) {
      assert JobSound(s, j);
    }
  }

  lemma AdmitWorkers(s: State, worker: nat, now: int, leaseMs: nat)
    requires worker in s.workers && Holds(s, s.workers[worker], Running) && s.workers[worker].attempt <= MAX_ATTEMPTS
    requires s.workers[worker].pc == Claimed && WorkersApart(s)
    requires forall w :: w in s.workers ==> WorkerSound(s, s.workers[w])
    ensures var t := DoAdmit(s, worker, false, now, leaseMs);
            WorkersApart(t) && forall w :: w in t.workers ==> WorkerSound(t, t.workers[w])
  {
    hide AttemptId, Unbilled;
    var t := DoAdmit(s, worker, false, now, leaseMs);
    forall v | v in t.workers ensures WorkerSound(t, t.workers[v]) {
      assert WorkerSound(s, s.workers[v]);
    }
  }

  lemma AdmitBilled(s: State, worker: nat, now: int, leaseMs: nat)
    requires worker in s.workers && Holds(s, s.workers[worker], Running) && s.workers[worker].attempt <= MAX_ATTEMPTS
    requires s.workers[worker].pc == Claimed && BilledSound(s)
    ensures BilledSound(DoAdmit(s, worker, false, now, leaseMs))
  {
    hide AttemptId, Unbilled;
  }

  lemma SoundAdmit(cfg: Ledger.Config, s: State, worker: nat, fenced: bool, now: int, leaseMs: nat)
    requires Sound(cfg, s)
    ensures Sound(cfg, DoAdmit(s, worker, fenced, now, leaseMs))
  {
    hide LedgerMoney.Sound, AttemptId, Sound, WorkerSound, WorkersApart, BilledSound, JobSound;
    PartsOf(cfg, s);
    if worker in s.workers && s.workers[worker].pc == Claimed && s.workers[worker].attempt <= MAX_ATTEMPTS
       && !fenced && Holds(s, s.workers[worker], Running) {
      AdmitJobs(s, worker, now, leaseMs);
      AdmitWorkers(s, worker, now, leaseMs);
      AdmitBilled(s, worker, now, leaseMs);
      SoundParts(cfg, DoAdmit(s, worker, fenced, now, leaseMs));
    }
  }

  /** Workers come and go; each knows its job as it stands. */
  lemma SoundWorkers(cfg: Ledger.Config, s: State, workers: map<nat, Worker>)
    requires Sound(cfg, s)
    requires forall w :: w in workers ==> WorkerSound(s, workers[w])
    requires WorkersApart(s.(workers := workers))
    ensures Sound(cfg, s.(workers := workers))
  {
    hide LedgerMoney.Sound, AttemptId, Sound, Unbilled, WorkersApart;
    PartsOf(cfg, s);
    var t := s.(workers := workers);
    forall j | j in t.jobs ensures JobSound(t, j) {
      assert JobSound(s, j);
    }
    forall v | v in t.workers ensures WorkerSound(t, t.workers[v]) {
      assert WorkerSound(s, workers[v]);
    }
    assert BilledSound(t);
    hide JobSound, WorkerSound, BilledSound;
    SoundParts(cfg, t);
  }

  lemma SoundDisposition(cfg: Ledger.Config, s: State, worker: nat)
    requires Sound(cfg, s)
    ensures Sound(cfg, DoDisposition(s, worker))
  {
    hide LedgerMoney.Sound, AttemptId, Sound, Unbilled, JobSound, BilledSound;
    PartsOf(cfg, s);
    if worker in s.workers && !s.workers[worker].pc.Failed? {
      var t := DoDisposition(s, worker);
      forall v | v in t.workers ensures WorkerSound(s, t.workers[v]) {
        assert WorkerSound(s, s.workers[v]);
      }
      SoundWorkers(cfg, s, t.workers);
    }
  }

  predicate MayLeave(s: State, job: JobId, status: Status)
    requires job in s.jobs
  {
    status == Done || status == Cancelled || status == DeadLetter
    || (status == Pending && Unbilled(s.ledger, AttemptId(job, s.jobs[job].attempts))
        && forall v :: v in s.workers && s.workers[v].job == job && s.workers[v].attempt == s.jobs[job].attempts ==>
             !(s.workers[v].pc == Admitted || (s.workers[v].pc.Failed? && s.workers[v].pc.admitted)))
  }

  lemma LeaveWorkers(s: State, job: JobId, status: Status)
    requires job in s.jobs && MayLeave(s, job, status)
    requires forall w :: w in s.workers ==> WorkerSound(s, s.workers[w])
    ensures var t := s.(jobs := s.jobs[job := s.jobs[job].(status := status, token := None)]);
            forall w :: w in t.workers ==> WorkerSound(t, t.workers[w])
  {
    hide AttemptId, Unbilled;
    var t := s.(jobs := s.jobs[job := s.jobs[job].(status := status, token := None)]);
    forall v | v in t.workers ensures WorkerSound(t, t.workers[v]) {
      assert WorkerSound(s, s.workers[v]);
    }
  }

  lemma LeaveBilled(s: State, job: JobId, status: Status)
    requires job in s.jobs && MayLeave(s, job, status) && BilledSound(s)
    ensures BilledSound(s.(jobs := s.jobs[job := s.jobs[job].(status := status, token := None)]))
  {
    hide AttemptId;
    var t := s.(jobs := s.jobs[job := s.jobs[job].(status := status, token := None)]);
    forall j, n: nat | j in t.jobs && (n < t.jobs[j].attempts || t.jobs[j].status == Pending || t.jobs[j].status == Running)
      ensures Unbilled(t.ledger, AttemptId(j, n))
    {
      if j == job && n > s.jobs[job].attempts { LaterAttemptsUnbilled(s, job, n); }
    }
  }

  /** A job closes, or goes back to the queue with its latest attempt proven unbilled. */
  lemma SoundLeave(cfg: Ledger.Config, s: State, job: JobId, status: Status)
    requires Sound(cfg, s) && job in s.jobs && !Terminal(s.jobs[job]) && MayLeave(s, job, status)
    ensures Sound(cfg, s.(jobs := s.jobs[job := s.jobs[job].(status := status, token := None)]))
  {
    var t := s.(jobs := s.jobs[job := s.jobs[job].(status := status, token := None)]);
    hide LedgerMoney.Sound, AttemptId, Sound, WorkerSound, BilledSound, MayLeave;
    PartsOf(cfg, s);
    LeaveWorkers(s, job, status);
    LeaveBilled(s, job, status);
    LeavesRole(s, job, status);
    forall j | j in t.jobs ensures JobSound(t, j) {
      assert JobSound(s, j);
    }
    assert WorkersApart(t);
    hide WorkersApart, JobSound;
    SoundParts(cfg, t);
  }

  lemma LeavesRole(s: State, job: JobId, status: Status)
    requires job in s.jobs && MayLeave(s, job, status)
    ensures status != Running && status != Invoking
  {
  }

  lemma LaterAttemptsUnbilled(s: State, job: JobId, n: nat)
    requires BilledSound(s) && job in s.jobs && n >= s.jobs[job].attempts
    ensures n > s.jobs[job].attempts ==> Unbilled(s.ledger, AttemptId(job, n))
  {
  }

  lemma SoundWithout(cfg: Ledger.Config, s: State, worker: nat)
    requires Sound(cfg, s)
    ensures Sound(cfg, s.(workers := s.workers - {worker}))
  {
    PartsOf(cfg, s);
    hide LedgerMoney.Sound, AttemptId, Sound, WorkerSound;
    SoundWorkers(cfg, s, s.workers - {worker});
  }

  lemma SoundSettleFailure(cfg: Ledger.Config, s: State, worker: nat)
    requires Sound(cfg, s)
    ensures Sound(cfg, DoSettleFailure(s, worker))
  {
    if worker in s.workers && s.workers[worker].pc.Failed? {
      var w := s.workers[worker];
      var status := if w.pc.unbilled && w.attempt < MAX_ATTEMPTS then Pending else DeadLetter;
      PartsOf(cfg, s);
      assert WorkerSound(s, w);
      SoundWithout(cfg, s, worker);
      var t := s.(workers := s.workers - {worker});
      hide LedgerMoney.Sound, AttemptId, Sound;
      if Holds(s, w, Running) || Holds(s, w, Invoking) {
        assert MayLeave(t, w.job, status) by { FailureMayLeave(s, worker, t, status); }
        SoundLeave(cfg, t, w.job, status);
      }
    }
  }

  /** No other worker shares the attempt, so putting the job back admits no rival. */
  lemma FailureMayLeave(s: State, worker: nat, t: State, status: Status)
    requires WorkersApart(s) && worker in s.workers && t == s.(workers := s.workers - {worker})
    requires s.workers[worker].pc.Failed? && s.workers[worker].job in s.jobs
    requires status == DeadLetter || (status == Pending && s.workers[worker].pc.unbilled)
    requires WorkerSound(s, s.workers[worker]) && s.jobs[s.workers[worker].job].token == Some(s.workers[worker].token)
    ensures MayLeave(t, s.workers[worker].job, status)
  {
    hide AttemptId;
  }

  lemma SoundSettle(cfg: Ledger.Config, s: State, worker: nat, status: Status)
    requires Sound(cfg, s)
    ensures Sound(cfg, DoSettle(s, worker, status))
  {
    hide Sound;
    if worker in s.workers && !s.workers[worker].pc.Failed?
       && (status == Cancelled || status == DeadLetter || (status == Done && s.workers[worker].pc == Admitted)) {
      var w := s.workers[worker];
      var t := s.(workers := s.workers - {worker});
      SoundWithout(cfg, s, worker);
      if Holds(s, w, Running) || Holds(s, w, Invoking) {
        SoundLeave(cfg, t, w.job, status);
      }
    }
  }

  lemma SoundCancel(cfg: Ledger.Config, s: State, job: JobId, now: int)
    requires Sound(cfg, s)
    ensures Sound(cfg, DoCancel(s, job, now))
  {
    hide Sound;
    if DoCancel(s, job, now) != s { SoundLeave(cfg, s, job, Cancelled); }
  }

  lemma RetireWorkers(s: State, now: int)
    requires forall w :: w in s.workers ==> WorkerSound(s, s.workers[w])
    ensures var t := DoRetire(s, now); forall w :: w in t.workers ==> WorkerSound(t, t.workers[w])
  {
    hide Unbilled, AttemptId;
    var t := DoRetire(s, now);
    forall v | v in t.workers ensures WorkerSound(t, t.workers[v]) {
      assert WorkerSound(s, s.workers[v]);
    }
  }

  lemma RetireBilled(s: State, now: int)
    requires BilledSound(s)
    ensures BilledSound(DoRetire(s, now))
  {
    hide Unbilled, AttemptId;
  }

  lemma SoundRetire(cfg: Ledger.Config, s: State, now: int)
    requires Sound(cfg, s)
    ensures Sound(cfg, DoRetire(s, now))
  {
    var t := DoRetire(s, now);
    hide LedgerMoney.Sound, AttemptId, Sound, WorkerSound, BilledSound, WorkersApart;
    PartsOf(cfg, s);
    RetireWorkers(s, now);
    RetireBilled(s, now);
    forall j | j in t.jobs ensures JobSound(t, j) {
      assert JobSound(s, j);
    }
    SameWorkersApart(s, t);
    SoundParts(cfg, t);
  }

  lemma EnqueueWorkers(s: State, job: JobId, status: Status)
    requires job !in s.jobs && forall w :: w in s.workers ==> WorkerSound(s, s.workers[w])
    ensures var t := s.(jobs := s.jobs[job := Job(status, 0, None, 0)]);
            forall w :: w in t.workers ==> WorkerSound(t, t.workers[w])
  {
    hide Unbilled, AttemptId;
    var t := s.(jobs := s.jobs[job := Job(status, 0, None, 0)]);
    forall v | v in t.workers ensures WorkerSound(t, t.workers[v]) {
      assert WorkerSound(s, s.workers[v]);
    }
  }

  lemma EnqueueBilled(s: State, job: JobId, status: Status)
    requires job !in s.jobs && BilledSound(s)
    ensures BilledSound(s.(jobs := s.jobs[job := Job(status, 0, None, 0)]))
  {
    hide AttemptId;
  }

  lemma SoundEnqueue(cfg: Ledger.Config, s: State, job: JobId, status: Status)
    requires Sound(cfg, s)
    ensures Sound(cfg, DoEnqueue(s, job, status))
  {
    hide LedgerMoney.Sound, AttemptId, Sound, WorkerSound, BilledSound, WorkersApart;
    PartsOf(cfg, s);
    if job !in s.jobs && (status == Pending || status == Cancelled) {
      var t := DoEnqueue(s, job, status);
      EnqueueWorkers(s, job, status);
      EnqueueBilled(s, job, status);
      assert AdmitsOf(s, job) == [];
      forall j | j in t.jobs ensures JobSound(t, j) {
        if j in s.jobs { assert JobSound(s, j); }
      }
      SameWorkersApart(s, t);
      SoundParts(cfg, t);
    }
  }

  lemma SoundStep(cfg: Ledger.Config, s: State, step: Step)
    requires Sound(cfg, s)
    ensures Sound(cfg, Apply(cfg, s, step))
  {
    hide Sound, DoEnqueue, DoClaim, DoAdmit, DoReserve, DoElsewhere, DoDisposition, DoSettleFailure, DoSettle, DoRetire, DoCancel;
    match step
    case Enqueue(job, status) => SoundEnqueue(cfg, s, job, status);
    case Claim(worker, job, now, leaseMs) => SoundClaim(cfg, s, worker, job, now, leaseMs);
    case Admit(worker, fenced, now, leaseMs) => SoundAdmit(cfg, s, worker, fenced, now, leaseMs);
    case ReserveFor(worker, req) => SoundReserve(cfg, s, worker, req);
    case Elsewhere(inner) => SoundElsewhere(cfg, s, inner);
    case Disposition(worker) => SoundDisposition(cfg, s, worker);
    case SettleFailure(worker) => SoundSettleFailure(cfg, s, worker);
    case Settle(worker, status) => SoundSettle(cfg, s, worker, status);
    case Retire(now) => SoundRetire(cfg, s, now);
    case Cancel(job, now) => SoundCancel(cfg, s, job, now);
    case Die(worker) => SoundWithout(cfg, s, worker);
  }

  lemma {:induction false} SoundRun(cfg: Ledger.Config, w: Ledger.World, steps: seq<Step>)
    ensures Sound(cfg, Run(cfg, Initial(w), steps))
  {
    hide Sound, Apply, Initial;
    if steps == [] {
      SoundInitial(cfg, w);
    } else {
      SoundRun(cfg, w, steps[..|steps| - 1]);
      SoundStep(cfg, Run(cfg, Initial(w), steps[..|steps| - 1]), steps[|steps| - 1]);
    }
  }

  lemma SoundInitial(cfg: Ledger.Config, w: Ledger.World)
    ensures Sound(cfg, Initial(w))
  {
    LedgerMoney.SoundRun(cfg, w, []);
    hide LedgerMoney.Sound, AttemptId;
  }

  // ----- Main results -----

  predicate Charged(l: Ledger.State, id: Ledger.OpId) {
    id in l.rows && (l.rows[id].status == Ledger.Settled || l.rows[id].status == Ledger.AmbiguousCharged)
  }

  /** Shadow jobs charge at most once: over every run - expired leases, crashes, stale
      workers, reapers - a job is admitted to its provider call at most twice, each time
      for a later attempt, and at most one attempt's reservation ends charged. */
  lemma ChargesAtMostOnce(cfg: Ledger.Config, w: Ledger.World, steps: seq<Step>, job: JobId, m: nat, n: nat)
    ensures var s := Run(cfg, Initial(w), steps);
            && Ascending(AdmitsOf(s, job)) && |AdmitsOf(s, job)| <= MAX_ATTEMPTS
            && (Charged(s.ledger, AttemptId(job, m)) && Charged(s.ledger, AttemptId(job, n)) ==> m == n)
  {
    var s := Run(cfg, Initial(w), steps);
    SoundRun(cfg, w, steps);
    PartsOf(cfg, s);
    hide Sound, LedgerMoney.Sound, AttemptId, Run;
    if job in s.jobs {
      assert JobSound(s, job);
      AtMostTwo(AdmitsOf(s, job));
    }
    if Charged(s.ledger, AttemptId(job, m)) && Charged(s.ledger, AttemptId(job, n)) {
      ChargedIsLatest(s, job, m);
      ChargedIsLatest(s, job, n);
    }
  }

  lemma ChargedIsLatest(s: State, job: JobId, n: nat)
    requires BilledSound(s) && Charged(s.ledger, AttemptId(job, n))
    ensures job in s.jobs && n == s.jobs[job].attempts
  {
    hide AttemptId;
    assert !Unbilled(s.ledger, AttemptId(job, n));
  }

  lemma {:induction false} IndexBelow(xs: seq<nat>, i: nat)
    requires Ascending(xs) && i < |xs| && xs[0] >= 1
    ensures xs[i] >= i + 1
  {
    if i > 0 {
      IndexBelow(xs, i - 1);
    }
  }

  lemma AtMostTwo(xs: seq<nat>)
    requires Ascending(xs) && forall i :: 0 <= i < |xs| ==> 1 <= xs[i] <= MAX_ATTEMPTS
    ensures |xs| <= MAX_ATTEMPTS
  {
    if xs != [] {
      IndexBelow(xs, |xs| - 1);
    }
  }

  /** An invoking job is never claimed again: it leaves that status only by becoming
      terminal, or by going back to the queue with its attempt proven unbilled. */
  lemma InvokingIsNeverReclaimed(cfg: Ledger.Config, w: Ledger.World, steps: seq<Step>, step: Step, job: JobId)
    ensures var s := Run(cfg, Initial(w), steps);
            var t := Apply(cfg, s, step);
            job in s.jobs && s.jobs[job].status == Invoking ==>
              && job in t.jobs && t.jobs[job].attempts == s.jobs[job].attempts
              && (t.jobs[job] == s.jobs[job] || Terminal(t.jobs[job])
                  || (t.jobs[job].status == Pending && Unbilled(t.ledger, AttemptId(job, t.jobs[job].attempts))))
  {
    var s := Run(cfg, Initial(w), steps);
    var t := Apply(cfg, s, step);
    SoundRun(cfg, w, steps);
    SoundStep(cfg, s, step);
    PartsOf(cfg, t);
    if job in s.jobs && s.jobs[job].status == Invoking { InvokingLeaves(cfg, s, step, job); }
    hide Sound, LedgerMoney.Sound, AttemptId, Run, Apply, Unbilled, WorkerSound, WorkersApart, JobSound;
    if job in t.jobs && t.jobs[job].status == Pending {
      assert BilledSound(t);
    }
  }

  lemma InvokingLeaves(cfg: Ledger.Config, s: State, step: Step, job: JobId)
    requires job in s.jobs && s.jobs[job].status == Invoking
    ensures var t := Apply(cfg, s, step);
            && job in t.jobs && t.jobs[job].attempts == s.jobs[job].attempts
            && (t.jobs[job] == s.jobs[job] || Terminal(t.jobs[job]) || t.jobs[job].status == Pending)
  {
    hide Ledger.Apply, AttemptId, Unbilled;
    match step
    case Claim(worker, j, now, leaseMs) =>
    case Admit(worker, fenced, now, leaseMs) =>
    case SettleFailure(worker) =>
    case Settle(worker, status) =>
    case Retire(now) =>
    case Cancel(j, now) =>
    case Enqueue(j, status) =>
    case ReserveFor(worker, req) =>
    case Elsewhere(inner) =>
    case Disposition(worker) =>
    case Die(worker) =>
  }
}

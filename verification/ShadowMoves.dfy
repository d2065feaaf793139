/** Exactly how a shadow job, a drain's hold on it and the ledger move in each step. */
module ShadowMoves {
  import opened Wrappers
  import opened Shadow
  import Ledger

  /** The worker's claim on its job is the live one. */
  predicate Live(s: State, worker: nat) {
    && worker in s.workers
    && var w := s.workers[worker];
       w.job in s.jobs && s.jobs[w.job].token == Some(w.token) && s.jobs[w.job].status in {Running, Invoking}
  }

  /** The step admits this worker to its provider call. */
  predicate Admits(s: State, step: Step, worker: nat) {
    && step.Admit? && step.worker == worker && !step.fenced && Live(s, worker)
    && s.workers[worker].pc == Claimed && s.workers[worker].attempt <= 2 && s.jobs[s.workers[worker].job].status == Running
  }

  /** The job may be taken for a new attempt: it waits, or its claim has expired before any
      provider call began. */
  predicate Claimable(j: Job, now: int) {
    j.status == Pending || (j.status == Running && now > j.leaseUntil)
  }

  /** A job row after a step. */
  function JobAfter(s: State, step: Step, j: JobId): Job
    requires j in s.jobs
  {
    var job := s.jobs[j];
    match step
    case Claim(worker, id, now, leaseMs) =>
      if id == j && worker !in s.workers && Claimable(job, now)
      then Job(Running, job.attempts + 1, Some(s.nextToken), now + leaseMs) else job
    case Admit(worker, _, now, leaseMs) =>
      if Admits(s, step, worker) && s.workers[worker].job == j then Job(Invoking, job.attempts, job.token, now + leaseMs) else job
    case SettleFailure(worker) =>
      if Live(s, worker) && s.workers[worker].job == j && s.workers[worker].pc.Failed? then
        Job(if s.workers[worker].pc.unbilled && s.workers[worker].attempt < 2 then Pending else DeadLetter,
            job.attempts, None, job.leaseUntil)
      else job
    case Settle(worker, status) =>
      if Live(s, worker) && s.workers[worker].job == j
         && ((s.workers[worker].pc == Claimed && status in {Cancelled, DeadLetter})
             || (s.workers[worker].pc == Admitted && status in {Cancelled, DeadLetter, Done}))
      then Job(status, job.attempts, None, job.leaseUntil) else job
    case Retire(now) =>
      if job.status == Invoking && now > job.leaseUntil then Job(DeadLetter, job.attempts, None, job.leaseUntil) else job
    case Cancel(id, now) =>
      if id == j && (job.status in {Pending, Running} || (job.status == Invoking && now >= job.leaseUntil))
      then Job(Cancelled, job.attempts, None, job.leaseUntil) else job
    case _ => job
  }

  /** The attempt has cost nothing: it has no reservation, or a released one. */
  predicate CostNothing(s: State, w: Worker) {
    var id := AttemptId(w.job, w.attempt);
    id in s.ledger.rows ==> s.ledger.rows[id].status == Ledger.Released
  }

  /** A drain's hold after a step, if it keeps one. */
  function WorkerAfter(s: State, step: Step, worker: nat): Option<Worker> {
    var before := if worker in s.workers then Some(s.workers[worker]) else None;
    match step
    case Claim(w, id, now, _) =>
      if w == worker && before.None? && id in s.jobs && Claimable(s.jobs[id], now)
      then Some(Worker(id, s.jobs[id].attempts + 1, s.nextToken, Claimed)) else before
    case Admit(w, _, _, _) => if w == worker && Admits(s, step, w) then Some(s.workers[w].(pc := Admitted)) else before
    case Disposition(w) =>
      if w == worker && before.Some? && !before.value.pc.Failed?
      then Some(before.value.(pc := Failed(before.value.pc == Admitted, CostNothing(s, before.value)))) else before
    case SettleFailure(w) => if w == worker && before.Some? && before.value.pc.Failed? then None else before
    case Settle(w, status) =>
      if w == worker && before.Some? && !before.value.pc.Failed?
         && (status in {Cancelled, DeadLetter} || (status == Done && before.value.pc == Admitted))
      then None else before
    case Die(w) => if w == worker then None else before
    case _ => before
  }

  /** Each job row, each hold and the admissions of each job after a step. */
  lemma JobsExactly(cfg: Ledger.Config, s: State, step: Step, j: JobId, worker: nat)
    ensures var t := Apply(cfg, s, step);
            && (j in s.jobs ==> j in t.jobs && t.jobs[j] == JobAfter(s, step, j))
            && (j !in s.jobs ==>
                  if step.Enqueue? && step.job == j && step.status in {Pending, Cancelled}
                  then j in t.jobs && t.jobs[j] == Job(step.status, 0, None, 0) else j !in t.jobs)
            && (if WorkerAfter(s, step, worker).Some?
                then worker in t.workers && t.workers[worker] == WorkerAfter(s, step, worker).value else worker !in t.workers)
            && AdmitsOf(t, j) == AdmitsOf(s, j) + (if step.Admit? && Admits(s, step, step.worker) && s.workers[step.worker].job == j
                                                   then [s.workers[step.worker].attempt] else [])
  {
    hide AttemptId, DoElsewhere, DoReserve;
    match step
    case ReserveFor(w, req) => LedgerOnly(cfg, s, step);
    case Elsewhere(_) => LedgerOnly(cfg, s, step);
    case _ =>
  }

  lemma LedgerOnly(cfg: Ledger.Config, s: State, step: Step)
    requires step.ReserveFor? || step.Elsewhere?
    ensures var t := Apply(cfg, s, step); t == s.(ledger := t.ledger)
  {
  }

  /** The ledger moves by the reservations of admitted attempts under their own ids, and by
      whatever happens to rows that are not shadow reservations being made. */
  lemma LedgerExactly(cfg: Ledger.Config, s: State, step: Step)
    ensures Apply(cfg, s, step).ledger ==
            match step
            case ReserveFor(w, req) =>
              if w in s.workers && s.workers[w].pc == Admitted && req.id == AttemptId(s.workers[w].job, s.workers[w].attempt)
              then Ledger.Apply(cfg, s.ledger, Ledger.ReserveStep(req)) else s.ledger
            case Elsewhere(other) =>
              if other.ReserveStep? && other.req.id.Derived? && other.req.id.scope == "shadow_extract"
              then s.ledger else Ledger.Apply(cfg, s.ledger, other)
            case _ => s.ledger
  {
    hide AttemptId, Ledger.Apply;
  }
}

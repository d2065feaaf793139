/** The shadow job table in place: the claim, admission and settlement statements, and
    the drain that retires lost invocations and claims what is due. */
module ShadowOutbox {
  import opened Wrappers
  import opened Shadow

  /** What a drain got hold of. */
  datatype Claim = ClaimOf(job: JobId, attempt: nat, token: Token)

  predicate Distinct(ids: seq<JobId>) {
    forall i, j :: 0 <= i < j < |ids| ==> ids[i] != ids[j]
  }

  /** The due jobs of a listing, oldest first. */
  function Due(order: seq<JobId>, jobs: map<JobId, Job>, now: int): (due: seq<JobId>)
    requires forall i :: 0 <= i < |order| ==> order[i] in jobs
    ensures forall i :: 0 <= i < |due| ==> due[i] in jobs && due[i] in order
  {
    if order == [] then []
    else
      var rest := Due(order[..|order| - 1], jobs, now);
      if MayClaim(jobs[order[|order| - 1]], now) then rest + [order[|order| - 1]] else rest
  }

  /** An invocation whose lease ran out is retired, never replayed. */
  function Retired(j: Job, now: int): Job {
    if j.status == Invoking && j.leaseUntil < now then j.(status := DeadLetter, token := None) else j
  }

  /** A stored token was handed out, and its job is being worked on. */
  predicate Tokened(j: Job, next: Token) {
    j.token.Some? ==> j.token.value < next && (j.status == Running || j.status == Invoking)
  }

  /** Retiring every job is the retire step of the transition model. */
  lemma RetiringIsTheStep(s: State, now: int)
    ensures DoRetire(s, now).jobs == map j | j in s.jobs :: Retired(s.jobs[j], now)
  {
  }

  // ----- What a claim is still good for -----

  /** The claim has been handed out and can land nothing any more. */
  predicate Spent(jobs: map<JobId, Job>, next: Token, claim: Claim) {
    claim.token < next && !(claim.job in jobs && jobs[claim.job].token == Some(claim.token))
  }

  /** The claim has been handed out and can admit no provider call any more. */
  predicate Used(jobs: map<JobId, Job>, next: Token, claim: Claim) {
    || Spent(jobs, next, claim)
    || (claim.token < next && jobs[claim.job].status != Running)
  }

  /** Nothing that was spent or used comes back. */
  ghost predicate NothingRevives(jobs: map<JobId, Job>, next: Token, jobs': map<JobId, Job>, next': Token) {
    && (forall c :: Spent(jobs, next, c) ==> Spent(jobs', next', c))
    && (forall c :: Used(jobs, next, c) ==> Used(jobs', next', c))
  }

  lemma RevivesNothingTwice(jobs: map<JobId, Job>, next: Token, jobs': map<JobId, Job>, next': Token, jobs'': map<JobId, Job>, next'': Token)
    requires NothingRevives(jobs, next, jobs', next') && NothingRevives(jobs', next', jobs'', next'')
    ensures NothingRevives(jobs, next, jobs'', next'')
  {
    hide Spent, Used;
  }

  lemma RetiringRevivesNothing(jobs: map<JobId, Job>, retired: map<JobId, Job>, next: Token, now: int)
    requires retired.Keys == jobs.Keys && forall j :: j in jobs ==> retired[j] == Retired(jobs[j], now)
    ensures NothingRevives(jobs, next, retired, next)
    ensures (forall j :: j in jobs ==> Tokened(jobs[j], next)) ==> forall j :: j in retired ==> Tokened(retired[j], next)
  {
  }

  function Holder(claim: Claim, pc: WorkerPc): Worker {
    Worker(claim.job, claim.attempt, claim.token, pc)
  }

  class Table {
    var jobs: map<JobId, Job>
    var order: seq<JobId>     // by creation time, then id
    var nextToken: Token

    ghost predicate Valid() reads this {
      Distinct(order) && (forall i :: 0 <= i < |order| ==> order[i] in jobs) && (forall j :: j in jobs ==> j in order)
      && forall j :: j in jobs ==> Tokened(jobs[j], nextToken)
    }

    constructor ()
      ensures Valid() && jobs == map[] && order == []
    {
      jobs, order, nextToken := map[], [], 0;
    }

    /** The claim lands on a pending job, or on a running one whose lease has expired -
        never on an invoking one. It alone can then admit a call and settle the job: every
        claim handed out before for that job is spent. */
    method ClaimJob(id: JobId, now: int, leaseMs: nat) returns (claim: Option<Claim>)
      requires Valid()
      modifies this
      ensures Valid() && order == old(order)
      ensures claim.Some? <==> id in old(jobs) && MayClaim(old(jobs)[id], now)
      ensures claim.Some? ==> claim.value == ClaimOf(id, old(jobs)[id].attempts + 1, old(nextToken))
      ensures claim.Some? ==> jobs == old(jobs)[id := Job(Running, claim.value.attempt, Some(claim.value.token), now + leaseMs)]
      ensures nextToken == old(nextToken) + 1 && (claim.None? ==> jobs == old(jobs))
      ensures claim.Some? ==>
                && !Used(jobs, nextToken, claim.value)
                && (forall c: Claim :: c.job == id && c.token < old(nextToken) ==> Spent(jobs, nextToken, c))
      ensures NothingRevives(old(jobs), old(nextToken), jobs, nextToken)
      ensures forall s: State, w: nat ::
                s.jobs == old(jobs) && s.nextToken == old(nextToken) && w !in s.workers ==>
                  DoClaim(s, w, id, now, leaseMs)
                  == if claim.None? then s
                     else s.(jobs := jobs, workers := s.workers[w := Holder(claim.value, Claimed)], nextToken := nextToken)
    {
      var token := nextToken;
      nextToken := nextToken + 1;
      if id in jobs && MayClaim(jobs[id], now) {
        var attempt := jobs[id].attempts + 1;
        jobs := jobs[id := Job(Running, attempt, Some(token), now + leaseMs)];
        claim := Some(ClaimOf(id, attempt, token));
      } else {
        claim := None;
      }
    }

    /** The linearization point of the provider call. A claim handed out before is
        admitted exactly when it is not yet used and no fence is up, and is used then. */
    method AdmitInvocation(claim: Claim, fenced: bool, now: int, leaseMs: nat) returns (admitted: bool)
      requires Valid()
      modifies this`jobs
      ensures Valid()
      ensures claim.token < nextToken ==> (admitted <==> !fenced && !Used(old(jobs), nextToken, claim))
      ensures admitted ==> Used(jobs, nextToken, claim) && !Spent(jobs, nextToken, claim)
      ensures jobs == if admitted
                      then old(jobs)[claim.job := old(jobs)[claim.job].(status := Invoking, leaseUntil := now + leaseMs)]
                      else old(jobs)
      ensures NothingRevives(old(jobs), nextToken, jobs, nextToken)
      ensures forall s: State, w: nat ::
                s.jobs == old(jobs) && w in s.workers && s.workers[w] == Holder(claim, Claimed) && claim.attempt <= MAX_ATTEMPTS ==>
                  DoAdmit(s, w, fenced, now, leaseMs)
                  == if !admitted then s
                     else s.(jobs := jobs, workers := s.workers[w := Holder(claim, Admitted)],
                             admits := s.admits[claim.job := AdmitsOf(s, claim.job) + [claim.attempt]])
    {
      admitted := !fenced && claim.job in jobs && jobs[claim.job].status == Running && jobs[claim.job].token == Some(claim.token);
      if admitted {
        jobs := jobs[claim.job := jobs[claim.job].(status := Invoking, leaseUntil := now + leaseMs)];
      }
    }

    /** A settlement lands exactly when its claim is not spent, and spends it: a second
        one under the same claim changes nothing. */
    method SettleJob(claim: Claim, status: Status) returns (changes: nat)
      requires Valid() && status != Running && status != Invoking
      modifies this`jobs
      ensures Valid()
      ensures changes <= 1 && (changes == 0 ==> jobs == old(jobs))
      ensures claim.token < nextToken ==>
                && (changes == 1 <==> !Spent(old(jobs), nextToken, claim))
                && Spent(jobs, nextToken, claim)
      ensures changes == 1 ==>
                && claim.job in old(jobs) && claim.token < nextToken
                && jobs == old(jobs)[claim.job := old(jobs)[claim.job].(status := status, token := None)]
      ensures NothingRevives(old(jobs), nextToken, jobs, nextToken)
      ensures forall s: State, pc: WorkerPc :: s.jobs == old(jobs) ==> Land(s, Holder(claim, pc), status) == jobs
    {
      changes := 0;
      if claim.job in jobs && (jobs[claim.job].status == Running || jobs[claim.job].status == Invoking)
         && jobs[claim.job].token == Some(claim.token) {
        jobs := jobs[claim.job := jobs[claim.job].(status := status, token := None)];
        changes := 1;
      }
    }

    /** One tick: lost invocations are retired first, then the oldest due jobs, up to the
        limit, are each claimed once; nothing else changes. */
    method Drain(limit: nat, now: int, leaseMs: nat) returns (claims: seq<Claim>)
      requires Valid()
      modifies this
      ensures Valid() && order == old(order)
      ensures var due := Due(old(order), old(jobs), now);
              |claims| == Min(limit, |due|) && Ticked(old(jobs), jobs, due, claims, now, leaseMs)
      ensures forall i, k :: 0 <= i < k < |claims| ==> claims[i].token != claims[k].token
      ensures NothingRevives(old(jobs), old(nextToken), jobs, nextToken)
    {
      hide NothingRevives, Tokened, Spent, Used, Ticked, Retired, Distinct, MayClaim, Due, TokensApart;
      var before := jobs;
      jobs := map j | j in jobs :: Retired(jobs[j], now);
      var due := Due(order, jobs, now);
      DueIsSettled(order, before, jobs, due, now);
      claims := [];
      RetiringRevivesNothing(before, jobs, nextToken, now);
      NothingClaimed(before, jobs, due, now, leaseMs);
      NoTokens(nextToken);
      for i := 0 to Min(limit, |due|)
        invariant Valid() && order == old(order)
        invariant |claims| == i && Ticked(before, jobs, due, claims, now, leaseMs)
        invariant TokensApart(claims, nextToken)
        invariant NothingRevives(before, old(nextToken), jobs, nextToken)
      {
        StillDue(before, jobs, due, claims, now, leaseMs);
        ghost var held := jobs;
        var claim := ClaimJob(due[i], now, leaseMs);
        RevivesNothingTwice(before, old(nextToken), held, nextToken - 1, jobs, nextToken);
        OneMore(before, held, jobs, due, claims, claim.value, now, leaseMs);
        OneMoreToken(claims, claim.value, nextToken - 1);
        claims := claims + [claim.value];
      }
      ApartAre(claims, nextToken);
    }
  }

  predicate TokensApart(claims: seq<Claim>, next: Token) {
    && (forall k :: 0 <= k < |claims| ==> claims[k].token < next)
    && (forall k, l :: 0 <= k < l < |claims| ==> claims[k].token != claims[l].token)
  }

  lemma NoTokens(next: Token)
    ensures TokensApart([], next)
  {
  }

  lemma OneMoreToken(claims: seq<Claim>, claim: Claim, next: Token)
    requires TokensApart(claims, next) && claim.token == next
    ensures TokensApart(claims + [claim], next + 1)
  {
  }

  lemma ApartAre(claims: seq<Claim>, next: Token)
    requires TokensApart(claims, next)
    ensures forall i, k :: 0 <= i < k < |claims| ==> claims[i].token != claims[k].token
  {
  }

  /** The due list is the same before and after retiring, has no repeats, and every job
      on it may be claimed as retired. */
  lemma DueIsSettled(order: seq<JobId>, before: map<JobId, Job>, jobs: map<JobId, Job>, due: seq<JobId>, now: int)
    requires Distinct(order) && (forall i :: 0 <= i < |order| ==> order[i] in before)
    requires jobs.Keys == before.Keys && forall j :: j in before ==> jobs[j] == Retired(before[j], now)
    requires due == Due(order, jobs, now)
    ensures due == Due(order, before, now) && Distinct(due)
    ensures forall j :: j in due ==> j in before && MayClaim(Retired(before[j], now), now)
  {
    DueAfterRetire(order, before, jobs, now);
    DueHolds(order, jobs, now);
  }

  /** The first `|claims|` due jobs are claimed, each at its next attempt; every other job
      is as it was, or retired. */
  ghost predicate Ticked(before: map<JobId, Job>, after: map<JobId, Job>, due: seq<JobId>, claims: seq<Claim>, now: int, leaseMs: nat) {
    && |claims| <= |due| && after.Keys == before.Keys
    && (forall i :: 0 <= i < |claims| ==>
          && due[i] in before && claims[i].job == due[i] && claims[i].attempt == before[due[i]].attempts + 1
          && after[due[i]] == Job(Running, claims[i].attempt, Some(claims[i].token), now + leaseMs))
    && (forall j :: j in after && j !in due[..|claims|] ==> after[j] == Retired(before[j], now))
  }

  lemma NothingClaimed(before: map<JobId, Job>, after: map<JobId, Job>, due: seq<JobId>, now: int, leaseMs: nat)
    requires after.Keys == before.Keys && forall j :: j in before ==> after[j] == Retired(before[j], now)
    ensures Ticked(before, after, due, [], now, leaseMs)
  {
  }

  /** The next due job is as the scan saw it. */
  lemma StillDue(before: map<JobId, Job>, after: map<JobId, Job>, due: seq<JobId>, claims: seq<Claim>, now: int, leaseMs: nat)
    requires Ticked(before, after, due, claims, now, leaseMs) && |claims| < |due| && Distinct(due)
    requires forall j :: j in due ==> j in before && MayClaim(Retired(before[j], now), now)
    ensures due[|claims|] in after && MayClaim(after[due[|claims|]], now)
  {
    assert due[|claims|] in due && due[|claims|] !in due[..|claims|];
  }

  lemma OneMore(before: map<JobId, Job>, held: map<JobId, Job>, after: map<JobId, Job>, due: seq<JobId>, claims: seq<Claim>,
                claim: Claim, now: int, leaseMs: nat)
    requires Ticked(before, held, due, claims, now, leaseMs) && |claims| < |due| && Distinct(due)
    requires due[|claims|] in held && claim.job == due[|claims|] && claim.attempt == held[claim.job].attempts + 1
    requires after == held[claim.job := Job(Running, claim.attempt, Some(claim.token), now + leaseMs)]
    ensures Ticked(before, after, due, claims + [claim], now, leaseMs)
  {
    var n := |claims|;
    assert due[..n + 1] == due[..n] + [due[n]];
    assert due[n] !in due[..n];
    assert held[due[n]] == Retired(before[due[n]], now);
  }

  lemma {:induction false} DueAfterRetire(order: seq<JobId>, jobs: map<JobId, Job>, retired: map<JobId, Job>, now: int)
    requires forall i :: 0 <= i < |order| ==> order[i] in jobs
    requires retired.Keys == jobs.Keys && forall j :: j in jobs ==> retired[j] == Retired(jobs[j], now)
    ensures Due(order, retired, now) == Due(order, jobs, now)
  {
    if order != [] {
      DueAfterRetire(order[..|order| - 1], jobs, retired, now);
    }
  }

  lemma {:induction false} DueHolds(order: seq<JobId>, jobs: map<JobId, Job>, now: int)
    requires Distinct(order) && forall i :: 0 <= i < |order| ==> order[i] in jobs
    ensures Distinct(Due(order, jobs, now))
    ensures forall j :: j in Due(order, jobs, now) <==> j in order && MayClaim(jobs[j], now)
  {
    if order != [] {
      DueHolds(order[..|order| - 1], jobs, now);
      assert order == order[..|order| - 1] + [order[|order| - 1]];
    }
  }
}

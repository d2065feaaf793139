/** The D1 job row behind a handoff: per-message settlement under a compare-and-set, and
    the reopening that starts a new repair generation. */
module MemoryJobs {
  import opened Wrappers
  import Handoff

  const MAX_REPAIRS := 5

  datatype Status = AwaitingSource | Queued | Staged | Processing | Enriched | Failed | Completed

  /** `remaining` lists the accepted message ids not yet settled. */
  datatype Row = Row(status: Status, attempts: nat, gen: nat, remaining: set<string>)

  predicate Terminal(r: Row) {
    r.status == Enriched || r.status == Failed || r.status == Completed
  }

  datatype Disposition = Settle(ids: set<string>) | SettleAll | Fail | Attempted(attempts: nat)

  /** An update names the generation its sender works under, if it has one. */
  datatype Update = Update(gen: Option<nat>, disposition: Disposition)

  /** One landed iteration of the settlement loop. */
  function Settled(r: Row, u: Update): Row {
    if Terminal(r) || (u.gen.Some? && u.gen.value != r.gen) then r
    else match u.disposition
      case Attempted(n) => r.(status := Processing, attempts := Max(r.attempts, n))
      case Fail => r.(status := Failed, remaining := {})
      case Settle(ids) => Reported(r, r.remaining - ids)
      case SettleAll => Reported(r, {})
  }

  function Reported(r: Row, left: set<string>): Row {
    r.(remaining := left, status := if left == {} then Enriched else Processing)
  }

  /** A failed or enriched job is reopened for an exact replay, up to the repair limit. */
  function Reopened(r: Row, ids: set<string>): Row {
    var gen := Max(r.attempts, r.gen) + 1;
    if !(r.status == Enriched || r.status == Failed) || r.attempts >= MAX_REPAIRS || gen > MAX_REPAIRS then r
    else Row(Queued, gen, gen, ids)
  }

  datatype Op = Report(update: Update) | Reopen(ids: set<string>)

  function Apply(r: Row, op: Op): Row {
    match op
    case Report(u) => Settled(r, u)
    case Reopen(ids) => Reopened(r, ids)
  }

  function Run(r: Row, ops: seq<Op>): Row {
    if ops == [] then r else Apply(Run(r, ops[..|ops| - 1]), ops[|ops| - 1])
  }

  // ----- What the handoff assumes of job rows -----

  function Seen(r: Row): Handoff.Job {
    Handoff.Job(r.gen, Terminal(r))
  }

  function Rows(rows: map<string, Row>): map<string, Handoff.Job> {
    map j | j in rows :: Seen(rows[j])
  }

  /** Every settlement and every reopening is a step the handoff model allows. */
  lemma OperationsEvolve(rows: map<string, Row>, job: string, op: Op)
    requires job in rows
    ensures Handoff.Evolves(Rows(rows), Rows(rows[job := Apply(rows[job], op)]))
  {
    var r := rows[job];
    assert Seen(r).gen <= Seen(Apply(r, op)).gen;
  }

  // ----- Nothing is settled by accident -----

  /** What the reports of one generation named. */
  function Named(gen: nat, ops: seq<Op>): set<string> {
    if ops == [] then {}
    else
      var rest := Named(gen, ops[..|ops| - 1]);
      match ops[|ops| - 1]
      case Report(Update(g, Settle(ids))) => if g.None? || g.value == gen then rest + ids else rest
      case _ => rest
  }

  /** Whether a report of this generation settled the whole job at once. */
  predicate SettledWhole(gen: nat, ops: seq<Op>) {
    exists i :: 0 <= i < |ops| && ops[i].Report? && (ops[i].update.gen.None? || ops[i].update.gen.value == gen)
                && (ops[i].update.disposition.SettleAll? || ops[i].update.disposition.Fail?)
  }

  predicate NeverReopened(r: Row, ops: seq<Op>) {
    Run(r, ops).gen == r.gen
  }

  lemma GenRises(r: Row, op: Op)
    ensures Apply(r, op).gen >= r.gen
    ensures Apply(r, op).gen == r.gen && Terminal(r) ==> Apply(r, op) == r
  {
  }

  lemma {:induction false} GenRisesOver(r: Row, ops: seq<Op>)
    ensures Run(r, ops).gen >= r.gen
  {
    if ops != [] {
      GenRisesOver(r, ops[..|ops| - 1]);
      GenRises(Run(r, ops[..|ops| - 1]), ops[|ops| - 1]);
    }
  }

  /** Within one generation a job becomes enriched only when every message it accepted
      was reported settled under that generation, or the job was settled whole; and
      while it is live, exactly the unreported messages remain. */
  lemma {:induction false} EnrichedMeansAccounted(r: Row, ops: seq<Op>)
    requires !Terminal(r) && NeverReopened(r, ops) && !SettledWhole(r.gen, ops)
    ensures var t := Run(r, ops);
            && t.remaining == r.remaining - Named(r.gen, ops)
            && (t.status == Enriched ==> t.remaining == {} && r.remaining <= Named(r.gen, ops))
            && t.status != Failed && (t.status == Completed ==> r.status == Completed)
  {
    if ops != [] {
      var before, op := ops[..|ops| - 1], ops[|ops| - 1];
      var s := Run(r, before);
      GenRisesOver(r, before);
      GenRises(s, op);
      assert forall i :: 0 <= i < |before| ==> before[i] == ops[i];
      EnrichedMeansAccounted(r, before);
      var t := Run(r, ops);
      assert t.remaining == r.remaining - Named(r.gen, ops);
      forall m | m in r.remaining && t.remaining == {} ensures m in Named(r.gen, ops) {
        assert m !in t.remaining;
      }
    }
  }

  /** A report from a superseded generation changes nothing, ever again. */
  lemma {:induction false} StaleReportsAreInert(r: Row, ops: seq<Op>, u: Update)
    requires u.gen.Some? && u.gen.value < r.gen
    ensures Settled(Run(r, ops), u) == Run(r, ops)
  {
    GenRisesOver(r, ops);
  }

  /** Reopening is bounded: from generation 0 at most five times. */
  lemma {:induction false} RepairsAreBounded(r: Row, ops: seq<Op>)
    requires r.gen <= MAX_REPAIRS
    ensures Run(r, ops).gen <= MAX_REPAIRS
  {
    if ops != [] {
      RepairsAreBounded(r, ops[..|ops| - 1]);
    }
  }

  // ----- What each operation does to the row -----

  /** A report is heard while the row is live and its generation, if it names one, is the
      row's own; a reopening, of an ended row with repairs left. */
  predicate Heard(r: Row, op: Op) {
    match op
    case Report(u) => r.status !in {Enriched, Failed, Completed} && u.gen in {None, Some(r.gen)}
    case Reopen(_) => r.status in {Enriched, Failed} && r.attempts < 5 && r.gen < 5
  }

  lemma NoneLeft(a: set<string>, b: set<string>)
    ensures a - b == {} <==> a <= b
  {
    if a <= b {
      assert a - b == {};
    } else {
      var m :| m in a && m !in b;
      assert m in a - b;
    }
  }

  /** An operation that is heard does exactly what it says, and one that is not, nothing. A
      failure keeps no message waiting; a settlement keeps those it did not name, and the
      job is enriched when none is left; an attempt only counts; a reopening starts a
      generation above everything tried before, with all the messages of the replay. */
  lemma RowMoves(r: Row, op: Op)
    ensures var t := Apply(r, op);
            && (!Heard(r, op) ==> t == r)
            && (Heard(r, op) ==>
                  match op
                  case Report(Update(_, Fail)) => t.status == Failed && t.remaining == {} && t.gen == r.gen && t.attempts == r.attempts
                  case Report(Update(_, SettleAll)) => t.status == Enriched && t.remaining == {} && t.gen == r.gen && t.attempts == r.attempts
                  case Report(Update(_, Settle(ids))) =>
                    && (forall m :: m in t.remaining <==> m in r.remaining && m !in ids)
                    && (t.status == Enriched <==> r.remaining <= ids) && (t.status == Processing <==> !(r.remaining <= ids))
                    && t.gen == r.gen && t.attempts == r.attempts
                  case Report(Update(_, Attempted(n))) =>
                    && t.status == Processing && t.remaining == r.remaining && t.gen == r.gen
                    && t.attempts >= n && t.attempts >= r.attempts && t.attempts in {n, r.attempts}
                  case Reopen(ids) =>
                    && t.status == Queued && t.remaining == ids && t.attempts == t.gen
                    && t.gen > r.gen && t.gen > r.attempts && t.gen in {r.gen + 1, r.attempts + 1})
  {
    match op
    case Report(Update(_, Settle(ids))) =>
      NoneLeft(r.remaining, ids);
    case _ =>
  }

  /** Within one generation, once some settlement has landed, a live job is enriched exactly
      when everything it accepted has been named. */
  lemma EnrichedExactly(r: Row, ops: seq<Op>, ids: set<string>)
    requires !Terminal(r) && NeverReopened(r, ops) && !SettledWhole(r.gen, ops) && !Terminal(Run(r, ops))
    ensures var t := Apply(Run(r, ops), Report(Update(Some(r.gen), Settle(ids))));
            t.status == Enriched <==> r.remaining <= Named(r.gen, ops) + ids
  {
    EnrichedMeansAccounted(r, ops);
    var s := Run(r, ops);
    RowMoves(s, Report(Update(Some(r.gen), Settle(ids))));
    assert s.remaining <= ids <==> r.remaining <= Named(r.gen, ops) + ids;
  }
}

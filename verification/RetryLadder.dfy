/** The two retry ladders of an extraction entry, its one no-write rescue, and the run
    identities they mint. */
module RetryLadder {
  import opened Wrappers
  import opened Decimal

  const MAX_ATTEMPTS := 3
  const MAX_CAPACITY_ATTEMPTS := 12
  const MAX_NO_WRITE_RESCUES := 1

  // ----- Run identities -----

  /** The attempt part of a run id: repair generation, poison attempts, capacity attempts. */
  function Identity(gen: nat, attempts: nat, capacity: nat): string {
    (if gen > 0 then Show(gen) + (":" + Show(attempts)) else Show(attempts))
    + (if capacity > 0 then ":c" + Show(capacity) else "")
  }

  function CapacityPart(capacity: nat): string {
    if capacity > 0 then ":c" + Show(capacity) else ""
  }

  /** What follows the leading number, and why a repaired and an unrepaired identity
      cannot be confused: a digit follows the colon in one and a 'c' in the other. */
  lemma IdentityShape(gen: nat, attempts: nat, capacity: nat)
    ensures var first := if gen > 0 then gen else attempts;
            var rest := if gen > 0 then ":" + (Show(attempts) + CapacityPart(capacity)) else CapacityPart(capacity);
            && Identity(gen, attempts, capacity) == Show(first) + rest
            && (rest == [] || !IsDigit(rest[0]))
            && (gen > 0 ==> |rest| > 1 && IsDigit(rest[1]))
            && (gen == 0 && rest != [] ==> |rest| > 1 && !IsDigit(rest[1]))
  {
    ShowIsDigits(attempts);
    hide Show;
    var rest := if gen > 0 then ":" + (Show(attempts) + CapacityPart(capacity)) else CapacityPart(capacity);
    assert gen > 0 ==> rest[1] == Show(attempts)[0];
    assert gen > 0 ==> Show(gen) + (":" + Show(attempts)) + CapacityPart(capacity) == Show(gen) + rest;
  }

  lemma CapacityPartInjective(a: nat, b: nat)
    requires CapacityPart(a) == CapacityPart(b)
    ensures a == b
  {
    if a > 0 && b > 0 {
      assert CapacityPart(a)[2..] == Show(a) && CapacityPart(b)[2..] == Show(b);
      ShowInjective(a, b);
    }
    hide Show;
  }

  /** Every retry has its own run id: the identity determines all three counters. */
  lemma IdentityInjective(g: nat, a: nat, c: nat, h: nat, b: nat, d: nat)
    requires Identity(g, a, c) == Identity(h, b, d)
    ensures g == h && a == b && c == d
  {
    IdentityShape(g, a, c);
    IdentityShape(h, b, d);
    hide Show, Identity;
    var first, rest := if g > 0 then g else a, if g > 0 then ":" + (Show(a) + CapacityPart(c)) else CapacityPart(c);
    var first', rest' := if h > 0 then h else b, if h > 0 then ":" + (Show(b) + CapacityPart(d)) else CapacityPart(d);
    ShowSplits(first, rest, first', rest');
    if g > 0 {
      assert rest[1..] == Show(a) + CapacityPart(c) && rest'[1..] == Show(b) + CapacityPart(d);
      ShowSplits(a, CapacityPart(c), b, CapacityPart(d));
    }
    CapacityPartInjective(c, d);
  }

  // ----- The ladders -----

  datatype Outcome = Wrote | NoWrite | Refused | InProgress | Poison | Capacity

  /** An accepted batch from its first entry to its end. `Buffered` is the rescue buffer:
      settled messages back in the held chunk, waiting for another fire. */
  datatype Phase = Working | Settling(rescue: bool) | Buffered | Over

  /** A run id: which entry of the lineage, and the attempt identity. */
  datatype RunId = RunId(entry: nat, identity: string)

  datatype Lineage = Lineage(
    phase: Phase, gen: nat, entry: nat, attempts: nat, capacity: nat, rescues: nat, ids: set<RunId>)

  /** The rescue counter as it may be stored; a null reads as zero. */
  datatype Stored = Absent | Null | Integer(value: int)

  const MAX_SAFE_INTEGER := 9_007_199_254_740_991

  function Usable(stored: Stored): Option<nat> {
    match stored
    case Absent => None
    case Null => Some(0)
    case Integer(n) => if 0 <= n <= MAX_SAFE_INTEGER then Some(n) else None
  }

  /** Absent or invalid values fall back on the flag older entries carry. */
  function NoWriteRescueCount(stored: Stored, flagged: bool): (count: nat)
    ensures count <= MAX_NO_WRITE_RESCUES
    ensures Usable(stored).None? ==> (count == MAX_NO_WRITE_RESCUES <==> flagged)
    ensures Usable(stored).Some? ==> (count == 0 <==> stored == Null || stored == Integer(0))
  {
    match Usable(stored)
    case Some(n) => Min(n, MAX_NO_WRITE_RESCUES)
    case None => if flagged then MAX_NO_WRITE_RESCUES else 0
  }

  function CurrentId(l: Lineage): RunId {
    RunId(l.entry, Identity(l.gen, l.attempts, l.capacity))
  }

  /** One pipeline run of a working entry. */
  function Extract(l: Lineage, outcome: Outcome): Lineage {
    if l.phase != Working then l
    else
      var ran := l.(ids := l.ids + {CurrentId(l)});
      match outcome
      case Wrote => ran.(phase := Settling(false))
      case Refused => ran.(phase := Settling(false))
      case NoWrite => ran.(phase := Settling(true))
      case InProgress => ran
      case Capacity =>
        if l.capacity + 1 >= MAX_CAPACITY_ATTEMPTS then ran.(capacity := l.capacity + 1, phase := Settling(false))
        else ran.(capacity := l.capacity + 1)
      case Poison =>
        if l.attempts + 1 >= MAX_ATTEMPTS then ran.(attempts := l.attempts + 1, phase := Settling(false))
        else ran.(attempts := l.attempts + 1)
  }

  /** Settlement confirmed: the entry goes, or its messages wait once more. */
  function Finalize(l: Lineage): Lineage {
    if !l.phase.Settling? then l
    else if l.phase.rescue && NoWriteRescueCount(Integer(l.rescues), l.rescues > 0) < MAX_NO_WRITE_RESCUES
    then l.(phase := Buffered, rescues := NoWriteRescueCount(Integer(l.rescues), l.rescues > 0) + 1)
    else l.(phase := Over)
  }

  /** The rescue buffer fires: a new entry with fresh ladders and the carried count. */
  function Refire(l: Lineage): Lineage {
    if !l.phase.Buffered? then l
    else l.(phase := Working, gen := 0, entry := l.entry + 1, attempts := 0, capacity := 0)
  }

  datatype Step = Run(outcome: Outcome) | Settle | Fire

  function Apply(l: Lineage, step: Step): Lineage {
    match step
    case Run(outcome) => Extract(l, outcome)
    case Settle => Finalize(l)
    case Fire => Refire(l)
  }

  function After(l: Lineage, steps: seq<Step>): Lineage {
    if steps == [] then l else Apply(After(l, steps[..|steps| - 1]), steps[|steps| - 1])
  }

  function Accepted(gen: nat): Lineage {
    Lineage(Working, gen, 0, 0, 0, 0, {})
  }

  // ----- Bounds -----

  const LADDER_LENGTH := MAX_ATTEMPTS + MAX_CAPACITY_ATTEMPTS - 1

  predicate Climbing(l: Lineage) {
    && l.attempts <= MAX_ATTEMPTS && l.capacity <= MAX_CAPACITY_ATTEMPTS
    && (l.phase == Working ==> l.attempts < MAX_ATTEMPTS && l.capacity < MAX_CAPACITY_ATTEMPTS)
    && l.attempts + l.capacity <= LADDER_LENGTH
    && l.rescues <= MAX_NO_WRITE_RESCUES
    && l.entry <= l.rescues && (l.phase.Buffered? ==> l.entry < l.rescues)
  }

  function IdsOf(l: Lineage, entry: nat): set<RunId> {
    set id | id in l.ids && id.entry == entry
  }

  /** Every id of the current entry was minted at or below the current rung. */
  ghost predicate Below(l: Lineage) {
    && (forall id :: id in l.ids ==> id.entry <= l.entry)
    && (forall id :: id in l.ids && id.entry == l.entry ==>
          exists a: nat, c: nat :: a + c <= l.attempts + l.capacity && id.identity == Identity(l.gen, a, c))
  }

  /** The rungs below account for all ids but the one minted where the entry stands. */
  ghost predicate Counted(l: Lineage) {
    && |IdsOf(l, l.entry)| <= l.attempts + l.capacity + (if CurrentId(l) in l.ids then 1 else 0)
    && |IdsOf(l, l.entry)| <= LADDER_LENGTH
    && (forall e: nat :: e < l.entry ==> |IdsOf(l, e)| <= LADDER_LENGTH)
  }

  ghost predicate Bounded(l: Lineage) {
    Climbing(l) && Below(l) && Counted(l)
  }

  lemma IdsGrow(l: Lineage, e: nat)
    ensures var ran := l.(ids := l.ids + {CurrentId(l)});
            IdsOf(ran, e) == if e == l.entry then IdsOf(l, e) + {CurrentId(l)} else IdsOf(l, e)
  {
  }

  /** A higher rung has a new id. */
  lemma NextRungIsNew(l: Lineage, a: nat, c: nat)
    requires Below(l) && a + c > l.attempts + l.capacity
    ensures RunId(l.entry, Identity(l.gen, a, c)) !in l.ids
  {
    if RunId(l.entry, Identity(l.gen, a, c)) in l.ids {
      var b: nat, d: nat :| b + d <= l.attempts + l.capacity && Identity(l.gen, a, c) == Identity(l.gen, b, d);
      IdentityInjective(l.gen, a, c, l.gen, b, d);
      assert false;
    }
  }

  lemma ExtractBounded(l: Lineage, outcome: Outcome)
    requires Bounded(l)
    ensures Bounded(Extract(l, outcome))
  {
    hide Identity, Below, Counted, IdsOf;
    if l.phase == Working {
      var ran := l.(ids := l.ids + {CurrentId(l)});
      var t := Extract(l, outcome);
      RanBelow(l);
      RanCounted(l);
      if t.attempts + t.capacity > l.attempts + l.capacity {
        NextRungIsNew(ran, t.attempts, t.capacity);
      }
      ClimbCounted(ran, t);
      RungsAbove(ran, t);
    }
  }

  lemma ClimbCounted(ran: Lineage, t: Lineage)
    requires Counted(ran) && CurrentId(ran) in ran.ids && ran.attempts + ran.capacity < LADDER_LENGTH
    requires t.ids == ran.ids && t.entry == ran.entry && t.gen == ran.gen
    requires (CurrentId(t) == CurrentId(ran) && t.attempts + t.capacity == ran.attempts + ran.capacity)
             || t.attempts + t.capacity == ran.attempts + ran.capacity + 1
    ensures Counted(t)
  {
    hide Identity;
    assert forall e :: IdsOf(t, e) == IdsOf(ran, e);
  }

  lemma RungsAbove(l: Lineage, t: Lineage)
    requires Below(l) && t.ids == l.ids && t.gen == l.gen && t.entry == l.entry
    requires t.attempts + t.capacity >= l.attempts + l.capacity
    ensures Below(t)
  {
    hide Identity;
    forall id | id in t.ids && id.entry == t.entry
      ensures exists a: nat, c: nat :: a + c <= t.attempts + t.capacity && id.identity == Identity(t.gen, a, c)
    {
      var a: nat, c: nat :| a + c <= l.attempts + l.capacity && id.identity == Identity(l.gen, a, c);
      assert a + c <= t.attempts + t.capacity;
    }
  }

  lemma RanBelow(l: Lineage)
    requires Below(l)
    ensures Below(l.(ids := l.ids + {CurrentId(l)}))
  {
    hide Identity;
  }

  lemma RanCounted(l: Lineage)
    requires Climbing(l) && Counted(l) && l.phase == Working
    ensures Counted(l.(ids := l.ids + {CurrentId(l)}))
  {
    hide Identity;
    var ran := l.(ids := l.ids + {CurrentId(l)});
    IdsGrow(l, l.entry);
    assert CurrentId(ran) == CurrentId(l);
    if CurrentId(l) in l.ids {
      assert IdsOf(ran, l.entry) == IdsOf(l, l.entry);
    }
    forall e: nat | e < l.entry ensures IdsOf(ran, e) == IdsOf(l, e) {
      IdsGrow(l, e);
    }
  }

  lemma FinalizeBounded(l: Lineage)
    requires Bounded(l)
    ensures Bounded(Finalize(l))
  {
    hide Identity;
    var t := Finalize(l);
    assert forall e :: IdsOf(t, e) == IdsOf(l, e);
    RungsAbove(l, t);
  }

  lemma RefireBounded(l: Lineage)
    requires Bounded(l)
    ensures Bounded(Refire(l))
  {
    hide Identity;
    if l.phase.Buffered? {
      var t := Refire(l);
      assert forall e :: IdsOf(t, e) == IdsOf(l, e);
      assert IdsOf(t, t.entry) == {};
    }
  }

  lemma {:induction false} BoundedAlways(gen: nat, steps: seq<Step>)
    ensures Bounded(After(Accepted(gen), steps))
  {
    if steps == [] {
      assert IdsOf(Accepted(gen), 0) == {};
    } else {
      var l := After(Accepted(gen), steps[..|steps| - 1]);
      BoundedAlways(gen, steps[..|steps| - 1]);
      hide Bounded;
      match steps[|steps| - 1]
      case Run(outcome) => ExtractBounded(l, outcome);
      case Settle => FinalizeBounded(l);
      case Fire => RefireBounded(l);
    }
  }

  /** Bounded retries. Whatever the outcomes, a queue entry mints at most fourteen run
      ids, and a batch has at most one rescue entry, hence at most twenty-eight. */
  lemma RetriesAreBounded(gen: nat, steps: seq<Step>)
    ensures var l := After(Accepted(gen), steps);
            && (forall e: nat :: |IdsOf(l, e)| <= LADDER_LENGTH)
            && l.entry <= MAX_NO_WRITE_RESCUES
            && |l.ids| <= (MAX_NO_WRITE_RESCUES + 1) * LADDER_LENGTH
  {
    var l := After(Accepted(gen), steps);
    BoundedAlways(gen, steps);
    forall e: nat | e > l.entry ensures IdsOf(l, e) == {} {
    }
    assert l.ids == IdsOf(l, 0) + IdsOf(l, 1);
    hide Identity;
  }

  /** Progress. Every retry climbs strictly, and apart from finding another run in
      progress no step leaves the batch where it was: the measure - rescues left, phase,
      poison attempts left, capacity attempts left - falls lexicographically. */
  function PhaseRank(p: Phase): nat {
    match p
    case Buffered => 3
    case Working => 2
    case Settling(_) => 1
    case Over => 0
  }

  lemma EveryStepDescends(gen: nat, steps: seq<Step>, step: Step)
    ensures var l := After(Accepted(gen), steps);
            var t := Apply(l, step);
            t != l && step != Run(InProgress) ==>
              && (MAX_NO_WRITE_RESCUES - l.rescues, PhaseRank(l.phase), MAX_ATTEMPTS - l.attempts, MAX_CAPACITY_ATTEMPTS - l.capacity
                  decreases to
                  MAX_NO_WRITE_RESCUES - t.rescues, PhaseRank(t.phase), MAX_ATTEMPTS - t.attempts, MAX_CAPACITY_ATTEMPTS - t.capacity)
              && (step.Run? ==> t.attempts >= l.attempts && t.capacity >= l.capacity)
              && (step.Run? && t.phase == Working ==> t.attempts + t.capacity == l.attempts + l.capacity + 1)
  {
    BoundedAlways(gen, steps);
    hide Identity, After;
  }

  function Count(outcomes: seq<Outcome>, o: Outcome): nat {
    if outcomes == [] then 0
    else Count(outcomes[..|outcomes| - 1], o) + (if outcomes[|outcomes| - 1] == o then 1 else 0)
  }

  function Runs(outcomes: seq<Outcome>): seq<Step> {
    if outcomes == [] then [] else Runs(outcomes[..|outcomes| - 1]) + [Run(outcomes[|outcomes| - 1])]
  }

  predicate OnlyRetries(outcomes: seq<Outcome>) {
    forall i :: 0 <= i < |outcomes| ==> outcomes[i] == Poison || outcomes[i] == Capacity || outcomes[i] == InProgress
  }

  /** The two ladders are separate: while nothing is decided the entry is retried as long
      as it has failed fewer than three times and been refused for capacity fewer than
      twelve times, in any order, and each counter counts its own kind only. */
  lemma {:induction false} DeadLettersExactly(gen: nat, outcomes: seq<Outcome>)
    requires OnlyRetries(outcomes)
    ensures var l := After(Accepted(gen), Runs(outcomes));
            && (l.phase == Working <==> Count(outcomes, Poison) < MAX_ATTEMPTS && Count(outcomes, Capacity) < MAX_CAPACITY_ATTEMPTS)
            && (l.phase == Working || l.phase == Settling(false))
            && (l.phase == Working ==> l.attempts == Count(outcomes, Poison) && l.capacity == Count(outcomes, Capacity))
  {
    hide Identity;
    if outcomes != [] {
      var before, last := outcomes[..|outcomes| - 1], outcomes[|outcomes| - 1];
      DeadLettersExactly(gen, before);
      assert Runs(outcomes)[..|Runs(outcomes)| - 1] == Runs(before);
      assert After(Accepted(gen), Runs(outcomes)) == Extract(After(Accepted(gen), Runs(before)), last);
    }
  }

  // ----- What an outcome leads to -----

  /** The outcome of the last run the batch made, read off the history. */
  function LastOutcome(gen: nat, steps: seq<Step>): Option<Outcome> {
    if steps == [] then None
    else
      var step := steps[|steps| - 1];
      if step.Run? && After(Accepted(gen), steps[..|steps| - 1]).phase == Working then Some(step.outcome)
      else LastOutcome(gen, steps[..|steps| - 1])
  }

  /** Where one run leaves a working entry: retried below the ladders' ends, put back after
      a no-write with its count unused, and over in every other case. */
  lemma OutcomeDecides(l: Lineage, outcome: Outcome)
    requires l.phase == Working
    ensures var ran := Extract(l, outcome);
            && ran.ids == l.ids + {CurrentId(l)}
            && (ran.phase == Working <==>
                  || outcome == InProgress
                  || (outcome == Poison && l.attempts + 1 < 3)
                  || (outcome == Capacity && l.capacity + 1 < 12))
            && (ran.phase != Working ==>
                  (Finalize(ran).phase == Buffered <==> outcome == NoWrite && l.rescues == 0)
                  && (Finalize(ran).phase == Over <==> !(outcome == NoWrite && l.rescues == 0)))
            && (outcome == Poison ==> ran.attempts == l.attempts + 1) && (outcome != Poison ==> ran.attempts == l.attempts)
            && (outcome == Capacity ==> ran.capacity == l.capacity + 1) && (outcome != Capacity ==> ran.capacity == l.capacity)
  {
    hide Identity;
  }

  lemma {:induction false} SettlingRemembers(gen: nat, steps: seq<Step>)
    ensures var l := After(Accepted(gen), steps);
            l.phase.Settling? ==>
              && LastOutcome(gen, steps).Some? && LastOutcome(gen, steps) != Some(InProgress)
              && (l.phase.rescue <==> LastOutcome(gen, steps) == Some(NoWrite))
  {
    hide Identity;
    if steps != [] {
      SettlingRemembers(gen, steps[..|steps| - 1]);
    }
  }

  /** Over any run: messages go back to the chunk exactly when a settlement finds that the
      last run wrote nothing and the count is unused - and then the count is used up. */
  lemma PutBackExactly(gen: nat, steps: seq<Step>, step: Step)
    ensures var l := After(Accepted(gen), steps);
            var t := Apply(l, step);
            && (t.phase == Buffered && l.phase != Buffered <==>
                  step == Settle && l.phase.Settling? && LastOutcome(gen, steps) == Some(NoWrite) && l.rescues == 0)
            && (t.rescues == if t.phase == Buffered && l.phase != Buffered then 1 else l.rescues)
  {
    SettlingRemembers(gen, steps);
    BoundedAlways(gen, steps);
    hide Identity, After, LastOutcome, Below, Counted;
  }

  // ----- Two workers on one entry -----

  /** Without the lease two workers may hold the same entry, and the later write wins. */
  datatype Rung = Rung(attempts: nat, capacity: nat)
  datatype Shared = Shared(stored: Rung, held: map<nat, Rung>, ran: set<Rung>)
  datatype Move = Read(worker: nat) | Ran(worker: nat, capacity: bool)

  predicate OnLadder(r: Rung) {
    r.attempts < MAX_ATTEMPTS && r.capacity < MAX_CAPACITY_ATTEMPTS
  }

  function Moved(s: Shared, m: Move): Shared {
    match m
    case Read(worker) => s.(held := s.held[worker := s.stored])
    case Ran(worker, capacity) =>
      if worker !in s.held then s
      else
        var r := s.held[worker];
        var next := if capacity then r.(capacity := r.capacity + 1) else r.(attempts := r.attempts + 1);
        var done := s.(ran := s.ran + {r}, held := s.held - {worker});
        if OnLadder(next) then done.(stored := next) else done
  }

  function Moves(s: Shared, moves: seq<Move>): Shared {
    if moves == [] then s else Moved(Moves(s, moves[..|moves| - 1]), moves[|moves| - 1])
  }

  /** A worker that ran writes back the rung above the one it had read - whatever is stored
      by then - unless that is past an end of the ladders. */
  lemma WritesBackExactly(s: Shared, m: Move)
    ensures var t := Moved(s, m);
            && (m.Read? ==> t.stored == s.stored && t.ran == s.ran && m.worker in t.held && t.held[m.worker] == s.stored)
            && (m.Ran? && m.worker !in s.held ==> t == s)
            && (m.Ran? && m.worker in s.held ==>
                  var r := s.held[m.worker];
                  var a, c := r.attempts + (if m.capacity then 0 else 1), r.capacity + (if m.capacity then 1 else 0);
                  && t.ran == s.ran + {r} && m.worker !in t.held
                  && t.stored == if a < 3 && c < 12 then Rung(a, c) else s.stored)
            && (forall other :: other in s.held && other != m.worker ==> other in t.held && t.held[other] == s.held[other])
  {
  }

  lemma {:induction false} AlwaysOnLadder(moves: seq<Move>)
    ensures var s := Moves(Shared(Rung(0, 0), map[], {}), moves);
            && OnLadder(s.stored)
            && (forall w :: w in s.held ==> OnLadder(s.held[w]))
            && (forall r :: r in s.ran ==> OnLadder(r))
  {
    if moves != [] {
      AlwaysOnLadder(moves[..|moves| - 1]);
    }
  }

  function Grid(attempts: nat, capacity: nat): set<Rung> {
    set a: nat, c: nat | a < attempts && c < capacity :: Rung(a, c)
  }

  lemma {:induction false} GridSize(attempts: nat, capacity: nat)
    ensures |Grid(attempts, capacity)| == attempts * capacity
  {
    if attempts == 0 {
      assert Grid(0, capacity) == {};
    } else {
      GridSize(attempts - 1, capacity);
      ColumnSize(attempts - 1, capacity);
      GridGrows(attempts - 1, capacity);
      hide Grid, Column;
      assert (attempts - 1) * capacity + capacity == attempts * capacity;
    }
  }

  lemma GridGrows(a: nat, capacity: nat)
    ensures Grid(a + 1, capacity) == Grid(a, capacity) + Column(a, capacity) && Grid(a, capacity) !! Column(a, capacity)
  {
    forall r ensures r in Grid(a + 1, capacity) <==> r in Grid(a, capacity) || r in Column(a, capacity) {
      assert r in Grid(a + 1, capacity) <==> r.attempts < a + 1 && r.capacity < capacity;
      assert r in Grid(a, capacity) <==> r.attempts < a && r.capacity < capacity;
      assert r in Column(a, capacity) <==> r.attempts == a && r.capacity < capacity;
    }
  }

  function Column(a: nat, capacity: nat): set<Rung> {
    set c: nat | c < capacity :: Rung(a, c)
  }

  lemma {:induction false} ColumnSize(a: nat, capacity: nat)
    ensures |Column(a, capacity)| == capacity
  {
    if capacity == 0 {
      assert Column(a, 0) == {};
    } else {
      ColumnSize(a, capacity - 1);
      assert Column(a, capacity) == Column(a, capacity - 1) + {Rung(a, capacity - 1)};
    }
  }

  lemma SubsetSize<T>(a: set<T>, b: set<T>)
    requires a <= b
    ensures |a| <= |b|
    decreases |b|
  {
    if a != {} {
      var x :| x in a;
      SubsetSize(a - {x}, b - {x});
    }
  }

  /** Even when stale writes take back attempts, an entry cannot mint more run ids than
      the two ladders have combinations. */
  lemma StaleWritesStayBounded(moves: seq<Move>)
    ensures |Moves(Shared(Rung(0, 0), map[], {}), moves).ran| <= MAX_ATTEMPTS * MAX_CAPACITY_ATTEMPTS
  {
    var s := Moves(Shared(Rung(0, 0), map[], {}), moves);
    AlwaysOnLadder(moves);
    GridSize(MAX_ATTEMPTS, MAX_CAPACITY_ATTEMPTS);
    forall r | r in s.ran ensures r in Grid(MAX_ATTEMPTS, MAX_CAPACITY_ATTEMPTS) {
    }
    SubsetSize(s.ran, Grid(MAX_ATTEMPTS, MAX_CAPACITY_ATTEMPTS));
  }

  // ----- Overlapping workers at the rescue -----

  /** One entry of an accepted batch that wrote nothing, and the workers that have read
      it. `rescues` counts how often its messages were put back, `taken` how often it was
      read; `identified` messages carry the identity the chunk is searched for. */
  datatype Overlap = Overlap(
    count: nat, identified: bool, stored: bool, holding: set<nat>, buffered: bool, rescues: nat, taken: nat)

  datatype Act = Take(worker: nat) | Put(worker: nat) | End(worker: nat, rescue: bool) | Quit(worker: nat) | FireBuffer

  /** The rescue does not ask whether the entry is still stored; only a copy in the chunk
      holds it back. */
  predicate PutsBack(s: Overlap, a: Act) {
    && a.End? && a.rescue && a.worker in s.holding
    && NoWriteRescueCount(Integer(s.count), s.count > 0) < MAX_NO_WRITE_RESCUES
    && !(s.identified && s.buffered)
  }

  function Acted(s: Overlap, a: Act): Overlap {
    match a
    case Take(worker) =>
      if s.stored && worker !in s.holding then s.(holding := s.holding + {worker}, taken := s.taken + 1) else s
    case Put(worker) => if worker in s.holding then s.(stored := true) else s
    case End(worker, _) =>
      if worker !in s.holding then s
      else
        var t := s.(stored := false, holding := s.holding - {worker});
        if PutsBack(s, a) then t.(buffered := true, rescues := s.rescues + 1) else t
    case Quit(worker) => s.(holding := s.holding - {worker})
    case FireBuffer => s.(buffered := false)
  }

  function Acts(s: Overlap, acts: seq<Act>): Overlap {
    if acts == [] then s else Acted(Acts(s, acts[..|acts| - 1]), acts[|acts| - 1])
  }

  function Queued(count: nat, identified: bool): Overlap {
    Overlap(count, identified, true, {}, false, 0, 0)
  }

  predicate WithinReads(s: Overlap) {
    s.rescues + |s.holding| <= s.taken && (s.count >= MAX_NO_WRITE_RESCUES ==> s.rescues == 0)
  }

  lemma ActWithinReads(s: Overlap, a: Act)
    requires WithinReads(s)
    ensures var t := Acted(s, a); WithinReads(t) && t.count == s.count && t.identified == s.identified
  {
    if a.End? && a.worker in s.holding {
      assert |s.holding - {a.worker}| == |s.holding| - 1;
    } else {
      assert a.Quit? ==> |s.holding - {a.worker}| <= |s.holding|;
    }
  }

  /** However the workers overlap, each read of the entry puts its messages back at most
      once - and none does once the count is used up, so a rescued entry is never rescued. */
  lemma {:induction false} RescuesWithinReads(count: nat, identified: bool, acts: seq<Act>)
    ensures var s := Acts(Queued(count, identified), acts);
            && s.rescues + |s.holding| <= s.taken && s.count == count && s.identified == identified
            && (count >= MAX_NO_WRITE_RESCUES ==> s.rescues == 0)
  {
    hide Acted;
    if acts != [] {
      RescuesWithinReads(count, identified, acts[..|acts| - 1]);
      ActWithinReads(Acts(Queued(count, identified), acts[..|acts| - 1]), acts[|acts| - 1]);
    }
  }

  /** Every Take of the run finds nobody else holding the entry. */
  predicate TakesTurns(s: Overlap, acts: seq<Act>) {
    acts != [] ==>
      && TakesTurns(s, acts[..|acts| - 1])
      && (acts[|acts| - 1].Take? ==> Acts(s, acts[..|acts| - 1]).holding == {})
  }

  /** Workers that take turns put the messages back at most once. */
  lemma {:induction false} TurnsRescueOnce(count: nat, identified: bool, acts: seq<Act>)
    requires TakesTurns(Queued(count, identified), acts)
    ensures var s := Acts(Queued(count, identified), acts);
            s.rescues <= 1 && |s.holding| <= 1 && (s.rescues == 1 ==> !s.stored && s.holding == {})
  {
    if acts != [] {
      TurnsRescueOnce(count, identified, acts[..|acts| - 1]);
      var s := Acts(Queued(count, identified), acts[..|acts| - 1]);
      match acts[|acts| - 1]
      case End(worker, _) =>
        if worker in s.holding { assert |s.holding - {worker}| == 0; }
      case _ =>
    }
  }

  lemma ThenOne(s: Overlap, acts: seq<Act>, a: Act)
    ensures Acts(s, acts + [a]) == Acted(Acts(s, acts), a)
  {
    assert (acts + [a])[..|acts|] == acts;
  }

  /** An entry that is neither stored nor held stays so. */
  lemma {:induction false} NothingLeft(s: Overlap, acts: seq<Act>)
    requires !s.stored && s.holding == {}
    ensures var t := Acts(s, acts); !t.stored && t.holding == {} && t.rescues == s.rescues
  {
    if acts != [] {
      NothingLeft(s, acts[..|acts| - 1]);
    }
  }

  /** And this is when: an entry whose count is not used up can be put back once more
      exactly as long as it is stored or some worker still holds it. */
  lemma MoreRescuesExactly(s: Overlap)
    requires s.count < MAX_NO_WRITE_RESCUES
    ensures (exists acts :: Acts(s, acts).rescues > s.rescues) <==> s.stored || s.holding != {}
  {
    if s.holding != {} {
      var w :| w in s.holding;
      OneMoreRescue(s, [], w);
    } else if s.stored {
      ThenOne(s, [], Take(0));
      OneMoreRescue(s, [Take(0)], 0);
    } else {
      forall acts ensures Acts(s, acts).rescues == s.rescues {
        NothingLeft(s, acts);
      }
    }
  }

  lemma OneMoreRescue(s: Overlap, acts: seq<Act>, w: nat)
    requires s.count < MAX_NO_WRITE_RESCUES
    requires var t := Acts(s, acts); t.count == s.count && t.rescues == s.rescues && w in t.holding
    ensures exists more :: Acts(s, more).rescues == s.rescues + 1
  {
    hide Acts;
    FiresAndEnds(s, acts, w);
    assert Acts(s, acts + [FireBuffer] + [End(w, true)]).rescues == s.rescues + 1;
  }

  /** With the chunk just fired, the next worker to finish puts the messages back. */
  lemma FiresAndEnds(s: Overlap, acts: seq<Act>, w: nat)
    requires var t := Acts(s, acts); t.count < MAX_NO_WRITE_RESCUES && w in t.holding
    ensures var t := Acts(s, acts);
            Acts(s, acts + [FireBuffer] + [End(w, true)])
            == t.(stored := false, holding := t.holding - {w}, buffered := true, rescues := t.rescues + 1)
  {
    ThenOne(s, acts, FireBuffer);
    ThenOne(s, acts + [FireBuffer], End(w, true));
    hide Acts;
  }

  // Each of `n` workers reads the entry before the first one finishes with it.

  function Reading(n: nat): seq<Act> {
    if n == 0 then [] else Reading(n - 1) + [Take(n - 1)]
  }

  function Finishing(n: nat): seq<Act> {
    if n == 0 then [] else Finishing(n - 1) + [FireBuffer] + [End(n - 1, true)]
  }

  function Numbers(from: nat, to: nat): set<nat> {
    set w: nat | w < to && AtLeast(w, from)
  }

  predicate AtLeast(w: nat, from: nat) {
    from <= w
  }

  lemma {:induction false} AllRead(identified: bool, n: nat)
    ensures Acts(Queued(0, identified), Reading(n)) == Overlap(0, identified, true, Numbers(0, n), false, 0, n)
  {
    if n > 0 {
      AllRead(identified, n - 1);
      ThenOne(Queued(0, identified), Reading(n - 1), Take(n - 1));
      assert Numbers(0, n) == Numbers(0, n - 1) + {n - 1};
    }
  }

  /** The bound is reached: `n` overlapping workers can put the messages back `n` times,
      when the chunk fires before each of them finishes. */
  lemma {:induction false} OverlapReachesReads(identified: bool, n: nat, k: nat)
    requires 0 < k <= n
    ensures var s := Acts(Queued(0, identified), Reading(n) + Finishing(k));
            s == Overlap(0, identified, false, Numbers(k, n), true, k, n)
  {
    hide Acts, Acted, Reading;
    var start := Queued(0, identified);
    var before := Reading(n) + Finishing(k - 1);
    if k == 1 {
      AllRead(identified, n);
      assert before == Reading(n);
    } else {
      OverlapReachesReads(identified, n, k - 1);
    }
    FiresAndEnds(start, before, k - 1);
    assert Reading(n) + Finishing(k) == before + [FireBuffer] + [End(k - 1, true)];
    hide Finishing;
    assert Numbers(k, n) == Numbers(k - 1, n) - {k - 1};
  }
}

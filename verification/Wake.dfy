/** The wake guarantee: work in storage is never left without an alarm. Calls
    interleave at every storage read and write outside a transaction or an exclusive
    block; scan times are left free, because a long queue is read page by page. */
module Wake {
  import opened Wrappers

  /** Where an in-flight call stands. `thenLease` marks the drain that found the lease
      taken: it arms once more, past the lease, after guaranteeing the wake. */
  datatype Pc =
    | Enqueued                                        // entry committed, alarm not yet armed
    | Pruning                                         // a kick, before it arms
    | Body(seen: set<string>)                         // a drain, with the entries it has read
    | ReadLegacy(thenLease: bool)
    | ReadChunk(thenLease: bool, saw: bool)
    | ScanQueue(thenLease: bool, saw: bool, held: bool)
    | GetAlarm(thenLease: bool, at: int)
    | SetAlarm(thenLease: bool, at: int)
    | DeleteAlarm(thenLease: bool)
    | RecheckChunk(thenLease: bool)
    | RecheckQueue(thenLease: bool, saw: bool)
    | RecheckLegacy(thenLease: bool, saw: bool)
    | ReadLease
    | ClearAlarm(thenWake: bool)                      // storage is cleared, the alarm not yet

  /** `held`: the chunk holds an unsettled message. `known`: the owner id is stored. */
  datatype State = State(
    held: bool, queue: set<string>, legacy: nat, known: bool, alarm: Option<int>, calls: map<nat, Pc>)

  predicate Work(s: State) {
    s.held || s.queue != {} || s.legacy > 0
  }

  /** What a drain may do to storage between acquiring the lease and leaving its body. */
  datatype Effect =
    | Fire(keys: set<string>)                       // the held chunk becomes entries
    | Take(key: string)                             // the next entry is read
    | Write(key: string)                            // an entry it read is put back, rescheduled
    | Remove(key: string)
    | Split(key: string, children: set<string>)
    | Adopt(key: string)                            // one legacy job becomes an entry
    | Rescue(key: string, keys: set<string>)        // held work fires, the entry becomes settled text
    | Fence                                         // the entry it read is of a closed account: storage is cleared

  datatype Step =
    | AddMessages(held: bool, keys: set<string>, at: int)
    | Recover(fires: bool, keys: set<string>, at: int)
    | EnqueueMcp(call: nat, key: string)
    | Kick(call: nat)
    | Prune(call: nat, key: string)
    | StartDrain(call: nat, leased: bool, named: bool)  // `named`: the caller passes the owner id
    | StartWake(call: nat)
    | Drain(call: nat, effect: Effect)
    | Continue(call: nat, at: int)
    | NoLease(call: nat)                               // the lease it was to arm past is gone
    | AlarmFires(call: nat, leased: bool)
    | Refuse(call: nat)                                // a call's lifecycle check fails, and clears storage
    | Abort(call: nat)                                 // as does an enqueue's, after its commit
    | Crash
    | Reset

  // ----- The alarm -----

  function Merge(alarm: Option<int>, at: int): Option<int> {
    if alarm.None? || alarm.value > at then Some(at) else alarm
  }

  /** `#guaranteeWake` with nothing in between, as inside an exclusive block. */
  function WakeNow(s: State, at: int): State {
    s.(alarm := if Work(s) then Merge(s.alarm, at) else None)
  }

  // ----- Steps -----

  /** The first half of `#clearLocalState`; deleting the alarm is an access of its own. */
  function Clear(s: State, call: nat, thenWake: bool): State {
    State(false, {}, 0, false, s.alarm, s.calls[call := ClearAlarm(thenWake)])
  }

  function FireHeld(s: State, keys: set<string>): State {
    if s.held then s.(held := false, queue := s.queue + keys, known := true) else s
  }

  function ApplyEffect(s: State, call: nat, e: Effect): State
    requires call in s.calls && s.calls[call].Body?
  {
    var seen := s.calls[call].seen;
    match e
    case Fire(keys) => FireHeld(s, keys)
    case Take(key) => if key in s.queue then Goto(s, call, Body(seen + {key})) else s
    case Write(key) => if key in seen then s.(queue := s.queue + {key}) else s
    case Remove(key) => s.(queue := s.queue - {key})
    case Split(key, children) => if key in s.queue then s.(queue := s.queue - {key} + children) else s
    case Adopt(key) =>
      if s.legacy > 0
      then Goto(s.(legacy := s.legacy - 1, queue := s.queue + {key}), call, Body(seen + {key}))
      else s
    case Rescue(key, keys) => var t := FireHeld(s, keys); t.(queue := t.queue - {key})
    case Fence => if seen != {} then Clear(s, call, true) else s
  }

  function Goto(s: State, call: nat, pc: Pc): State {
    s.(calls := s.calls[call := pc])
  }

  function Finish(s: State, call: nat, thenLease: bool): State {
    if thenLease then Goto(s, call, ReadLease) else s.(calls := s.calls - {call})
  }

  /** The next read or write of a call that is arming or guaranteeing a wake. */
  function Advance(s: State, call: nat, at: int): State
    requires call in s.calls
  {
    match s.calls[call]
    case Enqueued => Goto(s, call, GetAlarm(false, at))
    case Pruning => Goto(s, call, GetAlarm(false, at))
    case Body(_) => Goto(s, call, ReadLegacy(false))
    case ReadLegacy(l) => Goto(s, call, ReadChunk(l, s.legacy > 0))
    case ReadChunk(l, saw) => Goto(s, call, ScanQueue(l, saw, s.held))
    case ScanQueue(l, saw, held) => Goto(s, call, if saw || held || s.queue != {} then GetAlarm(l, at) else DeleteAlarm(l))
    case GetAlarm(l, t) => if s.alarm.None? || s.alarm.value > t then Goto(s, call, SetAlarm(l, t)) else Finish(s, call, l)
    case SetAlarm(l, t) => Finish(s.(alarm := Some(t)), call, l)
    case DeleteAlarm(l) => Goto(s.(alarm := None), call, RecheckChunk(l))
    case RecheckChunk(l) => Goto(s, call, RecheckQueue(l, s.held))
    case RecheckQueue(l, saw) => Goto(s, call, RecheckLegacy(l, saw || s.queue != {}))
    case RecheckLegacy(l, saw) => if saw || s.legacy > 0 then Goto(s, call, GetAlarm(l, at)) else Finish(s, call, l)
    case ReadLease => Goto(s, call, GetAlarm(false, at))
    case ClearAlarm(w) =>
      var t := s.(alarm := None);
      if w then Goto(t, call, ReadLegacy(false)) else Finish(t, call, false)
  }

  function Apply(s: State, step: Step): State {
    match step
    case AddMessages(held, keys, at) => WakeNow(s.(held := held, queue := s.queue + keys, known := true), at)
    case Recover(fires, keys, at) => WakeNow(if fires then FireHeld(s, keys) else s, at)
    case EnqueueMcp(call, key) =>
      if call in s.calls then s else Goto(s.(queue := s.queue + {key}, known := true), call, Enqueued)
    case Kick(call) => if call in s.calls then s else Goto(s.(known := true), call, Pruning)
    case Prune(call, key) =>
      if call in s.calls && s.calls[call].Pruning? then s.(queue := s.queue - {key}) else s
    case StartDrain(call, leased, named) =>
      if call in s.calls || !(named || s.known) then s else Goto(s, call, if leased then ReadLegacy(true) else Body({}))
    case StartWake(call) => if call in s.calls then s else Goto(s, call, ReadLegacy(false))
    case Drain(call, effect) =>
      if call in s.calls && s.calls[call].Body? then ApplyEffect(s, call, effect) else s
    case Continue(call, at) => if call in s.calls then Advance(s, call, at) else s
    case NoLease(call) =>
      if call in s.calls && s.calls[call].ReadLease? then s.(calls := s.calls - {call}) else s
    case AlarmFires(call, leased) =>
      if s.alarm.None? || call in s.calls then s
      else if !s.known then s.(alarm := None)
      else Goto(s.(alarm := None), call, if leased then ReadLegacy(true) else Body({}))
    case Refuse(call) => if call in s.calls then s else Clear(s, call, false)
    case Abort(call) => if call in s.calls && s.calls[call].Enqueued? then Clear(s, call, false) else s
    case Crash => s.(calls := map[])
    case Reset => State(false, {}, 0, false, None, s.calls)
  }

  function Run(s: State, steps: seq<Step>): State {
    if steps == [] then s
    else Apply(Run(s, steps[..|steps| - 1]), steps[|steps| - 1])
  }

  /** A store at rest: nothing in flight, and any work already has an owner and an alarm. */
  predicate AtRest(s: State) {
    s.calls == map[] && (Work(s) ==> s.known && s.alarm.Some?)
  }

  // ----- Who is answerable for work without an alarm -----

  /** The call has not passed the last look at the work that is left. */
  predicate Answers(s: State, pc: Pc) {
    match pc
    case RecheckQueue(_, saw) => saw || s.queue != {} || s.legacy > 0
    case RecheckLegacy(_, saw) => saw || s.legacy > 0
    case ReadLease => false
    case ClearAlarm(thenWake) => thenWake
    case _ => true
  }

  ghost predicate Answered(s: State) {
    exists call :: call in s.calls && Answers(s, s.calls[call])
  }

  ghost predicate Covered(s: State) {
    Work(s) && s.known && s.alarm.None? ==> Answered(s)
  }

  /** Another call's answer survives as long as it stays where it is and no work goes. */
  lemma StillAnswered(s: State, t: State, call: nat)
    requires Answered(s)
    requires s.queue <= t.queue && s.legacy <= t.legacy
    requires forall c :: c in s.calls && c != call ==> c in t.calls && t.calls[c] == s.calls[c]
    requires call in s.calls && Answers(s, s.calls[call]) ==> call in t.calls && Answers(t, t.calls[call])
    ensures Answered(t)
  {
    var c :| c in s.calls && Answers(s, s.calls[c]);
    assert c in t.calls && Answers(t, t.calls[c]);
  }

  /** The step takes the last thing that answers for the work: it deletes the alarm after
      a failed lifecycle check, with no other call to answer, or the isolate dies with
      work that has no alarm. */
  ghost predicate Strands(s: State, step: Step) {
    && Work(s) && s.known
    && match step
       case Continue(call, _) =>
         && call in s.calls && s.calls[call] == ClearAlarm(false)
         && !exists c :: c != call && c in s.calls && Answers(s, s.calls[c])
       case Crash => s.alarm.None?
       case _ => false
  }

  /** A step of one call's own reads and writes keeps the work covered, that delete aside. */
  lemma AdvanceCovers(s: State, call: nat, at: int)
    requires Covered(s) && call in s.calls
    ensures Covered(Advance(s, call, at)) <==> !Strands(s, Continue(call, at))
  {
    var t := Advance(s, call, at);
    var pc := s.calls[call];
    if pc == ClearAlarm(false) {
      assert forall c :: c in t.calls && Answers(t, t.calls[c]) ==> c != call && c in s.calls && Answers(s, s.calls[c]);
      assert forall c :: c != call && c in s.calls && Answers(s, s.calls[c]) ==> c in t.calls && Answers(t, t.calls[c]);
    } else if Work(t) && t.known && t.alarm.None? {
      if call in t.calls && Answers(t, t.calls[call]) {
        assert Answered(t);
      } else {
        assert !pc.DeleteAlarm?;
        StillAnswered(s, t, call);
      }
    }
  }

  /** In any covered state, work is left to chance by such a step and by no other. */
  lemma StepCoversExactly(s: State, step: Step)
    requires Covered(s)
    ensures Covered(Apply(s, step)) <==> !Strands(s, step)
  {
    var t := Apply(s, step);
    match step
    case Continue(call, at) =>
      if call in s.calls { AdvanceCovers(s, call, at); }
    case EnqueueMcp(call, key) =>
      if call !in s.calls { assert Answers(t, t.calls[call]); }
    case Kick(call) =>
      if call !in s.calls { assert Answers(t, t.calls[call]); }
    case Prune(call, key) =>
      if call in s.calls && s.calls[call].Pruning? { assert Answers(t, t.calls[call]); }
    case StartDrain(call, leased, named) =>
      if call !in s.calls && (named || s.known) { assert Answers(t, t.calls[call]); }
    case StartWake(call) =>
      if call !in s.calls { assert Answers(t, t.calls[call]); }
    case NoLease(call) =>
      if call in s.calls && s.calls[call].ReadLease? && Answered(s) { StillAnswered(s, t, call); }
    case Drain(call, effect) =>
      if call in s.calls && s.calls[call].Body? { assert Answers(t, t.calls[call]); }
    case AlarmFires(call, leased) =>
      if s.alarm.Some? && call !in s.calls && s.known { assert Answers(t, t.calls[call]); }
    case Crash => assert !Answered(t);
    case _ =>
  }

  /** No step of the run takes the last thing that answers for work. */
  ghost predicate GuardedRun(s: State, steps: seq<Step>) {
    steps != [] ==>
      GuardedRun(s, steps[..|steps| - 1]) && !Strands(Run(s, steps[..|steps| - 1]), steps[|steps| - 1])
  }

  ghost predicate CoveredThroughout(s: State, steps: seq<Step>) {
    Covered(Run(s, steps)) && (steps != [] ==> CoveredThroughout(s, steps[..|steps| - 1]))
  }

  lemma {:induction false} RunCoversExactly(s: State, steps: seq<Step>)
    requires Covered(s)
    ensures CoveredThroughout(s, steps) <==> GuardedRun(s, steps)
  {
    hide Covered, Strands, Apply;
    if steps != [] {
      RunCoversExactly(s, steps[..|steps| - 1]);
      if CoveredThroughout(s, steps[..|steps| - 1]) {
        StepCoversExactly(Run(s, steps[..|steps| - 1]), steps[|steps| - 1]);
      }
    }
  }

  /** The wake guarantee. Over every interleaving without such a step: once no call is in
      flight, work whose owner is known has an alarm. */
  lemma WakeGuarantee(start: State, steps: seq<Step>)
    requires AtRest(start) && GuardedRun(start, steps)
    ensures var s := Run(start, steps); s.calls == map[] && Work(s) && s.known ==> s.alarm.Some?
  {
    RunCoversExactly(start, steps);
  }

  /** However work was stranded, the next call that guarantees a wake answers for it. */
  lemma NextWakeCovers(s: State, call: nat)
    requires call !in s.calls
    ensures Covered(Apply(s, StartWake(call)))
  {
    var t := Apply(s, StartWake(call));
    assert Answers(t, t.calls[call]);
  }

  // ----- What each step does to the work itself -----

  /** The drain is in its body, as `Drain` steps require. */
  predicate Drains(s: State, call: nat) {
    call in s.calls && s.calls[call].Body?
  }

  /** The step clears storage: a reset, a call whose lifecycle check failed, or a drain
      that meets an entry of a closed account. */
  predicate ClearsStorage(s: State, step: Step) {
    match step
    case Reset => true
    case Refuse(call) => call !in s.calls
    case Abort(call) => call in s.calls && s.calls[call].Enqueued?
    case Drain(call, effect) => effect.Fence? && Holds(s, call)
    case _ => false
  }

  /** The step fires the held chunk into these entries. */
  predicate FiresInto(s: State, step: Step, keys: set<string>) {
    && s.held
    && match step
       case Recover(fires, new_, _) => fires && keys == new_
       case Drain(call, effect) =>
         Drains(s, call) && ((effect.Fire? && keys == effect.keys) || (effect.Rescue? && keys == effect.keys - {effect.key}))
       case _ => false
  }

  /** The step stores an entry under the key. */
  predicate Stores(s: State, step: Step, key: string) {
    match step
    case AddMessages(_, keys, _) => key in keys
    case Recover(_, keys, _) => key in keys && FiresInto(s, step, keys)
    case EnqueueMcp(call, new_) => call !in s.calls && key == new_
    case Drain(call, effect) =>
      && Drains(s, call)
      && (match effect
          case Fire(keys) => s.held && key in keys
          case Write(read) => key == read && read in s.calls[call].seen
          case Split(parent, children) => parent in s.queue && key in children
          case Adopt(new_) => s.legacy > 0 && key == new_
          case Rescue(done, keys) => s.held && key in keys && key != done
          case _ => false)
    case _ => false
  }

  /** The step removes the entry under the key. */
  predicate Removes(s: State, step: Step, key: string) {
    match step
    case Prune(call, old_) => call in s.calls && s.calls[call].Pruning? && key == old_
    case Drain(call, effect) =>
      && Drains(s, call)
      && (match effect
          case Remove(done) => key == done
          case Split(parent, _) => key == parent
          case Rescue(done, _) => key == done
          case _ => ClearsStorage(s, step))
    case _ => ClearsStorage(s, step)
  }

  /** The step names the owner. */
  predicate NamesOwner(s: State, step: Step) {
    match step
    case AddMessages(_, _, _) => true
    case EnqueueMcp(call, _) => call !in s.calls
    case Kick(call) => call !in s.calls
    case _ => FiresInto(s, step, StepKeys(step))
  }

  function StepKeys(step: Step): set<string> {
    match step
    case Recover(_, keys, _) => keys
    case Drain(_, Fire(keys)) => keys
    case Drain(_, Rescue(done, keys)) => keys - {done}
    case _ => {}
  }

  /** Entries, the held chunk, legacy jobs and the owner after a step: what was there and
      not removed, and what the step brought. */
  lemma WorkMoves(s: State, step: Step, key: string)
    ensures var t := Apply(s, step);
            && (key in t.queue <==> Stores(s, step, key) || (key in s.queue && !Removes(s, step, key)))
            && (t.held <==> if step.AddMessages? then step.held
                            else s.held && !ClearsStorage(s, step) && !FiresInto(s, step, StepKeys(step)))
            && (t.legacy == if ClearsStorage(s, step) then 0
                            else if step.Drain? && Drains(s, step.call) && step.effect.Adopt? && s.legacy > 0 then s.legacy - 1
                            else s.legacy)
            && (t.known <==> NamesOwner(s, step) || (s.known && !ClearsStorage(s, step)))
  {
    hide Merge;
    if step.Drain? {
      DrainMoves(s, step.call, step.effect, key);
    } else if step.Continue? {
      hide ApplyEffect;
      if step.call in s.calls { AdvanceLeavesWork(s, step.call, step.at); }
      hide Advance;
    } else {
      hide ApplyEffect, Advance;
    }
  }

  lemma AdvanceLeavesWork(s: State, call: nat, at: int)
    requires call in s.calls
    ensures var t := Advance(s, call, at); t.queue == s.queue && t.held == s.held && t.legacy == s.legacy && t.known == s.known
  {
  }

  lemma DrainMoves(s: State, call: nat, e: Effect, key: string)
    ensures var step := Drain(call, e);
            var t := Apply(s, step);
            && (key in t.queue <==> Stores(s, step, key) || (key in s.queue && !Removes(s, step, key)))
            && (t.held <==> s.held && !ClearsStorage(s, step) && !FiresInto(s, step, StepKeys(step)))
            && (t.legacy == if ClearsStorage(s, step) then 0
                            else if Drains(s, call) && e.Adopt? && s.legacy > 0 then s.legacy - 1
                            else s.legacy)
            && (t.known <==> NamesOwner(s, step) || (s.known && !ClearsStorage(s, step)))
  {
  }

  /** A drain remembers every entry it has read or adopted, until it leaves its body; when it
      meets a closed account it leaves at once, to delete the alarm and wake what is left. */
  lemma DrainsRemember(s: State, call: nat, e: Effect, key: string)
    requires Drains(s, call)
    ensures var t := Apply(s, Drain(call, e));
            && call in t.calls && t.calls == s.calls[call := t.calls[call]]
            && (if e.Fence? && s.calls[call].seen != {} then t.calls[call] == ClearAlarm(true)
                else t.calls[call].Body?
                     && (key in t.calls[call].seen <==>
                           || key in s.calls[call].seen
                           || (e == Take(key) && key in s.queue)
                           || (e == Adopt(key) && s.legacy > 0)))
  {
  }

  /** How a call begins: a drain behind another's lease owes a second arming, past the
      lease; a drain that got it enters its body; a kick prunes, an enqueue arms, and a
      wake starts reading. */
  lemma CallsBegin(s: State, step: Step, call: nat)
    requires call !in s.calls
    ensures var t := Apply(s, step);
            match step
            case StartDrain(c, leased, named) =>
              if c == call && (named || s.known) then call in t.calls && t.calls[call] == (if leased then ReadLegacy(true) else Body({}))
              else call !in t.calls
            case AlarmFires(c, leased) =>
              if c == call && s.alarm.Some? && s.known then call in t.calls && t.calls[call] == (if leased then ReadLegacy(true) else Body({}))
              else call !in t.calls
            case EnqueueMcp(c, _) => call in t.calls <==> c == call
            case Kick(c) => call in t.calls <==> c == call
            case StartWake(c) => if c == call then call in t.calls && t.calls[call] == ReadLegacy(false) else call !in t.calls
            case Refuse(c) => if c == call then call in t.calls && t.calls[call] == ClearAlarm(false) else call !in t.calls
            case _ => call !in t.calls
  {
    hide Merge;
    if step.Drain? {
    } else {
      hide ApplyEffect;
    }
  }

  /** The call still owes an arming past the lease it found taken. */
  predicate Owes(pc: Pc) {
    match pc
    case ReadLegacy(l) => l
    case ReadChunk(l, _) => l
    case ScanQueue(l, _, _) => l
    case GetAlarm(l, _) => l
    case SetAlarm(l, _) => l
    case DeleteAlarm(l) => l
    case RecheckChunk(l) => l
    case RecheckQueue(l, _) => l
    case RecheckLegacy(l, _) => l
    case _ => false
  }

  /** A call that owes the second arming does not end before it has looked at the lease,
      and looks exactly when it owes; having looked, it arms. */
  lemma LeaseIsLookedAt(s: State, call: nat, at: int)
    requires call in s.calls
    ensures var t := Advance(s, call, at);
            var pc := s.calls[call];
            && (Owes(pc) ==> call in t.calls && (Owes(t.calls[call]) || t.calls[call] == ReadLease))
            && (!Owes(pc) && call in t.calls ==> !Owes(t.calls[call]) && t.calls[call] != ReadLease)
            && (pc == ReadLease ==> call in t.calls && t.calls[call] == GetAlarm(false, at))
  {
  }

  // ----- The owner -----

  /** The call has read an entry it may still put back. */
  predicate Holds(s: State, call: nat) {
    call in s.calls && s.calls[call].Body? && s.calls[call].seen != {}
  }

  /** Clearing storage while a drain holds an entry lets it put the entry back into a
      store that no longer knows its owner; a fencing drain gives up its own entries. */
  ghost predicate Orderly(s: State, step: Step) {
    ClearsStorage(s, step) ==> forall call :: Holds(s, call) ==> step.Drain? && step.call == call
  }

  ghost predicate OrderlyRun(s: State, steps: seq<Step>) {
    steps != [] ==>
      OrderlyRun(s, steps[..|steps| - 1]) && Orderly(Run(s, steps[..|steps| - 1]), steps[|steps| - 1])
  }

  ghost predicate Owned(s: State) {
    && (Work(s) ==> s.known)
    && (forall call :: Holds(s, call) ==> s.known)
  }

  /** Ownership is lost exactly by clearing storage under another drain's entries. */
  lemma StepKeepsOwnerExactly(s: State, step: Step)
    requires Owned(s)
    ensures Owned(Apply(s, step)) <==> Orderly(s, step)
  {
    if ClearsStorage(s, step) {
      ClearingKeepsOwnerExactly(s, step);
    } else {
      OtherStepsKeepOwner(s, step);
    }
  }

  lemma OtherStepsKeepOwner(s: State, step: Step)
    requires Owned(s) && !ClearsStorage(s, step)
    ensures Owned(Apply(s, step))
  {
    if step.Drain? {
      DrainKeepsOwner(s, step.call, step.effect);
    } else {
      hide ApplyEffect, Merge;
      var t := Apply(s, step);
      assert s.known ==> t.known;
      assert forall c :: Holds(t, c) ==> Holds(s, c);
    }
  }

  lemma DrainKeepsOwner(s: State, call: nat, e: Effect)
    requires Owned(s) && !ClearsStorage(s, Drain(call, e))
    ensures Owned(Apply(s, Drain(call, e)))
  {
    var t := Apply(s, Drain(call, e));
    assert s.known ==> t.known;
    assert Holds(t, call) && !Holds(s, call) ==> Work(s);
    forall c | Holds(t, c) && c != call ensures Holds(s, c) {
    }
  }

  lemma ClearingKeepsOwnerExactly(s: State, step: Step)
    requires ClearsStorage(s, step)
    ensures Owned(Apply(s, step)) <==> Orderly(s, step)
  {
    var t := Apply(s, step);
    assert !t.known && !Work(t);
    forall c ensures Holds(t, c) <==> Holds(s, c) && !(step.Drain? && step.call == c) {
    }
  }

  lemma {:induction false} OrderlyRunsKnowTheOwner(start: State, steps: seq<Step>)
    requires AtRest(start) && OrderlyRun(start, steps)
    ensures Owned(Run(start, steps))
  {
    hide Owned, Orderly, Apply;
    if steps != [] {
      OrderlyRunsKnowTheOwner(start, steps[..|steps| - 1]);
      StepKeepsOwnerExactly(Run(start, steps[..|steps| - 1]), steps[|steps| - 1]);
    } else {
      assert Owned(start) by { RestIsOwned(start); }
    }
  }

  lemma RestIsOwned(s: State)
    requires AtRest(s)
    ensures Owned(s)
  {
  }

  /** In a run of both kinds the guarantee needs no condition. */
  lemma OrderlyWakeGuarantee(start: State, steps: seq<Step>)
    requires AtRest(start) && GuardedRun(start, steps) && OrderlyRun(start, steps)
    ensures Run(start, steps).calls == map[] ==> AtRest(Run(start, steps))
  {
    WakeGuarantee(start, steps);
    OrderlyRunsKnowTheOwner(start, steps);
  }

  /** With nothing in flight, what the guarantee leaves to chance is the owner: the alarm
      of work at rest is spent for nothing exactly when the owner is not stored. */
  lemma FiringStrandsExactly(start: State, steps: seq<Step>, call: nat, leased: bool)
    requires AtRest(start) && GuardedRun(start, steps)
    requires Run(start, steps).calls == map[] && Work(Run(start, steps))
    ensures var s := Run(start, steps);
            var t := Apply(s, AlarmFires(call, leased));
            t.calls == map[] && t.alarm.None? && Work(t) <==> !s.known
  {
    WakeGuarantee(start, steps);
    var s := Run(start, steps);
    if s.known {
      assert call in Apply(s, AlarmFires(call, leased)).calls;
    }
  }

  const EMPTY := State(false, {}, 0, false, None, map[])

  lemma Extend(s: State, steps: seq<Step>, step: Step) returns (longer: seq<Step>)
    ensures longer == steps + [step] && Run(s, longer) == Apply(Run(s, steps), step)
  {
    longer := steps + [step];
    assert longer[..|steps|] == steps;
  }

  /** The condition is needed: a reset between a drain's read of an entry and its write
      back ends with work, no call in flight and no alarm. */
  lemma ResetDuringDrainStrandsWork()
    ensures exists steps :: var s := Run(EMPTY, steps); Work(s) && s.calls == map[] && s.alarm.None?
  {
    var p := Extend(EMPTY, [], AddMessages(false, {"q:1"}, 5));
    p := Extend(EMPTY, p, StartDrain(0, false, false));
    p := Extend(EMPTY, p, Drain(0, Take("q:1")));
    p := Extend(EMPTY, p, Reset);
    p := Extend(EMPTY, p, Drain(0, Write("q:1")));
    var s := Run(EMPTY, p);
    assert s.queue == {"q:1"} && s.calls.Keys == {0} && s.calls[0] == Body({"q:1"});
    assert s == State(false, {"q:1"}, 0, false, None, map[0 := Body({"q:1"})]);
    p := DrainLeaves(p);
    p := Extend(EMPTY, p, AlarmFires(1, false));
    assert Run(EMPTY, p).queue == {"q:1"};
  }

  /** So is the other one: a call refused by its lifecycle check deletes the alarm of a
      save that came in after it cleared storage. */
  lemma RefusalStrandsWork()
    ensures exists steps :: var s := Run(EMPTY, steps); Work(s) && s.known && s.calls == map[] && s.alarm.None?
  {
    var p := Extend(EMPTY, [], Refuse(0));
    p := Extend(EMPTY, p, AddMessages(true, {}, 5));
    assert Run(EMPTY, p) == State(true, {}, 0, true, Some(5), map[0 := ClearAlarm(false)]);
    p := Extend(EMPTY, p, Continue(0, 0));
  }

  /** And an isolate that dies between an enqueue's commit and its arming. */
  lemma CrashStrandsWork()
    ensures exists steps :: var s := Run(EMPTY, steps); Work(s) && s.known && s.calls == map[] && s.alarm.None?
  {
    var p := Extend(EMPTY, [], EnqueueMcp(0, "q:1"));
    p := Extend(EMPTY, p, Crash);
    assert Run(EMPTY, p).queue == {"q:1"};
  }

  lemma DrainLeaves(steps: seq<Step>) returns (p: seq<Step>)
    requires Run(EMPTY, steps) == State(false, {"q:1"}, 0, false, None, map[0 := Body({"q:1"})])
    ensures Run(EMPTY, p) == State(false, {"q:1"}, 0, false, Some(9), map[])
  {
    p := Extend(EMPTY, steps, Continue(0, 9));
    p := Extend(EMPTY, p, Continue(0, 9));
    p := Extend(EMPTY, p, Continue(0, 9));
    p := Extend(EMPTY, p, Continue(0, 9));
    p := Extend(EMPTY, p, Continue(0, 9));
    p := Extend(EMPTY, p, Continue(0, 9));
  }

  // ----- One call alone -----

  function Alone(s: State, call: nat, at: int, n: nat): State {
    if n == 0 then s
    else
      var t := Alone(s, call, at, n - 1);
      if call in t.calls then Advance(t, call, at) else t
  }

  /** Uninterrupted, the reads and writes of `#guaranteeWake` are one atomic wake: an
      alarm exactly when there is work, and never later than one already set. */
  lemma AloneIsAtomic(s: State, call: nat, at: int)
    requires call !in s.calls
    ensures Alone(Apply(s, StartWake(call)), call, at, 7) == WakeNow(s, at)
    ensures Work(s) && s.alarm.Some? ==> WakeNow(s, at).alarm.value <= s.alarm.value
  {
    var s0 := Apply(s, StartWake(call));
    AloneReads(s, call, at);
    AloneAdds(s0, call, at, 3, 4);
    if Work(s) {
      ArmsAlone(s, call, at);
    } else {
      ClearsAlone(s, call, at);
    }
  }

  lemma {:induction false} AloneAdds(s: State, call: nat, at: int, m: nat, n: nat)
    ensures Alone(Alone(s, call, at, m), call, at, n) == Alone(s, call, at, m + n)
  {
    hide Advance;
    if n > 0 {
      AloneAdds(s, call, at, m, n - 1);
    }
  }

  lemma ArmsAlone(s: State, call: nat, at: int)
    requires call !in s.calls && Work(s)
    ensures Alone(Goto(s, call, GetAlarm(false, at)), call, at, 4) == WakeNow(s, at)
  {
    var t := Goto(s, call, GetAlarm(false, at));
    assert Alone(t, call, at, 1) == Advance(t, call, at);
    assert Alone(t, call, at, 2) == WakeNow(s, at);
    assert Alone(t, call, at, 3) == WakeNow(s, at);
  }

  lemma ClearsAlone(s: State, call: nat, at: int)
    requires call !in s.calls && !Work(s)
    ensures Alone(Goto(s, call, DeleteAlarm(false)), call, at, 4) == WakeNow(s, at)
  {
    var t, cleared := Goto(s, call, DeleteAlarm(false)), s.(alarm := None);
    assert Alone(t, call, at, 1) == Goto(cleared, call, RecheckChunk(false));
    assert Alone(t, call, at, 2) == Goto(cleared, call, RecheckQueue(false, false));
    assert Alone(t, call, at, 3) == Goto(cleared, call, RecheckLegacy(false, false));
    assert cleared.calls[call := RecheckLegacy(false, false)] - {call} == s.calls;
  }

  lemma AloneReads(s: State, call: nat, at: int)
    requires call !in s.calls
    ensures Alone(Apply(s, StartWake(call)), call, at, 3)
            == Goto(s, call, if Work(s) then GetAlarm(false, at) else DeleteAlarm(false))
  {
    var s0 := Apply(s, StartWake(call));
    assert Alone(s0, call, at, 1) == Goto(s, call, ReadChunk(false, s.legacy > 0));
    assert Alone(s0, call, at, 2) == Goto(s, call, ScanQueue(false, s.legacy > 0, s.held));
  }

  /** Interleaved, the min-merge can push an alarm later: a second call that arms between
      the two accesses of the first has its earlier alarm overwritten. */
  lemma MergeCanPushLater()
    ensures exists steps, step ::
              var s := Run(EMPTY, steps);
              var t := Apply(s, step);
              s.alarm == Some(50) && t.alarm == Some(90) && step.Continue?
  {
    var p := Extend(EMPTY, [], EnqueueMcp(0, "q:1"));
    p := Extend(EMPTY, p, EnqueueMcp(1, "q:2"));
    p := Extend(EMPTY, p, Continue(0, 90));
    p := Extend(EMPTY, p, Continue(1, 50));
    assert Run(EMPTY, p).alarm.None? && Run(EMPTY, p).calls == map[0 := GetAlarm(false, 90), 1 := GetAlarm(false, 50)];
    p := Extend(EMPTY, p, Continue(0, 0));
    p := Extend(EMPTY, p, Continue(1, 0));
    p := Extend(EMPTY, p, Continue(1, 0));
    var s := Run(EMPTY, p);
    assert s.alarm == Some(50) && 0 in s.calls && s.calls[0] == SetAlarm(false, 90);
    assert Apply(s, Continue(0, 0)).alarm == Some(90);
  }

  predicate Earlier(s: State, t: int) {
    s.alarm.Some? && s.alarm.value < t
  }

  /** The step stores an alarm before `t`: some call's write, or an exclusive save's wake. */
  predicate Arms(s: State, step: Step, t: int) {
    match step
    case AddMessages(held, keys, at) => at < t && Work(s.(held := held, queue := s.queue + keys))
    case Recover(fires, keys, at) => at < t && Work(if fires then FireHeld(s, keys) else s)
    case Continue(call, _) => call in s.calls && s.calls[call].SetAlarm? && s.calls[call].at < t
    case _ => false
  }

  /** The step ends every alarm before `t`: a write of a later one, a delete, a firing, an
      exclusive save that leaves no work, or a reset. */
  predicate Clears(s: State, step: Step, t: int) {
    match step
    case AddMessages(held, keys, _) => !Work(s.(held := held, queue := s.queue + keys))
    case Recover(fires, keys, _) => !Work(if fires then FireHeld(s, keys) else s)
    case Continue(call, _) =>
      && call in s.calls
      && (s.calls[call].DeleteAlarm? || s.calls[call].ClearAlarm? || (s.calls[call].SetAlarm? && s.calls[call].at >= t))
    case AlarmFires(call, _) => call !in s.calls
    case Reset => true
    case _ => false
  }

  lemma StepMovesAlarm(s: State, step: Step, t: int)
    ensures Earlier(Apply(s, step), t) <==> Arms(s, step, t) || (Earlier(s, t) && !Clears(s, step, t))
  {
  }

  /** Step `i` stores an alarm before `t`, and it is still there at the end. */
  ghost predicate LastsFrom(s: State, steps: seq<Step>, i: nat, t: int)
    requires i < |steps|
  {
    && Arms(Run(s, steps[..i]), steps[i], t)
    && forall j :: i < j < |steps| ==> !Clears(Run(s, steps[..j]), steps[j], t)
  }

  lemma {:induction false} RunMovesAlarm(s: State, steps: seq<Step>, t: int)
    requires !Earlier(s, t)
    ensures Earlier(Run(s, steps), t) <==> exists i :: 0 <= i < |steps| && LastsFrom(s, steps, i, t)
  {
    hide Apply, Earlier, Arms, Clears;
    if steps != [] {
      var n := |steps| - 1;
      var front := steps[..n];
      RunMovesAlarm(s, front, t);
      StepMovesAlarm(Run(s, front), steps[n], t);
      forall i | 0 <= i < n
        ensures LastsFrom(s, steps, i, t) <==> LastsFrom(s, front, i, t) && !Clears(Run(s, front), steps[n], t)
      {
        LastsOneMore(s, steps, i, t);
      }
      assert LastsFrom(s, steps, n, t) <==> Arms(Run(s, front), steps[n], t);
    }
  }

  lemma LastsOneMore(s: State, steps: seq<Step>, i: nat, t: int)
    requires i < |steps| - 1
    ensures var n := |steps| - 1;
            LastsFrom(s, steps, i, t)
            <==> LastsFrom(s, steps[..n], i, t) && !Clears(Run(s, steps[..n]), steps[n], t)
  {
    hide Run, Arms, Clears;
    var n := |steps| - 1;
    var front := steps[..n];
    assert forall j :: 0 <= j < n ==> front[..j] == steps[..j] && front[j] == steps[j];
    if LastsFrom(s, front, i, t) && !Clears(Run(s, front), steps[n], t) {
      forall j | i < j < |steps| ensures !Clears(Run(s, steps[..j]), steps[j], t) {
        if j < n {
          assert !Clears(Run(s, front[..j]), front[j], t);
        }
      }
    }
    if LastsFrom(s, steps, i, t) {
      forall j | i < j < n ensures !Clears(Run(s, front[..j]), front[j], t) {
        assert !Clears(Run(s, steps[..j]), steps[j], t);
      }
    }
  }

  /** ... and exactly then: a call that is about to write the alarm at `t` moves it later
      exactly when, since its read, some step stored one before `t` that no step ended. */
  lemma MergePushesLaterExactly(s: State, call: nat, t: int, l: bool, others: seq<Step>)
    requires call in s.calls && s.calls[call] == GetAlarm(l, t)
    requires var s1 := Apply(s, Continue(call, 0)); call in s1.calls && s1.calls[call] == SetAlarm(l, t)
    requires var s2 := Run(Apply(s, Continue(call, 0)), others); call in s2.calls && s2.calls[call] == SetAlarm(l, t)
    ensures var s1 := Apply(s, Continue(call, 0));
            var before, after := Run(s1, others).alarm, Apply(Run(s1, others), Continue(call, 0)).alarm;
            && after == Some(t)
            && (before.Some? && after.value > before.value
                <==> exists i :: 0 <= i < |others| && LastsFrom(s1, others, i, t))
  {
    var s1 := Apply(s, Continue(call, 0));
    assert !Earlier(s1, t);
    RunMovesAlarm(s1, others, t);
    ArmsNow(Run(s1, others), call, t, l);
    hide LastsFrom, Apply, Run;
  }

  lemma ArmsNow(s: State, call: nat, t: int, l: bool)
    requires call in s.calls && s.calls[call] == SetAlarm(l, t)
    ensures Apply(s, Continue(call, 0)).alarm == Some(t)
  {
  }
}

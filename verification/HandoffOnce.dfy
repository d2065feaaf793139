/** The handoff itself: messages enter at most once per current generation, a call that
    returns leaves its work held, queued or finished, and a marker never changes hash. */
module HandoffOnce {
  import opened Wrappers
  import opened Handoff
  import opened HandoffSafety

  // ----- What a call has learnt -----

  ghost predicate Queued(s: State, id: Id) {
    exists w: Write :: w.job == id.job && w.gen == id.gen && InQueue(s, w)
  }

  ghost predicate Accepted(s: State, id: Id) {
    exists w :: w in s.accepted && w.job == id.job && w.gen == id.gen
  }

  ghost predicate Durable(s: State, id: Id) {
    Done(s, id.job, id.gen) || exists w: Write :: w.job == id.job && w.gen == id.gen && Safe(s, w)
  }

  /** What stands between a handoff that already entered and a second entry. */
  ghost predicate Barred(s: State, id: Id) {
    id in s.calls ==>
      match s.calls[id].pc
      case SawChunk(false) => Done(s, id.job, id.gen) || Queued(s, id)
      case Unowned => Done(s, id.job, id.gen)
      case Ready => id.job in s.jobs && s.jobs[id.job].gen > id.gen
      case _ => true
  }

  ghost predicate AcceptedAreSafe(s: State) {
    forall w :: w in s.accepted ==> Safe(s, w)
  }

  ghost predicate Once(s: State, id: Id) {
    Entered(s, id) <= 1 && (Entered(s, id) == 1 ==> Accepted(s, id) && Barred(s, id))
  }

  // ----- Accepted writes -----

  /** New acceptances are in the chunk when they are recorded. */
  lemma AcceptedStaySafe(s: State, step: Step)
    requires Inv(s) && AcceptedAreSafe(s)
    ensures AcceptedAreSafe(Apply(s, step))
  {
    var t := Apply(s, step);
    forall w | w in t.accepted ensures Safe(t, w) {
      if step.Reset? {
      } else if w in s.accepted {
        SafeStays(s, step, w);
      } else {
        NewlyAccepted(s, step, w);
      }
    }
    hide Inv, Safe;
  }

  lemma NewlyAccepted(s: State, step: Step, w: Write)
    requires w in Apply(s, step).accepted && w !in s.accepted
    ensures InChunk(Apply(s, step), w)
  {
    hide TakeEntry, SplitEntry, CheckEntry, VerifyJob, PutEntry, FinalizeEntry, TakesOver, Evolves, AdvanceCall, Open;
    if DrainStep(step) {
      DrainFrame(s, step);
    } else {
      match step
      case Advance(id, msgs) =>
        if id in s.calls { NewlyCommitted(s, id, msgs, w); }
      case AddOther(items) => NewlyAdded(s, items, w);
      case Start(id, hash) => OpenKeepsHistory(s, id, hash);
      case _ =>
    }
  }

  lemma NewlyAdded(s: State, items: set<Held>, w: Write)
    requires w in AddHeld(s, items).accepted && w !in s.accepted
    ensures InChunk(AddHeld(s, items), w)
  {
    var m :| m in items && m.job.Some? && w == Write(m.job.value, m.gen, m.msg);
    assert m == Held(w.msg, Some(w.job), w.gen, false);
  }

  lemma OpenKeepsHistory(s: State, id: Id, hash: Hash)
    ensures var t := Open(s, id, hash); t.accepted == s.accepted && t.entered == s.entered
  {
    if id in s.calls {
    } else if id !in s.markers {
    } else if s.markers[id].hash != hash {
    } else {
      match s.markers[id].state
      case Pending =>
      case Applied =>
      case Accepted =>
    }
  }

  lemma NewlyCommitted(s: State, id: Id, msgs: set<MsgId>, w: Write)
    requires id in s.calls && w in AdvanceCall(s, id, msgs).accepted && w !in s.accepted
    ensures InChunk(AdvanceCall(s, id, msgs), w)
  {
    hide AdvanceCall, Entered;
    if s.calls[id].pc != Ready {
      AdvanceHistory(s, id, msgs);
    } else {
      ReadyCommits(s, id, msgs);
      assert w in WritesOf(id, msgs);
      assert Held(w.msg, Some(w.job), w.gen, false) in HeldAs(id, msgs);
    }
  }

  lemma ReadyCommits(s: State, id: Id, msgs: set<MsgId>)
    requires id in s.calls && s.calls[id].pc == Ready
    ensures AdvanceCall(s, id, msgs) == Commit(s, id, s.calls[id].hash, msgs)
  {
    hide Commit;
  }

  /** Only the commit writes history. */
  lemma AdvanceHistory(s: State, id: Id, msgs: set<MsgId>)
    requires id in s.calls && s.calls[id].pc != Ready
    ensures var t := AdvanceCall(s, id, msgs); t.accepted == s.accepted && t.entered == s.entered
  {
    hide HeldFor, QueuedFor, WithoutSuperseded, WithoutQueued;
    if Finishes(s.calls[id].pc) {
      match s.calls[id].pc
      case FinishUnowned => if id.job in s.jobs && s.jobs[id.job].terminal {} else {}
      case Finishing =>
      case FinishSawChunk(own) =>
      case FinishOwned =>
      case FinishTerminal =>
    } else {
      match s.calls[id].pc
      case Bound => if id.job in s.jobs && s.jobs[id.job].gen == id.gen {} else {}
      case GenChecked =>
      case Dropped =>
      case SawChunk(own) =>
      case Owned =>
      case Unowned =>
      case Applying =>
    }
  }

  // ----- At most one entry -----

  predicate ByCall(step: Step, id: Id) {
    (step.Start? && step.id == id) || (step.Advance? && step.id == id) || (step.Abort? && step.id == id) || step.Crash?
  }

  lemma ElsewhereCalls(s: State, step: Step, id: Id)
    requires Inv(s) && !ByCall(step, id)
    ensures var t := Apply(s, step); (id in t.calls <==> id in s.calls) && (id in s.calls ==> t.calls[id] == s.calls[id])
  {
    hide TakeEntry, SplitEntry, CheckEntry, VerifyJob, PutEntry, FinalizeEntry, TakesOver, Evolves, AdvanceCall, Open, Inv;
    if DrainStep(step) {
      DrainFrame(s, step);
    } else {
      match step
      case Advance(o, msgs) => if o in s.calls { OtherAdvances(s, o, msgs, id); }
      case Start(o, hash) => OtherOpens(s, o, hash, id);
      case _ =>
    }
  }

  lemma OtherAdvances(s: State, o: Id, msgs: set<MsgId>, id: Id)
    requires Inv(s) && o in s.calls && o != id
    ensures var t := AdvanceCall(s, o, msgs); (id in t.calls <==> id in s.calls) && (id in s.calls ==> t.calls[id] == s.calls[id])
  {
    assert CallKnows(s, o);
    hide Inv, CallKnows, Accept, Finish, OnlyCalls;
    if Finishes(s.calls[o].pc) { FinishFrame(s, o); } else { AcceptFrame(s, o, msgs); }
  }

  lemma OtherOpens(s: State, o: Id, hash: Hash, id: Id)
    requires Inv(s) && o != id
    ensures var t := Open(s, o, hash); (id in t.calls <==> id in s.calls) && (id in s.calls ==> t.calls[id] == s.calls[id])
  {
    assert CallKnows(s, o);
    hide Inv, CallKnows, Open, OnlyCalls;
    OpenFrame(s, o, hash);
  }

  predicate Commits(s: State, step: Step) {
    step.Advance? && step.id in s.calls && s.calls[step.id].pc == Ready
  }

  lemma HistoryFrame(s: State, step: Step)
    requires !step.Reset? && !Commits(s, step)
    ensures Apply(s, step).entered == s.entered && s.accepted <= Apply(s, step).accepted
  {
    hide TakeEntry, SplitEntry, CheckEntry, VerifyJob, PutEntry, FinalizeEntry, TakesOver, Evolves, AdvanceCall, Open, TaggedWrites;
    if DrainStep(step) {
      DrainFrame(s, step);
    } else {
      match step
      case Advance(o, msgs) => if o in s.calls { AdvanceHistory(s, o, msgs); }
      case Start(o, hash) => OpenKeepsHistory(s, o, hash);
      case _ =>
    }
  }

  /** Entries are counted by the handoff's own commit only, and a reset forgets them. */
  lemma EnteredElsewhere(s: State, step: Step, id: Id)
    requires !step.Reset? && !(Commits(s, step) && step.id == id)
    ensures Entered(Apply(s, step), id) == Entered(s, id) && s.accepted <= Apply(s, step).accepted
  {
    hide AdvanceCall, Commit;
    if Commits(s, step) {
      ReadyCommits(s, step.id, step.msgs);
      CommitCounts(s, step.id, s.calls[step.id].hash, step.msgs);
    } else {
      HistoryFrame(s, step);
      hide Apply;
    }
  }

  lemma CommitCounts(s: State, id: Id, hash: Hash, msgs: set<MsgId>)
    ensures var t := Commit(s, id, hash, msgs);
            && s.accepted <= t.accepted
            && (forall o :: o != id ==> Entered(t, o) == Entered(s, o))
            && (Entered(t, id) == Entered(s, id)
                || (Entered(t, id) == Entered(s, id) + 1 && id.job in s.jobs && s.jobs[id.job].gen == id.gen && Accepted(t, id)))
  {
    hide HeldAs, WritesOf, Accepted;
    if id in s.markers && s.markers[id] == Marker(hash, Pending) && msgs != {} {
      CommitAccepts(s, id, hash, msgs);
    } else {
    }
  }

  lemma CommitAccepts(s: State, id: Id, hash: Hash, msgs: set<MsgId>)
    requires id in s.markers && s.markers[id] == Marker(hash, Pending) && msgs != {}
    ensures Accepted(Commit(s, id, hash, msgs), id)
  {
    hide HeldAs, Entered;
    var m :| m in msgs;
    assert Write(id.job, id.gen, m) in WritesOf(id, msgs);
  }

  /** The bar stays up while the call stands still. */
  lemma BarredStays(s: State, step: Step, id: Id)
    requires Inv(s) && !step.Reset? && Barred(s, id) && !ByCall(step, id)
    ensures Barred(Apply(s, step), id)
  {
    ElsewhereCalls(s, step, id);
    if id in s.calls {
      match s.calls[id].pc
      case SawChunk(own) =>
        if !own {
          if Done(s, id.job, id.gen) {
            DoneStays(s, step, id.job, id.gen);
          } else {
            var w: Write :| w.job == id.job && w.gen == id.gen && InQueue(s, w);
            QueueKeeps(s, step, w);
            if Done(s, w.job, w.gen) { DoneStays(s, step, w.job, w.gen); }
          }
        }
      case Unowned => DoneStays(s, step, id.job, id.gen);
      case Ready => OvertakenStays(s, step, id);
      case _ =>
    }
    hide Inv, Apply, Done, InQueue;
  }

  lemma OvertakenStays(s: State, step: Step, id: Id)
    requires Inv(s) && id.job in s.jobs && s.jobs[id.job].gen > id.gen
    ensures id.job in Apply(s, step).jobs && Apply(s, step).jobs[id.job].gen > id.gen
  {
    hide Inv, Apply;
    assert Done(s, id.job, id.gen + 1) || Done(s, id.job, id.gen);
    JobsRise(s, step, id.job);
  }

  lemma JobsRise(s: State, step: Step, job: JobId)
    requires Inv(s) && job in s.jobs
    ensures job in Apply(s, step).jobs && Apply(s, step).jobs[job].gen >= s.jobs[job].gen
  {
    hide TakeEntry, SplitEntry, CheckEntry, VerifyJob, PutEntry, FinalizeEntry, TakesOver, AdvanceCall, Open, Inv;
    if DrainStep(step) {
      DrainFrame(s, step);
    } else {
      match step
      case Advance(id, msgs) => if id in s.calls { AdvanceFrame(s, id, msgs); }
      case Start(id, hash) => OpenKeeps(s, id, hash);
      case _ =>
    }
  }

  /** The call's own next access keeps the bar up. */
  lemma OwnAdvanceBarred(s: State, id: Id, msgs: set<MsgId>)
    requires Inv(s) && AcceptedAreSafe(s) && id in s.calls && s.calls[id].pc != Ready
    requires Accepted(s, id) && Barred(s, id)
    ensures Barred(AdvanceCall(s, id, msgs), id)
  {
    match s.calls[id].pc
    case Dropped => LookSees(s, id);
    case SawChunk(own) => ScanSees(s, id);
    case Unowned =>
    case Bound =>
    case _ =>
    hide Inv, AcceptedAreSafe, HeldFor, QueuedFor, WithoutQueued, WithoutSuperseded, Commit, Queued;
  }

  lemma LookSees(s: State, id: Id)
    requires AcceptedAreSafe(s) && Accepted(s, id)
    ensures HeldFor(s, id) || Done(s, id.job, id.gen) || Queued(s, id)
  {
    var w :| w in s.accepted && w.job == id.job && w.gen == id.gen;
    assert Safe(s, w);
    if InChunk(s, w) {
      assert Held(w.msg, Some(w.job), w.gen, false) in s.chunk;
    }
  }

  lemma ScanSees(s: State, id: Id)
    ensures Queued(s, id) ==> QueuedFor(s, id)
  {
    if Queued(s, id) {
      var w: Write :| w.job == id.job && w.gen == id.gen && InQueue(s, w);
      var k :| k in s.queue && Owns(s.queue[k].content, w);
      assert id.job in JobsOf(s.queue[k].content);
    }
  }

  lemma OnceStep(s: State, step: Step, id: Id)
    requires Inv(s) && AcceptedAreSafe(s) && Once(s, id)
    ensures Once(Apply(s, step), id)
  {
    var t := Apply(s, step);
    if step.Reset? {
      assert Entered(t, id) == 0;
    } else if Commits(s, step) && step.id == id {
      CommitOnce(s, id, step.msgs);
    } else {
      EnteredElsewhere(s, step, id);
      if Entered(s, id) == 1 {
        BarredStep(s, step, id);
      }
    }
    hide Inv, AcceptedAreSafe, Apply, Barred, Accepted;
  }

  lemma BarredStep(s: State, step: Step, id: Id)
    requires Inv(s) && AcceptedAreSafe(s) && Accepted(s, id) && Barred(s, id)
    requires !step.Reset? && !(Commits(s, step) && step.id == id)
    ensures Barred(Apply(s, step), id)
  {
    hide Inv, AcceptedAreSafe, Accepted, Barred, AdvanceCall, Open;
    match step
    case Advance(o, msgs) =>
      if o != id {
        BarredStays(s, step, id);
      } else if id in s.calls {
        OwnAdvanceBarred(s, id, msgs);
      }
    case Start(o, hash) => if o != id { BarredStays(s, step, id); } else { OpenBarred(s, id, hash); }
    case Abort(o) => if o != id { BarredStays(s, step, id); } else { NoCallBarred(Leave(s, id), id); }
    case Crash => NoCallBarred(Apply(s, step), id);
    case _ => BarredStays(s, step, id);
  }

  lemma NoCallBarred(s: State, id: Id)
    requires id !in s.calls
    ensures Barred(s, id)
  {
  }

  lemma OpenBarred(s: State, id: Id, hash: Hash)
    requires Barred(s, id)
    ensures Barred(Open(s, id, hash), id)
  {
  }

  /** The commit keeps the count at one: the bar lets only an overtaken call through. */
  lemma CommitOnce(s: State, id: Id, msgs: set<MsgId>)
    requires Once(s, id) && id in s.calls && s.calls[id].pc == Ready
    ensures Once(AdvanceCall(s, id, msgs), id)
  {
    var hash := s.calls[id].hash;
    ReadyCommits(s, id, msgs);
    CommitCounts(s, id, hash, msgs);
    CommitMoves(s, id, hash, msgs);
    hide AdvanceCall, Commit, Entered;
  }

  lemma CommitMoves(s: State, id: Id, hash: Hash, msgs: set<MsgId>)
    ensures var t := Commit(s, id, hash, msgs); id in t.calls ==> t.calls[id].pc == Applying
  {
    hide HeldAs, WritesOf, Entered;
  }

  ghost predicate Good(s: State) {
    Inv(s) && AcceptedAreSafe(s) && forall id :: Once(s, id)
  }

  lemma {:induction false} GoodRun(jobs: map<JobId, Job>, steps: seq<Step>)
    ensures Good(Run(Initial(jobs), steps))
  {
    hide Inv, AcceptedAreSafe, Once, Apply, Initial;
    if steps == [] {
      InitialInv(jobs);
      assert AcceptedAreSafe(Initial(jobs)) && forall id :: Once(Initial(jobs), id) by { InitialOnce(jobs); }
    } else {
      GoodRun(jobs, steps[..|steps| - 1]);
      GoodStep(Run(Initial(jobs), steps[..|steps| - 1]), steps[|steps| - 1]);
    }
  }

  lemma GoodStep(s: State, step: Step)
    requires Good(s)
    ensures Good(Apply(s, step))
  {
    hide Inv, AcceptedAreSafe, Once, Apply;
    InvStep(s, step);
    AcceptedStaySafe(s, step);
    forall id ensures Once(Apply(s, step), id) {
      OnceStep(s, step, id);
    }
  }

  lemma {:induction false} GoodSteps(s: State, steps: seq<Step>)
    requires Good(s)
    ensures Good(Run(s, steps))
  {
    hide Good, Apply;
    if steps != [] {
      GoodSteps(s, steps[..|steps| - 1]);
      GoodStep(Run(s, steps[..|steps| - 1]), steps[|steps| - 1]);
    }
  }

  lemma InitialOnce(jobs: map<JobId, Job>)
    ensures AcceptedAreSafe(Initial(jobs)) && forall id :: Once(Initial(jobs), id)
  {
  }

  /** Handoff exactly-once. Whatever calls of one handoff are made, wherever they or the
      isolate die, and whatever drains, repairs and resets run beside them: since the
      last reset its messages entered at most once under its current generation, and
      everything ever accepted is still held, queued or finished. */
  lemma HandoffExactlyOnce(jobs: map<JobId, Job>, steps: seq<Step>, id: Id)
    ensures var s := Run(Initial(jobs), steps);
            Entered(s, id) <= 1 && forall w :: w in s.accepted ==> Safe(s, w)
  {
    GoodRun(jobs, steps);
    assert Once(Run(Initial(jobs), steps), id);
    hide Inv, Safe, Run;
  }

  // ----- What a returning call leaves behind -----

  ghost predicate Answers(s: State, id: Id) {
    && (id in s.returned ==> Durable(s, id))
    && (id in s.markers && s.markers[id].state.Accepted? ==> id in s.returned)
    && (id in s.calls && (s.calls[id].pc == FinishSawChunk(true) || s.calls[id].pc == FinishOwned) ==> Durable(s, id))
    && (id in s.calls && s.calls[id].pc == FinishTerminal ==> Done(s, id.job, id.gen))
  }

  /** The call has found its work and is about to acknowledge it. */
  predicate HasFound(s: State, id: Id) {
    id in s.calls && (s.calls[id].pc == FinishSawChunk(true) || s.calls[id].pc == FinishOwned)
  }

  /** No reset overtakes a call that has found its work, unless the work is finished. */
  ghost predicate Orderly(s: State, step: Step) {
    step.Reset? ==> forall id :: HasFound(s, id) ==> Done(s, id.job, id.gen)
  }

  ghost predicate OrderlyRun(s: State, steps: seq<Step>) {
    steps != [] ==> OrderlyRun(s, steps[..|steps| - 1]) && Orderly(Run(s, steps[..|steps| - 1]), steps[|steps| - 1])
  }

  lemma DurableStays(s: State, step: Step, id: Id)
    requires Inv(s) && !step.Reset? && Durable(s, id)
    ensures Durable(Apply(s, step), id)
  {
    hide Inv, Apply, Done, Safe;
    if Done(s, id.job, id.gen) {
      DoneStays(s, step, id.job, id.gen);
    } else {
      var w: Write :| w.job == id.job && w.gen == id.gen && Safe(s, w);
      SafeStays(s, step, w);
    }
  }

  /** Held for the job - even as a rescue's settled copy - means durable. */
  lemma HeldIsDurable(s: State, id: Id)
    requires Inv(s) && HeldFor(s, id)
    ensures Durable(s, id)
  {
    var m :| m in s.chunk && m.job == Some(id.job) && m.gen == id.gen;
    if !m.settled {
      var w := Write(id.job, id.gen, m.msg);
      assert m == Held(w.msg, Some(w.job), w.gen, false);
      assert Safe(s, w);
    }
  }

  lemma QueuedIsDurable(s: State, id: Id)
    requires QueuedFor(s, id)
    ensures Durable(s, id)
  {
    var k :| k in s.queue && s.queue[k].content.gen == id.gen && id.job in JobsOf(s.queue[k].content);
    var m :| m in s.queue[k].content.owners && s.queue[k].content.owners[m] == id.job;
    var w := Write(id.job, id.gen, m);
    assert Owns(s.queue[k].content, w);
    assert InQueue(s, w) && Safe(s, w);
  }

  lemma AnswersElsewhere(s: State, step: Step, id: Id)
    requires Inv(s) && !step.Reset? && Answers(s, id) && !ByCall(step, id)
    ensures Answers(Apply(s, step), id)
  {
    hide Inv, Apply, Durable, Done;
    ElsewhereCalls(s, step, id);
    ElsewhereReturns(s, step, id);
    if id in s.returned { DurableStays(s, step, id); }
    if id in s.calls && (s.calls[id].pc == FinishSawChunk(true) || s.calls[id].pc == FinishOwned) { DurableStays(s, step, id); }
    if id in s.calls && s.calls[id].pc == FinishTerminal { DoneStays(s, step, id.job, id.gen); }
  }

  lemma ElsewhereReturns(s: State, step: Step, id: Id)
    requires Inv(s) && !step.Reset? && !ByCall(step, id)
    ensures var t := Apply(s, step);
            && (id in t.returned <==> id in s.returned)
            && (id in t.markers ==> id in s.markers && t.markers[id] == s.markers[id])
  {
    hide TakeEntry, SplitEntry, CheckEntry, VerifyJob, PutEntry, FinalizeEntry, TakesOver, Evolves, AdvanceCall, Open, Inv;
    if DrainStep(step) {
      DrainFrame(s, step);
    } else {
      match step
      case Advance(o, msgs) => if o in s.calls { OtherReturns(s, o, msgs, id); }
      case Start(o, hash) => OtherOpenReturns(s, o, hash, id);
      case _ =>
    }
  }

  lemma OtherReturns(s: State, o: Id, msgs: set<MsgId>, id: Id)
    requires Inv(s) && o in s.calls && o != id
    ensures var t := AdvanceCall(s, o, msgs);
            && (id in t.returned <==> id in s.returned)
            && (id in t.markers ==> id in s.markers && t.markers[id] == s.markers[id])
  {
    assert CallKnows(s, o);
    if Finishes(s.calls[o].pc) {
      FinishFrame(s, o);
      FinishReturns(s, o);
    } else {
      AcceptFrame(s, o, msgs);
      AcceptReturns(s, o, msgs);
    }
    hide Inv, CallKnows, Accept, Finish, OnlyCalls;
  }

  lemma FinishReturns(s: State, o: Id)
    requires o in s.calls && Finishes(s.calls[o].pc)
    ensures Finish(s, o).returned == s.returned
            || ((s.calls[o].pc == FinishOwned || s.calls[o].pc == FinishTerminal) && Finish(s, o).returned == s.returned + {o})
  {
    hide HeldFor, QueuedFor;
    match s.calls[o].pc
    case FinishUnowned => if o.job in s.jobs && s.jobs[o.job].terminal {} else {}
    case Finishing =>
    case FinishSawChunk(own) =>
    case FinishOwned =>
    case FinishTerminal =>
  }

  lemma AcceptReturns(s: State, o: Id, msgs: set<MsgId>)
    requires o in s.calls && !Finishes(s.calls[o].pc)
    ensures Accept(s, o, msgs).returned == s.returned
  {
    hide HeldFor, QueuedFor, WithoutSuperseded, WithoutQueued, Commit;
    match s.calls[o].pc
    case Ready => CommitReturns(s, o, s.calls[o].hash, msgs);
    case Bound => if o.job in s.jobs && s.jobs[o.job].gen == o.gen {} else {}
    case GenChecked =>
    case Dropped =>
    case SawChunk(own) =>
    case Owned =>
    case Unowned =>
    case Applying =>
  }

  lemma CommitReturns(s: State, o: Id, hash: Hash, msgs: set<MsgId>)
    ensures Commit(s, o, hash, msgs).returned == s.returned
  {
    hide HeldAs, WritesOf, Entered;
    if o in s.markers && s.markers[o] == Marker(hash, Pending) {} else {}
  }

  lemma OtherOpenReturns(s: State, o: Id, hash: Hash, id: Id)
    requires o != id
    ensures var t := Open(s, o, hash);
            && (id in t.returned <==> id in s.returned)
            && (id in t.markers ==> id in s.markers && t.markers[id] == s.markers[id])
  {
    if o in s.calls {
    } else if o !in s.markers {
    } else if s.markers[o].hash != hash {
    } else {
      match s.markers[o].state
      case Pending =>
      case Applied =>
      case Accepted =>
    }
  }

  lemma OwnAnswers(s: State, id: Id, msgs: set<MsgId>)
    requires Inv(s) && Answers(s, id) && id in s.calls && Durable(s, id) == Durable(AdvanceCall(s, id, msgs), id)
    requires s.calls[id].pc.Finishing? || s.calls[id].pc.FinishSawChunk? || s.calls[id].pc == FinishUnowned
    ensures Answers(AdvanceCall(s, id, msgs), id)
  {
    match s.calls[id].pc
    case Finishing => if HeldFor(s, id) { HeldIsDurable(s, id); }
    case FinishSawChunk(own) => if QueuedFor(s, id) { QueuedIsDurable(s, id); }
    case FinishUnowned => ReachedAfterBound(s, id);
    hide Inv, HeldFor, QueuedFor, Durable;
  }

  /** Leaving: the answer given is the one just established. */
  lemma OwnReturns(s: State, id: Id, msgs: set<MsgId>)
    requires Answers(s, id) && id in s.calls && Durable(AdvanceCall(s, id, msgs), id)
    requires s.calls[id].pc == FinishOwned || s.calls[id].pc == FinishTerminal
    ensures Answers(AdvanceCall(s, id, msgs), id)
  {
    hide Durable;
  }

  lemma OwnAccepts(s: State, id: Id, msgs: set<MsgId>)
    requires Answers(s, id) && id in s.calls && !Finishes(s.calls[id].pc)
    requires Durable(s, id) ==> Durable(AdvanceCall(s, id, msgs), id)
    ensures Answers(AdvanceCall(s, id, msgs), id)
  {
    AcceptReturns(s, id, msgs);
    AcceptMarks(s, id, msgs);
    hide Durable, Accept, Done;
  }

  ghost predicate StillAccepting(s: State, t: State, id: Id) {
    && (id in t.calls ==> !Finishes(t.calls[id].pc) || t.calls[id].pc == Finishing)
    && (id in t.markers && t.markers[id].state.Accepted? ==> id in s.markers && s.markers[id].state.Accepted?)
  }

  lemma CommitMarks(s: State, id: Id, hash: Hash, msgs: set<MsgId>)
    ensures StillAccepting(s, Commit(s, id, hash, msgs), id)
  {
    hide HeldAs, WritesOf, Entered;
    if id in s.markers && s.markers[id] == Marker(hash, Pending) {} else {}
  }

  lemma MoveMarks(s: State, chunk: set<Held>, id: Id, hash: Hash, pc: CallPc)
    requires !Finishes(pc)
    ensures StillAccepting(s, Goto(s.(chunk := chunk), id, hash, pc), id)
  {
  }

  /** Before the applied marker a call neither finishes nor accepts. */
  lemma AcceptMarks(s: State, id: Id, msgs: set<MsgId>)
    requires id in s.calls && !Finishes(s.calls[id].pc)
    ensures StillAccepting(s, Accept(s, id, msgs), id)
  {
    hide HeldFor, QueuedFor, WithoutSuperseded, WithoutQueued, Commit, StillAccepting;
    var hash := s.calls[id].hash;
    match s.calls[id].pc
    case Ready => CommitMarks(s, id, hash, msgs);
    case Bound =>
      if id.job in s.jobs && s.jobs[id.job].gen == id.gen { MoveMarks(s, s.chunk, id, hash, GenChecked); } else { LeaveMarks(s, id); }
    case GenChecked => MoveMarks(s, WithoutSuperseded(s, id), id, hash, Dropped);
    case Dropped => MoveMarks(s, s.chunk, id, hash, SawChunk(HeldFor(s, id)));
    case SawChunk(own) => MoveMarks(s, s.chunk, id, hash, if own || QueuedFor(s, id) then Owned else Unowned);
    case Owned => MoveMarks(s, WithoutQueued(s, id), id, hash, Applying);
    case Unowned => MoveMarks(s, s.chunk, id, hash, if id.job in s.jobs && s.jobs[id.job].terminal then Applying else Ready);
    case Applying => ApplyMarks(s, id, hash);
  }

  lemma LeaveMarks(s: State, id: Id)
    ensures StillAccepting(s, Leave(s, id), id)
  {
  }

  lemma ApplyMarks(s: State, id: Id, hash: Hash)
    ensures StillAccepting(s, Goto(s.(markers := s.markers[id := Marker(hash, Applied)]), id, hash, Finishing), id)
  {
  }

  lemma AnswersAdvance(s: State, id: Id, msgs: set<MsgId>)
    requires Inv(s) && Answers(s, id) && id in s.calls
    ensures Answers(AdvanceCall(s, id, msgs), id)
  {
    var step := Advance(id, msgs);
    assert Apply(s, step) == AdvanceCall(s, id, msgs);
    if Durable(s, id) { DurableStays(s, step, id); }
    var pc := s.calls[id].pc;
    if pc == FinishTerminal { DoneStays(s, step, id.job, id.gen); }
    if !Finishes(pc) {
      OwnAccepts(s, id, msgs);
    } else if pc == FinishOwned || pc == FinishTerminal {
      OwnReturns(s, id, msgs);
    } else {
      FinishOnlyMoves(s, id, msgs);
      OwnAnswers(s, id, msgs);
    }
    hide Inv, Durable, Done, Answers, Apply, AdvanceCall;
  }

  lemma FinishOnlyMoves(s: State, id: Id, msgs: set<MsgId>)
    requires id in s.calls && (s.calls[id].pc.Finishing? || s.calls[id].pc.FinishSawChunk? || s.calls[id].pc == FinishUnowned)
    ensures Durable(s, id) == Durable(AdvanceCall(s, id, msgs), id)
  {
    var t := AdvanceCall(s, id, msgs);
    hide HeldFor, QueuedFor, Owns;
    assert t.jobs == s.jobs && t.chunk == s.chunk && t.queue == s.queue;
    hide AdvanceCall;
    SameStoreSameDurable(s, t, id);
    SameStoreSameDurable(t, s, id);
  }

  lemma SameStoreSameDurable(s: State, t: State, id: Id)
    requires t.jobs == s.jobs && t.chunk == s.chunk && t.queue == s.queue
    ensures Durable(s, id) ==> Durable(t, id)
  {
    hide Owns;
    if Durable(s, id) && !Done(s, id.job, id.gen) {
      var w: Write :| w.job == id.job && w.gen == id.gen && Safe(s, w);
      if InQueue(s, w) {
        var k :| k in s.queue && Owns(s.queue[k].content, w);
        assert k in t.queue && Owns(t.queue[k].content, w);
      }
      assert Safe(t, w);
    }
  }

  lemma OpenCases(s: State, id: Id, hash: Hash)
    ensures var t := Open(s, id, hash);
            && (t.returned == s.returned
                || (id in s.markers && s.markers[id].state.Accepted? && t.returned == s.returned + {id}))
            && (id in t.markers && t.markers[id].state.Accepted? ==> id in s.markers && s.markers[id].state.Accepted?)
            && (id in t.calls ==> (id in s.calls && t.calls[id] == s.calls[id]) || t.calls[id].pc == Bound || t.calls[id].pc == Finishing)
  {
    if id in s.calls {
    } else if id !in s.markers {
    } else if s.markers[id].hash != hash {
    } else {
      match s.markers[id].state
      case Pending =>
      case Applied =>
      case Accepted =>
    }
  }

  lemma AnswersOpen(s: State, id: Id, hash: Hash)
    requires Inv(s) && Answers(s, id)
    ensures Answers(Open(s, id, hash), id)
  {
    var t := Open(s, id, hash);
    OpenKeeps(s, id, hash);
    OpenCases(s, id, hash);
    SameStoreSameDurable(s, t, id);
    hide Inv, Durable, Open;
  }

  lemma AnswersStep(s: State, step: Step, id: Id)
    requires Inv(s) && Answers(s, id) && Orderly(s, step)
    ensures Answers(Apply(s, step), id)
  {
    hide Inv, Answers, AdvanceCall, Open, Done, ResetAll;
    match step
    case Reset => ResetAnswers(s, id);
    case Advance(o, msgs) => if o != id { AnswersElsewhere(s, step, id); } else if id in s.calls { AnswersAdvance(s, id, msgs); }
    case Start(o, hash) => if o != id { AnswersElsewhere(s, step, id); } else { AnswersOpen(s, id, hash); }
    case Abort(o) => if o != id { AnswersElsewhere(s, step, id); } else { AnswersStop(s, Leave(s, id), id); }
    case Crash => AnswersStop(s, s.(calls := map[], workers := map[]), id);
    case _ => AnswersElsewhere(s, step, id);
  }

  /** A reset leaves every answer true exactly when it is orderly. */
  lemma ResetKeepsAnswersExactly(s: State)
    requires forall id :: Answers(s, id)
    ensures (forall id :: Answers(Apply(s, Reset), id)) <==> Orderly(s, Reset)
  {
    forall id ensures Answers(Apply(s, Reset), id) <==> (HasFound(s, id) ==> Done(s, id.job, id.gen)) {
      assert Answers(s, id);
      ResetAnswers(s, id);
    }
    hide Answers, HasFound, Done, Apply;
  }

  lemma ResetAnswers(s: State, id: Id)
    requires Answers(s, id)
    ensures Answers(ResetAll(s), id) <==> (HasFound(s, id) ==> Done(s, id.job, id.gen))
  {
    NothingStored(ResetAll(s), id);
    assert ResetAll(s).jobs == s.jobs;
    hide Durable;
  }

  lemma NothingStored(s: State, id: Id)
    requires s.chunk == {} && s.queue == map[]
    ensures Durable(s, id) <==> Done(s, id.job, id.gen)
  {
    assert forall w: Write :: !InChunk(s, w) && !InQueue(s, w);
  }

  lemma AnswersStop(s: State, t: State, id: Id)
    requires Answers(s, id) && id !in t.calls && t.returned == s.returned && t.markers == s.markers
    requires t.jobs == s.jobs && t.chunk == s.chunk && t.queue == s.queue
    ensures Answers(t, id)
  {
    SameStoreSameDurable(s, t, id);
    hide Durable;
  }

  lemma {:induction false} AnswersRun(jobs: map<JobId, Job>, steps: seq<Step>, id: Id)
    requires OrderlyRun(Initial(jobs), steps)
    ensures Answers(Run(Initial(jobs), steps), id)
  {
    hide Inv, Apply, Answers, Initial, Good, Orderly;
    if steps == [] {
      AnswersInitial(jobs, id);
    } else {
      var s := Run(Initial(jobs), steps[..|steps| - 1]);
      AnswersRun(jobs, steps[..|steps| - 1], id);
      InvOfRun(jobs, steps[..|steps| - 1]);
      AnswersStep(s, steps[|steps| - 1], id);
    }
  }

  lemma AnswersInitial(jobs: map<JobId, Job>, id: Id)
    ensures Answers(Initial(jobs), id)
  {
  }

  lemma InvOfRun(jobs: map<JobId, Job>, steps: seq<Step>)
    ensures Inv(Run(Initial(jobs), steps))
  {
    GoodRun(jobs, steps);
  }

  /** Every call that returns has left its work behind: at any later moment the job has
      its verdict, or something of the handoff is still held or queued - and that is so
      of each message it put in. */
  lemma ReturnMeansDurable(jobs: map<JobId, Job>, steps: seq<Step>, id: Id)
    requires OrderlyRun(Initial(jobs), steps)
    ensures var s := Run(Initial(jobs), steps);
            && (id in s.returned ==> Durable(s, id))
            && (forall w :: w in s.accepted && w.job == id.job && w.gen == id.gen ==> Safe(s, w))
  {
    AnswersRun(jobs, steps, id);
    GoodRun(jobs, steps);
    hide Inv, Safe, Run;
  }

  // ----- One hash per marker -----

  predicate HashKept(s: State, t: State, id: Id, hash: Hash) {
    id in t.markers ==> t.markers[id].hash == hash || (id in s.markers && t.markers[id] == s.markers[id])
  }

  lemma MoveHash(s: State, chunk: set<Held>, id: Id, hash: Hash, pc: CallPc)
    ensures HashKept(s, Goto(s.(chunk := chunk), id, hash, pc), id, hash) && HashKept(s, Leave(s, id), id, hash)
  {
  }

  lemma MarkHash(s: State, id: Id, hash: Hash, state: MarkerState, returned: set<Id>, pc: CallPc)
    ensures var t := s.(markers := s.markers[id := Marker(hash, state)]);
            && HashKept(s, Goto(t, id, hash, pc), id, hash)
            && HashKept(s, Leave(t.(returned := returned), id), id, hash)
  {
  }

  lemma FinishMarker(s: State, id: Id)
    requires id in s.calls && Finishes(s.calls[id].pc)
    ensures HashKept(s, Finish(s, id), id, s.calls[id].hash)
  {
    hide HeldFor, QueuedFor, HashKept;
    var hash := s.calls[id].hash;
    match s.calls[id].pc
    case Finishing => MoveHash(s, s.chunk, id, hash, FinishSawChunk(HeldFor(s, id)));
    case FinishSawChunk(own) => MoveHash(s, s.chunk, id, hash, if own || QueuedFor(s, id) then FinishOwned else FinishUnowned);
    case FinishUnowned =>
      if id.job in s.jobs && s.jobs[id.job].terminal { MoveHash(s, s.chunk, id, hash, FinishTerminal); } else { SelfHash(s, id, hash); }
    case FinishOwned => MarkHash(s, id, hash, MarkerState.Accepted, s.returned + {id}, Finishing);
    case FinishTerminal => DropHash(s, id, hash);
  }

  lemma SelfHash(s: State, id: Id, hash: Hash)
    ensures HashKept(s, s, id, hash)
  {
  }

  lemma DropHash(s: State, id: Id, hash: Hash)
    ensures HashKept(s, Leave(s.(markers := s.markers - {id}, returned := s.returned + {id}), id), id, hash)
  {
  }

  lemma AcceptMarker(s: State, id: Id, msgs: set<MsgId>)
    requires id in s.calls && !Finishes(s.calls[id].pc)
    ensures HashKept(s, Accept(s, id, msgs), id, s.calls[id].hash)
  {
    hide HeldFor, QueuedFor, WithoutSuperseded, WithoutQueued, Commit, HashKept;
    var hash := s.calls[id].hash;
    match s.calls[id].pc
    case Ready => CommitMarker(s, id, hash, msgs);
    case Bound => MoveHash(s, s.chunk, id, hash, GenChecked);
    case GenChecked => MoveHash(s, WithoutSuperseded(s, id), id, hash, Dropped);
    case Dropped => MoveHash(s, s.chunk, id, hash, SawChunk(HeldFor(s, id)));
    case SawChunk(own) => MoveHash(s, s.chunk, id, hash, if own || QueuedFor(s, id) then Owned else Unowned);
    case Owned => MoveHash(s, WithoutQueued(s, id), id, hash, Applying);
    case Unowned => MoveHash(s, s.chunk, id, hash, if id.job in s.jobs && s.jobs[id.job].terminal then Applying else Ready);
    case Applying => MarkHash(s, id, hash, Applied, {}, Finishing);
  }

  lemma CommitMarker(s: State, id: Id, hash: Hash, msgs: set<MsgId>)
    ensures HashKept(s, Commit(s, id, hash, msgs), id, hash)
  {
    hide HeldAs, WritesOf, Entered;
    if id in s.markers && s.markers[id] == Marker(hash, Pending) {} else {}
  }

  lemma OwnMarker(s: State, id: Id, msgs: set<MsgId>)
    requires Inv(s) && id in s.calls && id in s.markers && id in AdvanceCall(s, id, msgs).markers
    ensures AdvanceCall(s, id, msgs).markers[id].hash == s.markers[id].hash
  {
    assert CallKnows(s, id);
    hide Inv, Accept, Finish;
    if Finishes(s.calls[id].pc) { FinishMarker(s, id); } else { AcceptMarker(s, id, msgs); }
  }

  lemma OpenMarker(s: State, id: Id, hash: Hash)
    requires id in s.markers
    ensures id in Open(s, id, hash).markers && Open(s, id, hash).markers[id] == s.markers[id]
    ensures s.markers[id].hash != hash ==> Open(s, id, hash) == s
  {
    if id in s.calls {
    } else if s.markers[id].hash != hash {
    } else {
      match s.markers[id].state
      case Pending =>
      case Applied =>
      case Accepted =>
    }
  }

  lemma MarkerKeepsHash(s: State, step: Step, id: Id)
    requires Inv(s) && id in s.markers && id in Apply(s, step).markers
    ensures Apply(s, step).markers[id].hash == s.markers[id].hash
  {
    hide Inv, AdvanceCall, Open;
    match step
    case Reset =>
    case Advance(o, msgs) => if o != id { ElsewhereReturns(s, step, id); } else if id in s.calls { OwnMarker(s, id, msgs); }
    case Start(o, hash) => if o != id { ElsewhereReturns(s, step, id); } else { OpenMarker(s, id, hash); }
    case Abort(o) =>
    case Crash =>
    case _ => hide Apply; ElsewhereReturns(s, step, id);
  }

  /** A different hash is refused while the marker exists: as long as it stays stored it
      keeps the hash it was bound to, and a call with another hash changes nothing. */
  lemma {:induction false} DifferentHashRefused(s: State, steps: seq<Step>, id: Id, hash: Hash)
    requires Inv(s) && (forall i :: 0 <= i <= |steps| ==> id in Run(s, steps[..i]).markers)
    requires id in s.markers && s.markers[id].hash != hash
    ensures var t := Run(s, steps);
            id in t.markers && t.markers[id].hash == s.markers[id].hash && Apply(t, Start(id, hash)) == t
  {
    assert steps[..|steps|] == steps;
    assert id in Run(s, steps[..|steps|]).markers;
    hide Inv, Open;
    if steps != [] {
      var before := steps[..|steps| - 1];
      assert forall i :: 0 <= i <= |before| ==> before[..i] == steps[..i];
      DifferentHashRefused(s, before, id, hash);
      InvRun(s, before);
      MarkerKeepsHash(Run(s, before), steps[|steps| - 1], id);
    }
    OpenMarker(Run(s, steps), id, hash);
  }

  // ----- When a replay puts messages back -----

  /** The commit about to run will put the call's messages into the chunk. */
  predicate Puts(s: State, id: Id) {
    && id in s.calls && s.calls[id].pc == Ready
    && id in s.markers && s.markers[id] == Marker(s.calls[id].hash, Pending)
  }

  predicate Others(steps: seq<Step>, id: Id) {
    forall i :: 0 <= i < |steps| ==> !ByCall(steps[i], id)
  }

  lemma {:induction false} CallWaits(s: State, steps: seq<Step>, id: Id)
    requires Inv(s) && Others(steps, id)
    ensures var t := Run(s, steps);
            Inv(t) && (id in t.calls <==> id in s.calls) && (id in s.calls ==> t.calls[id] == s.calls[id])
  {
    hide Inv, Apply;
    if steps != [] {
      var before := steps[..|steps| - 1];
      assert forall i :: 0 <= i < |before| ==> before[i] == steps[i];
      CallWaits(s, before, id);
      InvStep(Run(s, before), steps[|steps| - 1]);
      ElsewhereCalls(Run(s, before), steps[|steps| - 1], id);
    }
  }

  lemma PutsCommits(s: State, id: Id, msgs: set<MsgId>)
    requires Puts(s, id)
    ensures AdvanceCall(s, id, msgs).chunk == s.chunk + HeldAs(id, msgs)
  {
    ReadyCommits(s, id, msgs);
    hide AdvanceCall, HeldAs, WritesOf, Entered;
  }

  /** The call makes one access after each gap; in the gaps anything else may happen. */
  function Accesses(s: State, id: Id, gaps: seq<seq<Step>>): State
    decreases |gaps|, 0
  {
    if gaps == [] then s else Apply(Meets(s, id, gaps, |gaps| - 1), Advance(id, {}))
  }

  /** What access `i` meets. */
  function Meets(s: State, id: Id, gaps: seq<seq<Step>>, i: nat): State
    requires i < |gaps|
    decreases i, 1
  {
    Run(Accesses(s, id, gaps[..i]), gaps[i])
  }

  /** Where a call that goes on to commit stands at access `i`. */
  function PcAt(i: nat): CallPc {
    if i == 0 then Bound else if i == 1 then GenChecked else if i == 2 then Dropped
    else if i == 3 then SawChunk(false) else if i == 4 then Unowned else Ready
  }

  /** Access `i` sends the call on towards its commit: the job is at its generation,
      nothing of it is held, nothing queued, and it is not terminal. */
  predicate Passes(s: State, id: Id, i: nat) {
    match i
    case 0 => id.job in s.jobs && s.jobs[id.job].gen == id.gen
    case 2 => !HeldFor(s, id)
    case 3 => !QueuedFor(s, id)
    case 4 => !(id.job in s.jobs && s.jobs[id.job].terminal)
    case _ => true
  }

  /** The call has ended, or will end without a commit. */
  predicate Off(s: State, id: Id) {
    id in s.calls ==>
      var pc := s.calls[id].pc; pc == SawChunk(true) || pc == Owned || pc == Applying || Finishes(pc)
  }

  lemma OneAccess(s: State, id: Id, hash: Hash, i: nat)
    requires i < 5 && id in s.calls && s.calls[id] == Call(hash, PcAt(i))
    ensures var t := Apply(s, Advance(id, {}));
            if Passes(s, id, i) then id in t.calls && t.calls[id] == Call(hash, PcAt(i + 1)) else Off(t, id)
  {
    hide HeldFor, QueuedFor, WithoutSuperseded, WithoutQueued;
  }

  lemma OffStays(s: State, id: Id)
    requires Off(s, id)
    ensures Off(Apply(s, Advance(id, {})), id)
  {
    hide Accept, Finish;
    if id in s.calls && Finishes(s.calls[id].pc) {
      FinishStaysOff(s, id);
    } else if id in s.calls {
      AcceptStaysOff(s, id);
    }
  }

  lemma FinishStaysOff(s: State, id: Id)
    requires id in s.calls && Finishes(s.calls[id].pc)
    ensures Off(Finish(s, id), id)
  {
    hide HeldFor, QueuedFor;
    match s.calls[id].pc
    case FinishUnowned => if id.job in s.jobs && s.jobs[id.job].terminal {} else {}
    case Finishing =>
    case FinishSawChunk(own) =>
    case FinishOwned =>
    case FinishTerminal =>
  }

  lemma AcceptStaysOff(s: State, id: Id)
    requires Off(s, id) && id in s.calls && !Finishes(s.calls[id].pc)
    ensures Off(Accept(s, id, {}), id)
  {
    hide HeldFor, QueuedFor, WithoutQueued;
    match s.calls[id].pc
    case SawChunk(own) =>
    case Owned =>
    case Applying =>
  }

  predicate Quiet(gaps: seq<seq<Step>>, id: Id) {
    forall i :: 0 <= i < |gaps| ==> Others(gaps[i], id)
  }

  predicate PassesAll(s: State, id: Id, gaps: seq<seq<Step>>, n: nat)
    requires n <= |gaps|
  {
    forall i :: 0 <= i < n ==> Passes(Meets(s, id, gaps, i), id, i)
  }

  lemma {:induction false} MeetsNext(s: State, id: Id, gaps: seq<seq<Step>>, n: nat)
    requires n < |gaps|
    ensures Meets(s, id, gaps, n) == Run(if n == 0 then s else Apply(Meets(s, id, gaps, n - 1), Advance(id, {})), gaps[n])
  {
    hide Run, Apply;
    if n == 0 {
      assert Accesses(s, id, gaps[..0]) == s;
    } else {
      var front := gaps[..n];
      assert front[..n - 1] == gaps[..n - 1] && front[n - 1] == gaps[n - 1];
      assert Meets(s, id, front, n - 1) == Meets(s, id, gaps, n - 1);
      assert Accesses(s, id, front) == Apply(Meets(s, id, front, n - 1), Advance(id, {}));
    }
  }

  lemma PassesMore(s: State, id: Id, gaps: seq<seq<Step>>, n: nat)
    requires n < |gaps|
    ensures PassesAll(s, id, gaps, n + 1) <==> PassesAll(s, id, gaps, n) && Passes(Meets(s, id, gaps, n), id, n)
  {
    hide Meets, Passes;
  }

  lemma WaitsInGap(s: State, steps: seq<Step>, id: Id)
    requires Good(s) && Others(steps, id)
    ensures var t := Run(s, steps);
            && Good(t) && (id in t.calls <==> id in s.calls) && (id in s.calls ==> t.calls[id] == s.calls[id])
            && (Off(s, id) ==> Off(t, id))
  {
    GoodSteps(s, steps);
    CallWaits(s, steps, id);
    hide Inv, Run;
  }

  /** A call is on its way at an access exactly when every access before it passed. */
  lemma {:induction false} StaysOnItsWay(s: State, id: Id, hash: Hash, gaps: seq<seq<Step>>, n: nat)
    requires Good(s) && id in s.calls && s.calls[id] == Call(hash, Bound)
    requires Quiet(gaps, id) && n <= 5 && n < |gaps|
    ensures var t := Meets(s, id, gaps, n);
            && Good(t)
            && (if PassesAll(s, id, gaps, n) then id in t.calls && t.calls[id] == Call(hash, PcAt(n)) else Off(t, id))
  {
    assert PassesAll(s, id, gaps, 0);
    hide Good, Apply, Run, Meets, Passes, PassesAll, Off;
    assert Others(gaps[n], id);
    MeetsNext(s, id, gaps, n);
    if n == 0 {
      WaitsInGap(s, gaps[0], id);
    } else {
      StaysOnItsWay(s, id, hash, gaps, n - 1);
      PassesMore(s, id, gaps, n - 1);
      AccessInGap(Meets(s, id, gaps, n - 1), id, hash, n - 1, PassesAll(s, id, gaps, n - 1), gaps[n]);
    }
  }

  lemma AccessInGap(s: State, id: Id, hash: Hash, i: nat, onWay: bool, gap: seq<Step>)
    requires Good(s) && i < 5 && Others(gap, id)
    requires if onWay then id in s.calls && s.calls[id] == Call(hash, PcAt(i)) else Off(s, id)
    ensures var t := Run(Apply(s, Advance(id, {})), gap);
            && Good(t)
            && (if onWay && Passes(s, id, i) then id in t.calls && t.calls[id] == Call(hash, PcAt(i + 1)) else Off(t, id))
  {
    hide Good, Apply, Run, Passes, Off, Others;
    GoodStep(s, Advance(id, {}));
    if onWay { OneAccess(s, id, hash, i); } else { OffStays(s, id); }
    WaitsInGap(Apply(s, Advance(id, {})), gap, id);
  }

  lemma {:induction false} StaysOff(s: State, id: Id, gaps: seq<seq<Step>>, n: nat)
    requires Good(s) && Off(s, id) && Quiet(gaps, id) && n < |gaps|
    ensures Good(Meets(s, id, gaps, n)) && Off(Meets(s, id, gaps, n), id)
  {
    hide Good, Apply, Run, Meets, Off;
    assert Others(gaps[n], id);
    MeetsNext(s, id, gaps, n);
    if n == 0 {
      WaitsInGap(s, gaps[0], id);
    } else {
      StaysOff(s, id, gaps, n - 1);
      var t := Meets(s, id, gaps, n - 1);
      GoodStep(t, Advance(id, {}));
      OffStays(t, id);
      WaitsInGap(Apply(t, Advance(id, {})), gaps[n], id);
    }
  }

  /** The marker lets a call with this hash in, and no earlier call has applied it. */
  predicate Unapplied(s: State, id: Id, hash: Hash) {
    id in s.markers ==> s.markers[id] == Marker(hash, Pending)
  }

  lemma StartsOnItsWay(s: State, id: Id, hash: Hash)
    requires id !in s.calls
    ensures var t := Apply(s, Start(id, hash));
            if Unapplied(s, id, hash) then id in t.calls && t.calls[id] == Call(hash, Bound) else Off(t, id)
  {
  }

  /** A replay, from its start, makes five accesses before its commit, and anything else -
      reopenings, drains, repairs, prunes, resets - may happen before each and before the
      commit. It puts its messages into the chunk exactly when the marker lets it in, all
      five accesses pass - each judged on what it meets at its own moment - and the marker
      is still pending when it commits. If the handoff had entered before, the job was
      then reopened past its generation after the first access. */
  lemma ReplayReentersExactly(jobs: map<JobId, Job>, before: seq<Step>, id: Id, hash: Hash, gaps: seq<seq<Step>>, msgs: set<MsgId>)
    requires var s := Run(Initial(jobs), before); id !in s.calls
    requires |gaps| == 6 && Quiet(gaps, id)
    ensures var s := Run(Initial(jobs), before);
            var start := Apply(s, Start(id, hash));
            var last := Meets(start, id, gaps, 5);
            && (Puts(last, id) <==>
                  && Unapplied(s, id, hash) && PassesAll(start, id, gaps, 5)
                  && id in last.markers && last.markers[id] == Marker(hash, Pending))
            && (Puts(last, id) ==> Apply(last, Advance(id, msgs)).chunk == last.chunk + HeldAs(id, msgs))
            && (Puts(last, id) && Entered(last, id) >= 1 ==>
                  var first := Meets(start, id, gaps, 0);
                  && id.job in first.jobs && first.jobs[id.job].gen == id.gen
                  && id.job in last.jobs && last.jobs[id.job].gen > id.gen)
  {
    var s := Run(Initial(jobs), before);
    var start := Apply(s, Start(id, hash));
    GoodRun(jobs, before);
    GoodStep(s, Start(id, hash));
    StartsOnItsWay(s, id, hash);
    hide Run, Apply, Meets, Good;
    if Unapplied(s, id, hash) {
      StaysOnItsWay(start, id, hash, gaps, 5);
    } else {
      StaysOff(start, id, gaps, 5);
    }
    var last := Meets(start, id, gaps, 5);
    if Puts(last, id) {
      ThenPuts(last, id, msgs);
      assert Passes(Meets(start, id, gaps, 0), id, 0);
    }
  }

  lemma ThenPuts(s: State, id: Id, msgs: set<MsgId>)
    requires Good(s) && Puts(s, id)
    ensures Apply(s, Advance(id, msgs)).chunk == s.chunk + HeldAs(id, msgs)
    ensures Entered(s, id) >= 1 ==> id.job in s.jobs && s.jobs[id.job].gen > id.gen
  {
    PutsCommits(s, id, msgs);
    assert Once(s, id);
    hide Inv, AdvanceCall, HeldAs;
  }

  /** Whatever the run: a call about to commit a second entry has been overtaken. */
  lemma SecondEntryIsOvertaken(jobs: map<JobId, Job>, steps: seq<Step>, id: Id)
    ensures var s := Run(Initial(jobs), steps);
            Entered(s, id) >= 1 && Puts(s, id) ==> id.job in s.jobs && s.jobs[id.job].gen > id.gen
  {
    GoodRun(jobs, steps);
    assert Once(Run(Initial(jobs), steps), id);
    hide Inv, Run;
  }

  // ----- When a reset takes an acknowledgement's ground away -----

  /** The step gives the handoff's job its verdict, or brings something of it back. */
  predicate Renews(s: State, step: Step, id: Id) {
    match step
    case Jobs(jobs) => Done(EvolveJobs(s, jobs), id.job, id.gen)
    case AddOther(items) =>
      && (forall m :: m in items ==> !m.settled)
      && exists m :: m in items && m.job == Some(id.job) && m.gen == id.gen
    case Put(worker, _) =>
      && worker in s.workers && s.workers[worker].pc.Current?
      && s.workers[worker].entry.content.gen == id.gen && id.job in JobsOf(s.workers[worker].entry.content)
    case _ => false
  }

  lemma RenewedIsDurable(s: State, step: Step, id: Id)
    requires Renews(s, step, id)
    ensures Durable(Apply(s, step), id)
  {
    var t := Apply(s, step);
    match step
    case Jobs(jobs) =>
    case AddOther(items) =>
      var m :| m in items && m.job == Some(id.job) && m.gen == id.gen;
      assert InChunk(t, Write(id.job, id.gen, m.msg));
    case Put(worker, phase) =>
      var c := s.workers[worker].entry.content;
      var m :| m in c.owners && c.owners[m] == id.job;
      assert Owns(t.queue[s.workers[worker].key].content, Write(id.job, id.gen, m));
      assert InQueue(t, Write(id.job, id.gen, m));
  }

  /** Ground for the acknowledgement: a verdict, something held, or something queued. */
  lemma DurableExactly(s: State, id: Id)
    requires Inv(s)
    ensures Durable(s, id) <==> Done(s, id.job, id.gen) || HeldFor(s, id) || QueuedFor(s, id)
  {
    if HeldFor(s, id) { HeldIsDurable(s, id); }
    if QueuedFor(s, id) { QueuedIsDurable(s, id); }
    hide Inv;
  }

  lemma FireHolds(s: State, batches: map<Key, Content>, id: Id)
    requires QueuedFor(FireChunk(s, batches), id)
    ensures HeldFor(s, id) || QueuedFor(s, id)
  {
    var t := FireChunk(s, batches);
    var k :| k in t.queue && t.queue[k].content.gen == id.gen && id.job in JobsOf(t.queue[k].content);
    var m :| m in t.queue[k].content.owners && t.queue[k].content.owners[m] == id.job;
    if k in batches && TakesOver(s, batches) {
      assert m in batches[k].owners;
    } else {
      assert k in s.queue;
    }
  }

  lemma SplitHolds(s: State, worker: nat, children: map<Key, Content>, id: Id)
    requires Inv(s) && QueuedFor(SplitEntry(s, worker, children), id)
    ensures QueuedFor(s, id)
  {
    if MaySplit(s, worker, children) && s.workers[worker].key in s.queue {
      var key, parent := s.workers[worker].key, s.workers[worker].entry.content;
      assert s.queue[key].content == parent;
      hide Inv;
      var t := SplitEntry(s, worker, children);
      var k :| k in t.queue && t.queue[k].content.gen == id.gen && id.job in JobsOf(t.queue[k].content);
      if k in children && t.queue[k].content == children[k] {
        ChildOwns(s, parent, children, k, id.job);
      } else {
        assert k in s.queue && s.queue[k] == t.queue[k];
      }
    } else {
      assert SplitEntry(s, worker, children).queue == s.queue;
    }
  }

  lemma ChildOwns(s: State, parent: Content, children: map<Key, Content>, k: Key, job: JobId)
    requires Divides(s, parent, children) && k in children && job in JobsOf(children[k])
    ensures children[k].gen == parent.gen && job in JobsOf(parent)
  {
    var m :| m in children[k].owners && children[k].owners[m] == job;
    assert m in parent.owners && parent.owners[m] == job;
  }

  /** A call adds to the chunk at its commit only, and its own messages. */
  lemma AcceptAdds(s: State, o: Id, msgs: set<MsgId>)
    requires o in s.calls && !Finishes(s.calls[o].pc)
    ensures Accept(s, o, msgs).chunk <= s.chunk + HeldAs(o, msgs)
  {
    hide HeldAs, HeldFor, QueuedFor, WithoutSuperseded, WithoutQueued, Commit;
    match s.calls[o].pc
    case Ready => CommitAdds(s, o, s.calls[o].hash, msgs);
    case Bound => if o.job in s.jobs && s.jobs[o.job].gen == o.gen {} else {}
    case GenChecked =>
    case Dropped =>
    case SawChunk(own) =>
    case Owned =>
    case Unowned =>
    case Applying =>
  }

  lemma CommitAdds(s: State, o: Id, hash: Hash, msgs: set<MsgId>)
    ensures Commit(s, o, hash, msgs).chunk <= s.chunk + HeldAs(o, msgs)
  {
    hide HeldAs, WritesOf, Entered;
    if o in s.markers && s.markers[o] == Marker(hash, Pending) {} else {}
  }

  /** Nothing speaks for the handoff. */
  predicate Bare(s: State, id: Id) {
    !Done(s, id.job, id.gen) && !HeldFor(s, id) && !QueuedFor(s, id)
  }

  lemma StaysBare(s: State, t: State, id: Id)
    requires Bare(s, id) && t.jobs == s.jobs && t.chunk == s.chunk && t.queue == s.queue
    ensures Bare(t, id)
  {
  }

  lemma AdvanceStaysBare(s: State, o: Id, msgs: set<MsgId>, id: Id)
    requires Inv(s) && o in s.calls && o != id && Bare(s, id)
    ensures Bare(AdvanceCall(s, o, msgs), id)
  {
    AdvanceFrame(s, o, msgs);
    if Finishes(s.calls[o].pc) { FinishChunk(s, o); } else { AcceptAdds(s, o, msgs); }
    hide Inv, Accept, Finish;
    assert forall m :: m in HeldAs(o, msgs) ==> !(m.job == Some(id.job) && m.gen == id.gen);
  }

  lemma PutStaysBare(s: State, worker: nat, phase: Phase, id: Id)
    requires Bare(s, id) && !Renews(s, Put(worker, phase), id)
    ensures Bare(PutEntry(s, worker, phase), id)
  {
    var t := PutEntry(s, worker, phase);
    hide JobsOf;
    assert t.jobs == s.jobs && t.chunk == s.chunk;
    forall k | k in t.queue ensures !(t.queue[k].content.gen == id.gen && id.job in JobsOf(t.queue[k].content)) {
      assert (k in s.queue && t.queue[k] == s.queue[k]) || worker in s.workers;
    }
  }

  /** A finalized entry leaves settled copies only, and only of finished jobs. */
  lemma FinalizeStaysBare(s: State, worker: nat, restored: set<MsgId>, id: Id)
    requires Bare(s, id) && SettledAreDone(FinalizeEntry(s, worker, restored))
    ensures Bare(FinalizeEntry(s, worker, restored), id)
  {
    var t := FinalizeEntry(s, worker, restored);
    hide JobsOf, MarkersOf;
    assert t.jobs == s.jobs && forall m :: m in t.chunk && m !in s.chunk ==> m.settled;
  }

  lemma AddStaysBare(s: State, items: set<Held>, id: Id)
    requires Bare(s, id) && !Renews(s, AddOther(items), id)
    ensures Bare(AddHeld(s, items), id)
  {
    var t := AddHeld(s, items);
    hide QueuedFor, TaggedWrites;
    assert t.jobs == s.jobs && t.queue == s.queue;
    assert QueuedFor(t, id) == QueuedFor(s, id) by { QueuedByQueue(s, t, id); }
    if exists m :: m in items && m.settled {
      assert t == s;
    } else {
      assert t.chunk == s.chunk + items;
    }
  }

  lemma QueuedByQueue(s: State, t: State, id: Id)
    requires t.queue == s.queue
    ensures QueuedFor(t, id) == QueuedFor(s, id)
  {
  }

  lemma FireStaysBare(s: State, batches: map<Key, Content>, id: Id)
    requires Bare(s, id)
    ensures Bare(FireChunk(s, batches), id)
  {
    var t := FireChunk(s, batches);
    if QueuedFor(t, id) { FireHolds(s, batches, id); }
    hide TakesOver, QueuedFor;
  }

  lemma SplitStaysBare(s: State, worker: nat, children: map<Key, Content>, id: Id)
    requires Inv(s) && Bare(s, id)
    ensures Bare(SplitEntry(s, worker, children), id)
  {
    if QueuedFor(SplitEntry(s, worker, children), id) { SplitHolds(s, worker, children, id); }
    hide Inv, MaySplit, QueuedFor;
  }

  lemma OpenStaysBare(s: State, o: Id, hash: Hash, id: Id)
    requires Bare(s, id)
    ensures Bare(Open(s, o, hash), id)
  {
    OpenKeeps(s, o, hash);
    hide Bare, Open;
    StaysBare(s, Open(s, o, hash), id);
  }

  /** Without a step that renews, nothing stored comes to speak for the handoff. */
  lemma NothingRenews(s: State, step: Step, id: Id)
    requires Inv(s) && !step.Reset? && !ByCall(step, id) && !Renews(s, step, id) && Bare(s, id)
    ensures Bare(Apply(s, step), id)
  {
    InvStep(s, step);
    var t := Apply(s, step);
    assert SettledAreDone(t);
    hide Inv, Bare, AddHeld, FireChunk, Open, AdvanceCall, TakeEntry, SplitEntry, CheckEntry, VerifyJob, PutEntry, FinalizeEntry, SettledAreDone;
    match step
    case Jobs(jobs) => JobsStayBare(s, jobs, id);
    case AddOther(items) => AddStaysBare(s, items, id);
    case Fire(batches) => FireStaysBare(s, batches, id);
    case Split(worker, children) => SplitStaysBare(s, worker, children, id);
    case Advance(o, msgs) => if o in s.calls { AdvanceStaysBare(s, o, msgs, id); }
    case Start(o, hash) => OpenStaysBare(s, o, hash, id);
    case Put(worker, phase) => PutStaysBare(s, worker, phase, id);
    case Finalize(worker, restored) => FinalizeStaysBare(s, worker, restored, id);
    case Take(_, _) => LooksOnly(s, step); StaysBare(s, t, id);
    case CheckRepairs(_, _) => LooksOnly(s, step); StaysBare(s, t, id);
    case Verify(_, _) => LooksOnly(s, step); StaysBare(s, t, id);
    case _ => StaysBare(s, t, id);
  }

  lemma LooksOnly(s: State, step: Step)
    requires step.Take? || step.CheckRepairs? || step.Verify?
    ensures var t := Apply(s, step); t.jobs == s.jobs && t.chunk == s.chunk && t.queue == s.queue
  {
    hide CheckEntry, JobsOf;
    match step
    case Take(_, _) =>
    case CheckRepairs(worker, seen) => ChecksLeave(s, worker, seen);
    case Verify(_, _) =>
  }

  lemma JobsStayBare(s: State, jobs: map<JobId, Job>, id: Id)
    requires Bare(s, id) && !Renews(s, Jobs(jobs), id)
    ensures Bare(EvolveJobs(s, jobs), id)
  {
    hide Evolves;
  }

  /** Between a reset and the acknowledgement, the ground is regained by such a step only
      - and kept once regained. */
  lemma StepRenewsExactly(s: State, step: Step, id: Id)
    requires Inv(s) && !step.Reset? && !ByCall(step, id)
    ensures Durable(Apply(s, step), id) <==> Durable(s, id) || Renews(s, step, id)
  {
    hide Inv, Durable, Apply, Renews, Done, HeldFor, QueuedFor;
    if Durable(s, id) {
      DurableStays(s, step, id);
    } else if Renews(s, step, id) {
      RenewedIsDurable(s, step, id);
    } else {
      DurableExactly(s, id);
      NothingRenews(s, step, id);
      InvStep(s, step);
      DurableExactly(Apply(s, step), id);
    }
  }

  ghost predicate RenewedIn(s: State, steps: seq<Step>, id: Id) {
    exists i :: 0 <= i < |steps| && Renews(Run(s, steps[..i]), steps[i], id)
  }

  lemma RenewedMore(s: State, steps: seq<Step>, id: Id)
    requires steps != []
    ensures var front := steps[..|steps| - 1];
            RenewedIn(s, steps, id) <==> RenewedIn(s, front, id) || Renews(Run(s, front), steps[|steps| - 1], id)
  {
    hide Run, Renews;
    var n := |steps| - 1;
    var front := steps[..n];
    assert forall i :: 0 <= i < n ==> front[..i] == steps[..i] && front[i] == steps[i];
    if RenewedIn(s, front, id) {
      var i :| 0 <= i < n && Renews(Run(s, front[..i]), front[i], id);
      assert Renews(Run(s, steps[..i]), steps[i], id);
    }
    if RenewedIn(s, steps, id) {
      var i :| 0 <= i < n + 1 && Renews(Run(s, steps[..i]), steps[i], id);
      assert i < n ==> Renews(Run(s, front[..i]), front[i], id);
    }
  }

  lemma {:induction false} RunRenewsExactly(s: State, steps: seq<Step>, id: Id)
    requires Inv(s) && Others(steps, id) && NoReset(steps)
    ensures Durable(Run(s, steps), id) <==> Durable(s, id) || RenewedIn(s, steps, id)
  {
    hide Inv, Durable, Apply, Renews;
    if steps == [] {
    } else {
      var front := steps[..|steps| - 1];
      assert forall i :: 0 <= i < |front| ==> front[i] == steps[i];
      RunRenewsExactly(s, front, id);
      CallWaits(s, front, id);
      StepRenewsExactly(Run(s, front), steps[|steps| - 1], id);
      RenewedMore(s, steps, id);
    }
  }

  /** A call that has found its work acknowledges it even if a reset comes in between,
      and whatever else does. Its acknowledgement is then durable exactly when the job had
      its verdict for that generation as the reset came, or a step since then gave the
      verdict or brought something of the handoff back: other work saved under the job,
      or an entry a worker had read before the reset and put back after it. */
  lemma ResetUnderHandoffExactly(s: State, id: Id, others: seq<Step>)
    requires Inv(s) && id in s.calls && s.calls[id].pc == FinishOwned
    requires Others(others, id) && NoReset(others)
    ensures var mid := Run(Apply(s, Reset), others);
            var t := Apply(mid, Advance(id, {}));
            id in t.returned && (Durable(t, id) <==> Done(s, id.job, id.gen) || RenewedIn(Apply(s, Reset), others, id))
  {
    var r := Apply(s, Reset);
    InvStep(s, Reset);
    NothingStored(r, id);
    assert Done(r, id.job, id.gen) == Done(s, id.job, id.gen) && r.calls == s.calls;
    hide Inv, Apply, Run, RenewedIn, Durable;
    CallWaits(r, others, id);
    RunRenewsExactly(r, others, id);
    AcknowledgesAnyway(Run(r, others), id);
  }

  lemma AcknowledgesAnyway(s: State, id: Id)
    requires id in s.calls && s.calls[id].pc == FinishOwned
    ensures var t := Apply(s, Advance(id, {})); id in t.returned && (Durable(t, id) <==> Durable(s, id))
  {
    var t := AdvanceCall(s, id, {});
    OwnedLeaves(s, id);
    hide AdvanceCall;
    assert forall w: Write :: Safe(t, w) <==> Safe(s, w);
  }

  lemma OwnedLeaves(s: State, id: Id)
    requires id in s.calls && s.calls[id].pc == FinishOwned
    ensures var t := AdvanceCall(s, id, {});
            id in t.returned && t.jobs == s.jobs && t.chunk == s.chunk && t.queue == s.queue
  {
  }

  // ----- The conditions are needed -----

  lemma Extend(s: State, steps: seq<Step>, step: Step) returns (longer: seq<Step>)
    ensures longer == steps + [step] && Run(s, longer) == Apply(Run(s, steps), step)
  {
    longer := steps + [step];
    assert longer[..|steps|] == steps;
  }

  const SOME_ID := Id("job", 0)
  const SOME_HELD := Held("m", Some("job"), 0, false)
  const SOME_WRITE := Write("job", 0, "m")
  const SOME_CONTENT := Content(0, map["m" := "job"], {}, false)
  const START := Initial(map["job" := Job(0, false)])

  /** One message accepted, the marker applied, the call gone on to finish. */
  function AcceptedState(calls: map<Id, Call>): State {
    State(START.jobs, {SOME_HELD}, map[], map[SOME_ID := Marker("h", Applied)], calls, map[], map[], {SOME_WRITE},
          map[SOME_ID := 1], {})
  }

  /** A handoff of the job at a store that holds nothing of it, at one of its accesses. */
  function AtAccess(base: State, pc: CallPc): State {
    base.(markers := map[SOME_ID := Marker("h", Pending)], calls := map[SOME_ID := Call("h", pc)])
  }

  predicate IsBase(base: State) {
    base.chunk == {} && base.queue == map[] && "job" in base.jobs && base.jobs["job"].gen == 0
    && base.markers == map[] && base.calls == map[]
  }

  lemma WalkOne(base: State, pc: CallPc, next: CallPc)
    requires IsBase(base)
    requires (pc == Bound && next == GenChecked) || (pc == GenChecked && next == Dropped)
             || (pc == Dropped && next == SawChunk(false)) || (pc == SawChunk(false) && next == Unowned)
    ensures Apply(AtAccess(base, pc), Advance(SOME_ID, {})) == AtAccess(base, next)
  {
    var s := AtAccess(base, pc);
    if pc == GenChecked {
      assert WithoutSuperseded(s, SOME_ID) == {};
    } else if pc == SawChunk(false) {
      assert !QueuedFor(s, SOME_ID);
    } else {
    }
    hide QueuedFor, WithoutSuperseded;
  }

  /** From the start of a call to its terminal read. */
  lemma WalkToUnowned(base: State, steps: seq<Step>) returns (p: seq<Step>)
    requires IsBase(base) && Run(START, steps) == base
    ensures Run(START, p) == AtAccess(base, Unowned)
  {
    hide Run;
    p := Extend(START, steps, Start(SOME_ID, "h"));
    assert Run(START, p) == AtAccess(base, Bound);
    hide Apply;
    p := Extend(START, p, Advance(SOME_ID, {}));
    WalkOne(base, Bound, GenChecked);
    p := Extend(START, p, Advance(SOME_ID, {}));
    WalkOne(base, GenChecked, Dropped);
    p := Extend(START, p, Advance(SOME_ID, {}));
    WalkOne(base, Dropped, SawChunk(false));
    p := Extend(START, p, Advance(SOME_ID, {}));
    WalkOne(base, SawChunk(false), Unowned);
  }

  lemma ReachReady() returns (p: seq<Step>)
    ensures Run(START, p) == AtAccess(START, Ready)
  {
    assert Run(START, []) == START;
    p := WalkToUnowned(START, []);
    hide Run;
    p := Extend(START, p, Advance(SOME_ID, {}));
    assert Run(START, p) == AtAccess(START, Ready);
  }

  lemma ReachAccepted() returns (p: seq<Step>)
    ensures Run(START, p) == AcceptedState(map[SOME_ID := Call("h", Finishing)])
  {
    p := ReachReady();
    hide Run;
    var ready := AtAccess(START, Ready);
    p := Extend(START, p, Advance(SOME_ID, {"m"}));
    FirstCommit(ready);
    p := Extend(START, p, Advance(SOME_ID, {}));
    assert Run(START, p) == AcceptedState(map[SOME_ID := Call("h", Finishing)]);
  }

  lemma FirstCommit(ready: State)
    requires ready == AtAccess(START, Ready)
    ensures Apply(ready, Advance(SOME_ID, {"m"})) == AcceptedState(map[SOME_ID := Call("h", Applying)])
  {
    ReadyCommits(ready, SOME_ID, {"m"});
    assert {} + HeldAs(SOME_ID, {"m"}) == {SOME_HELD} && {} + WritesOf(SOME_ID, {"m"}) == {SOME_WRITE};
    hide AdvanceCall;
  }

  /** Fired, taken, checked, verified terminal, finalized. */
  const SPENT := State(map["job" := Job(0, true)], {}, map[], map[], map[], map[], map[0 := SOME_CONTENT], {SOME_WRITE},
                       map[SOME_ID := 1], {})

  function QueuedState(workers: map<nat, Worker>, terminal: bool): State {
    State(map["job" := Job(0, terminal)], {}, map[0 := Entry(SOME_CONTENT, Working)], map[SOME_ID := Marker("h", Applied)],
          map[], workers, map[0 := SOME_CONTENT], {SOME_WRITE}, map[SOME_ID := 1], {})
  }

  lemma ReachQueued() returns (p: seq<Step>)
    ensures Run(START, p) == QueuedState(map[], false)
  {
    p := ReachAccepted();
    hide Run;
    p := Extend(START, p, Abort(SOME_ID));
    assert Run(START, p) == AcceptedState(map[]);
    p := Extend(START, p, Fire(map[0 := SOME_CONTENT]));
    FireAccepted();
  }

  lemma FireAccepted()
    ensures Apply(AcceptedState(map[]), Fire(map[0 := SOME_CONTENT])) == QueuedState(map[], false)
  {
    var accepted := AcceptedState(map[]);
    var batches := map[0 := SOME_CONTENT];
    assert TakesOver(accepted, batches) by {
      assert Owns(batches[0], SOME_WRITE);
    }
    assert Entries(batches, Working) == map[0 := Entry(SOME_CONTENT, Working)];
    hide TakesOver, Entries;
  }

  lemma SomeJobs()
    ensures JobsOf(SOME_CONTENT) == {"job"}
  {
    assert SOME_CONTENT.owners["m"] == "job";
    assert forall j :: j in JobsOf(SOME_CONTENT) ==> j == "job";
  }

  lemma ReachSpent() returns (p: seq<Step>)
    ensures Run(START, p) == SPENT
  {
    p := ReachQueued();
    hide Run;
    SomeJobs();
    var e := Entry(SOME_CONTENT, Working);
    p := Extend(START, p, Take(0, 0));
    assert Run(START, p) == QueuedState(map[0 := Worker(0, e, Taken)], false);
    p := Extend(START, p, CheckRepairs(0, map["job" := 0]));
    assert Run(START, p) == QueuedState(map[0 := Worker(0, e, Current({}))], false);
    p := Extend(START, p, Jobs(map["job" := Job(0, true)]));
    assert Run(START, p) == QueuedState(map[0 := Worker(0, e, Current({}))], true);
    p := Settle(p);
  }

  lemma Settle(steps: seq<Step>) returns (p: seq<Step>)
    requires Run(START, steps) == QueuedState(map[0 := Worker(0, Entry(SOME_CONTENT, Working), Current({}))], true)
    ensures Run(START, p) == SPENT
  {
    hide Run;
    SomeJobs();
    var e := Entry(SOME_CONTENT, Working);
    p := Extend(START, steps, Verify(0, "job"));
    assert {} + {"job"} == {"job"};
    assert Run(START, p) == QueuedState(map[0 := Worker(0, e, Current({"job"}))], true);
    p := Extend(START, p, Finalize(0, {}));
    var w := Worker(0, e, Current({"job"}));
    assert RescuedFrom(w, {}) == {} && SOME_ID in MarkersOf(SOME_CONTENT);
    assert Run(START, p) == SPENT;
  }

  /** Counting entries at the current generation is essential: a replay that passes the
      generation check just before the job is reopened puts its messages into the chunk
      again, under the generation the reopening has superseded. */
  lemma StaleReplayReenters()
    ensures exists before, after ::
              var s, t := Run(START, before), Run(START, before + after);
              && SOME_WRITE in s.accepted && !InChunk(s, SOME_WRITE) && !InQueue(s, SOME_WRITE)
              && InChunk(t, SOME_WRITE) && t.jobs == map["job" := Job(1, false)]
  {
    var before := ReachSpent();
    hide Run;
    before := WalkToUnowned(SPENT, before);
    var p := ReopenAndCommit(before);
    var after := [Jobs(map["job" := Job(1, false)]), Advance(SOME_ID, {}), Advance(SOME_ID, {"m"})];
    assert p == before + after;
    var s := Run(START, before);
    assert SOME_WRITE in s.accepted && !InChunk(s, SOME_WRITE) && !InQueue(s, SOME_WRITE);
  }

  lemma ReopenAndCommit(before: seq<Step>) returns (p: seq<Step>)
    requires Run(START, before) == AtAccess(SPENT, Unowned)
    ensures p == before + [Jobs(map["job" := Job(1, false)]), Advance(SOME_ID, {}), Advance(SOME_ID, {"m"})]
    ensures InChunk(Run(START, p), SOME_WRITE) && Run(START, p).jobs == map["job" := Job(1, false)]
  {
    hide Run;
    hide AdvanceCall;
    var reopened := SPENT.(jobs := map["job" := Job(1, false)]);
    p := Extend(START, before, Jobs(reopened.jobs));
    assert Run(START, p) == AtAccess(reopened, Unowned);
    p := Extend(START, p, Advance(SOME_ID, {}));
    ChecksReopened(reopened);
    p := Extend(START, p, Advance(SOME_ID, {"m"}));
    CommitsReady(reopened);
  }

  lemma ChecksReopened(reopened: State)
    requires reopened == SPENT.(jobs := map["job" := Job(1, false)])
    ensures Apply(AtAccess(reopened, Unowned), Advance(SOME_ID, {})) == AtAccess(reopened, Ready)
  {
  }

  lemma CommitsReady(reopened: State)
    requires reopened == SPENT.(jobs := map["job" := Job(1, false)])
    ensures var t := Apply(AtAccess(reopened, Ready), Advance(SOME_ID, {"m"}));
            InChunk(t, SOME_WRITE) && t.jobs == reopened.jobs
  {
    var ready := AtAccess(reopened, Ready);
    hide AdvanceCall;
    PutsCommits(ready, SOME_ID, {"m"});
    CommitKeepsJobs(ready, SOME_ID, "h", {"m"});
    assert SOME_HELD in HeldAs(SOME_ID, {"m"});
  }

  lemma CommitKeepsJobs(s: State, id: Id, hash: Hash, msgs: set<MsgId>)
    requires Puts(s, id) && s.calls[id].hash == hash
    ensures AdvanceCall(s, id, msgs).jobs == s.jobs
  {
    ReadyCommits(s, id, msgs);
    hide AdvanceCall, HeldAs, WritesOf, Entered;
  }

  /** So is an orderly run: a reset that overtakes a call about to acknowledge lets it
      return with nothing behind it. */
  lemma ResetUnderHandoffLosesIt()
    ensures exists steps :: var t := Run(START, steps); SOME_ID in t.returned && !Durable(t, SOME_ID)
  {
    var p := ReachAccepted();
    hide Run;
    p := Extend(START, p, Advance(SOME_ID, {}));
    assert SOME_HELD.job == Some("job");
    assert Run(START, p) == AcceptedState(map[SOME_ID := Call("h", FinishSawChunk(true))]);
    p := Extend(START, p, Advance(SOME_ID, {}));
    var s := AcceptedState(map[SOME_ID := Call("h", FinishOwned)]);
    assert Run(START, p) == s;
    p := Extend(START, p, Reset);
    p := Extend(START, p, Advance(SOME_ID, {}));
    hide Apply;
    LosesWithoutVerdict(s);
  }

  lemma LosesWithoutVerdict(s: State)
    requires s == AcceptedState(map[SOME_ID := Call("h", FinishOwned)])
    ensures var t := Apply(Apply(s, Reset), Advance(SOME_ID, {})); SOME_ID in t.returned && !Durable(t, SOME_ID)
  {
    var r := Apply(s, Reset);
    AcknowledgesAnyway(r, SOME_ID);
    NothingStored(r, SOME_ID);
    hide Durable;
  }
}

/** What every interleaving of handoffs, workers, crashes and repairs keeps. */
module HandoffSafety {
  import opened Wrappers
  import opened Handoff

  // ----- The invariant -----

  ghost predicate Books(s: State) {
    && (forall k :: k in s.queue ==> k in s.book && s.queue[k].content == s.book[k])
    && (forall w :: w in s.workers ==> s.workers[w].key in s.book && s.workers[w].entry.content == s.book[s.workers[w].key])
  }

  ghost predicate SettledAreDone(s: State) {
    forall m :: m in s.chunk && m.settled && m.job.Some? ==> Done(s, m.job.value, m.gen)
  }

  ghost predicate WorkerKnows(s: State, w: Worker) {
    var c := w.entry.content;
    && (w.pc.Superseded? ==> forall j :: j in JobsOf(c) ==> Done(s, j, c.gen))
    && (w.pc.Current? ==>
          && (forall j :: j in JobsOf(c) ==> j in s.jobs && s.jobs[j].gen >= c.gen)
          && (forall j :: j in w.pc.verified ==> Done(s, j, c.gen)))
  }

  ghost predicate WorkersKnow(s: State) {
    forall w :: w in s.workers ==> WorkerKnows(s, s.workers[w])
  }

  predicate Reached(s: State, id: Id) {
    id.job in s.jobs && s.jobs[id.job].gen >= id.gen
  }

  /** Past the generation check, the job has reached the handoff's generation; and a
      call works under the hash its marker is bound to. */
  predicate CallKnows(s: State, id: Id) {
    && (id in s.calls && s.calls[id].pc != Bound ==> Reached(s, id))
    && (id in s.markers && s.markers[id].state != Pending ==> Reached(s, id))
    && (id in s.calls && id in s.markers ==> s.markers[id].hash == s.calls[id].hash)
  }

  ghost predicate CallsKnow(s: State) {
    forall id :: CallKnows(s, id)
  }

  ghost predicate Inv(s: State) {
    Books(s) && SettledAreDone(s) && WorkersKnow(s) && CallsKnow(s)
  }

  // ----- Steps by what they touch -----

  /** Calls leave the queue, the workers and the job rows alone, and never hold a
      settled copy. */
  ghost predicate OnlyCalls(s: State, t: State) {
    && t.jobs == s.jobs && t.queue == s.queue && t.book == s.book && t.workers == s.workers
    && (forall m :: m in t.chunk && m !in s.chunk ==> !m.settled)
  }

  ghost predicate OnlyWorkers(s: State, t: State) {
    t == s.(workers := t.workers)
  }

  /** One entry of a table was set or removed, or nothing happened. */
  predicate Touched<V(==)>(a: map<Id, V>, b: map<Id, V>, id: Id) {
    b == a || (id in b && b == a[id := b[id]]) || b == a - {id}
  }

  /** A call touches its own marker and its own place only. */
  ghost predicate SameElsewhere(s: State, t: State, id: Id) {
    Touched(s.calls, t.calls, id) && Touched(s.markers, t.markers, id)
  }

  lemma CallFrame(s: State, t: State, id: Id)
    requires CallsKnow(s) && OnlyCalls(s, t) && SameElsewhere(s, t, id) && CallKnows(t, id)
    ensures CallsKnow(t)
  {
    forall o ensures CallKnows(t, o) {
      assert CallKnows(s, o);
    }
  }

  lemma OpenFrame(s: State, id: Id, hash: Hash)
    requires CallKnows(s, id)
    ensures var t := Open(s, id, hash); OnlyCalls(s, t) && SameElsewhere(s, t, id) && CallKnows(t, id)
  {
    if id in s.calls {
    } else if id !in s.markers {
    } else if s.markers[id].hash != hash {
    } else {
      match s.markers[id].state
      case Pending =>
      case Applied =>
      case Accepted =>
    }
  }

  lemma MoveFrame(s: State, chunk: set<Held>, id: Id, pc: CallPc)
    requires id in s.calls && CallKnows(s, id) && (pc != Bound ==> Reached(s, id))
    requires forall m :: m in chunk && m !in s.chunk ==> !m.settled
    ensures var t := Goto(s.(chunk := chunk), id, s.calls[id].hash, pc);
            OnlyCalls(s, t) && SameElsewhere(s, t, id) && CallKnows(t, id)
  {
  }

  lemma MarkFrame(s: State, state: MarkerState, id: Id)
    requires id in s.calls && CallKnows(s, id) && Reached(s, id)
    ensures var t := s.(markers := s.markers[id := Marker(s.calls[id].hash, state)]);
            OnlyCalls(s, t) && SameElsewhere(s, t, id) && CallKnows(t, id)
  {
  }

  lemma CommitFrame(s: State, id: Id, hash: Hash, msgs: set<MsgId>)
    requires CallKnows(s, id) && id in s.calls && s.calls[id].hash == hash && s.calls[id].pc == Ready
    ensures var t := Commit(s, id, hash, msgs); OnlyCalls(s, t) && SameElsewhere(s, t, id) && CallKnows(t, id)
  {
    hide HeldAs, WritesOf, Entered;
    if id in s.markers && s.markers[id] == Marker(hash, Pending) {
      MoveFrame(s, s.chunk + HeldAs(id, msgs), id, Applying);
    } else {
    }
  }

  lemma AcceptFrame(s: State, id: Id, msgs: set<MsgId>)
    requires CallKnows(s, id) && id in s.calls && !Finishes(s.calls[id].pc)
    ensures var t := Accept(s, id, msgs); OnlyCalls(s, t) && SameElsewhere(s, t, id) && CallKnows(t, id)
  {
    hide HeldFor, QueuedFor, WithoutSuperseded, WithoutQueued, Commit;
    match s.calls[id].pc
    case Bound => if Reached(s, id) && s.jobs[id.job].gen == id.gen { MoveFrame(s, s.chunk, id, GenChecked); } else {}
    case GenChecked => MoveFrame(s, WithoutSuperseded(s, id), id, Dropped);
    case Dropped => MoveFrame(s, s.chunk, id, SawChunk(HeldFor(s, id)));
    case SawChunk(own) => MoveFrame(s, s.chunk, id, if own || QueuedFor(s, id) then Owned else Unowned);
    case Owned => MoveFrame(s, WithoutQueued(s, id), id, Applying);
    case Unowned => MoveFrame(s, s.chunk, id, if id.job in s.jobs && s.jobs[id.job].terminal then Applying else Ready);
    case Ready => CommitFrame(s, id, s.calls[id].hash, msgs);
    case Applying => MarkFrame(s, Applied, id);
  }

  lemma FinishFrame(s: State, id: Id)
    requires CallKnows(s, id) && id in s.calls && Finishes(s.calls[id].pc)
    ensures var t := Finish(s, id); OnlyCalls(s, t) && SameElsewhere(s, t, id) && CallKnows(t, id)
  {
    hide HeldFor, QueuedFor;
    match s.calls[id].pc
    case Finishing => MoveFrame(s, s.chunk, id, FinishSawChunk(HeldFor(s, id)));
    case FinishSawChunk(own) => MoveFrame(s, s.chunk, id, if own || QueuedFor(s, id) then FinishOwned else FinishUnowned);
    case FinishUnowned => if id.job in s.jobs && s.jobs[id.job].terminal { MoveFrame(s, s.chunk, id, FinishTerminal); } else {}
    case FinishOwned => MarkFrame(s, Accepted, id);
    case FinishTerminal =>
  }

  lemma InvCalls(s: State, t: State)
    requires Inv(s) && OnlyCalls(s, t) && CallsKnow(t)
    ensures Inv(t)
  {
    assert forall j, g :: Done(s, j, g) ==> Done(t, j, g);
    assert forall w :: w in s.workers ==> WorkerKnows(s, s.workers[w]);
    hide CallsKnow;
  }

  lemma InvWorkers(s: State, t: State)
    requires Inv(s) && OnlyWorkers(s, t)
    requires forall w :: w in t.workers && !(w in s.workers && t.workers[w] == s.workers[w]) ==>
               && t.workers[w].key in s.book && t.workers[w].entry.content == s.book[t.workers[w].key]
               && WorkerKnows(s, t.workers[w])
    ensures Inv(t)
  {
    forall w | w in t.workers ensures WorkerKnows(t, t.workers[w]) {
      assert WorkerKnows(s, t.workers[w]);
    }
    forall id ensures CallKnows(t, id) {
      assert CallKnows(s, id);
    }
  }

  // ----- Every step keeps the invariant -----

  lemma InvJobs(s: State, jobs: map<JobId, Job>)
    requires Inv(s)
    ensures Inv(EvolveJobs(s, jobs))
  {
    var t := EvolveJobs(s, jobs);
    assert forall j, g :: Done(s, j, g) ==> Done(t, j, g);
    forall id ensures CallKnows(t, id) {
      assert CallKnows(s, id);
    }
    forall w | w in t.workers ensures WorkerKnows(t, t.workers[w]) {
      assert WorkerKnows(s, s.workers[w]);
    }
  }

  lemma InvChunk(s: State, t: State)
    requires Inv(s)
    requires t.jobs == s.jobs && t.workers == s.workers && t.calls == s.calls && t.markers == s.markers
    requires Books(t) && SettledAreDone(t)
    ensures Inv(t)
  {
    hide Books, SettledAreDone;
    forall id ensures CallKnows(t, id) {
      assert CallKnows(s, id);
    }
    forall w | w in t.workers ensures WorkerKnows(t, t.workers[w]) {
      assert WorkerKnows(s, s.workers[w]);
    }
  }

  lemma InvAdd(s: State, items: set<Held>)
    requires Inv(s)
    ensures Inv(AddHeld(s, items))
  {
    if forall m :: m in items ==> !m.settled {
      var t := AddHeld(s, items);
      assert SettledAreDone(t) by { MoreUnsettled(s, items); }
      hide SettledAreDone, TaggedWrites;
      InvChunk(s, t);
    }
  }

  lemma MoreUnsettled(s: State, items: set<Held>)
    requires SettledAreDone(s) && forall m :: m in items ==> !m.settled
    ensures SettledAreDone(AddHeld(s, items))
  {
    hide TaggedWrites;
  }

  lemma InvFire(s: State, batches: map<Key, Content>)
    requires Inv(s)
    ensures Inv(FireChunk(s, batches))
  {
    if TakesOver(s, batches) {
      FreshKeys(s, batches);
      hide TakesOver;
      InvChunk(s, FireChunk(s, batches).(chunk := {}));
    }
  }

  lemma FreshKeys(s: State, batches: map<Key, Content>)
    requires Books(s) && TakesOver(s, batches)
    ensures Books(s.(chunk := {}, queue := s.queue + Entries(batches, Working), book := s.book + batches))
  {
    assert forall k :: k in batches ==> k !in s.book;
    hide TakesOver;
  }

  lemma InvTake(s: State, worker: nat, key: Key)
    requires Inv(s)
    ensures Inv(TakeEntry(s, worker, key))
  {
    InvWorkers(s, TakeEntry(s, worker, key));
  }

  lemma VerdictKnows(s: State, c: Content, seen: map<JobId, nat>)
    requires Read(s, c, seen)
    ensures JobsOf(c) <= seen.Keys
    ensures Verdict(c, seen) == Some(Superseded) ==> forall j :: j in JobsOf(c) ==> Done(s, j, c.gen)
    ensures Verdict(c, seen).Some? && Verdict(c, seen) != Some(Superseded) ==>
              Verdict(c, seen) == Some(Current({})) && forall j :: j in JobsOf(c) ==> j in s.jobs && s.jobs[j].gen >= c.gen
  {
    hide JobsOf;
  }

  /** A worker moves on, or stops. */
  lemma InvWorker(s: State, worker: nat, w: Worker)
    requires Inv(s) && worker in s.workers && WorkerKnows(s, w)
    requires w.key == s.workers[worker].key && w.entry.content == s.workers[worker].entry.content
    ensures Inv(s.(workers := s.workers[worker := w])) && Inv(s.(workers := s.workers - {worker}))
  {
    hide WorkerKnows;
    InvWorkers(s, s.(workers := s.workers[worker := w]));
    InvWorkers(s, s.(workers := s.workers - {worker}));
  }

  lemma InvCheck(s: State, worker: nat, seen: map<JobId, nat>)
    requires Inv(s)
    ensures Inv(CheckEntry(s, worker, seen))
  {
    hide Books, SettledAreDone, CallsKnow, JobsOf, Read, Verdict, Done;
    if worker in s.workers && s.workers[worker].pc.Taken? && Read(s, s.workers[worker].entry.content, seen) {
      var w := s.workers[worker];
      VerdictKnows(s, w.entry.content, seen);
      InvWorker(s, worker, match Verdict(w.entry.content, seen) case None => w case Some(pc) => w.(pc := pc));
    }
  }

  lemma InvVerify(s: State, worker: nat, job: JobId)
    requires Inv(s)
    ensures Inv(VerifyJob(s, worker, job))
  {
    hide Books, SettledAreDone, CallsKnow, JobsOf;
    var t := VerifyJob(s, worker, job);
    if t != s {
      assert WorkerKnows(s, s.workers[worker]);
      InvWorker(s, worker, t.workers[worker]);
    }
  }

  lemma InvPut(s: State, worker: nat, phase: Phase)
    requires Inv(s)
    ensures Inv(PutEntry(s, worker, phase))
  {
    hide SettledAreDone, CallsKnow, JobsOf, WorkerKnows;
    if worker in s.workers && s.workers[worker].pc.Current? {
      var w := s.workers[worker];
      var e := Entry(w.entry.content, phase);
      assert WorkerKnows(s, w.(entry := e)) by { SameKnowledge(s, w, e); }
      InvWorker(s, worker, w.(entry := e));
      InvShelf(s.(workers := s.workers[worker := w.(entry := e)]), s.queue[w.key := e], s.book);
    }
  }

  lemma SameKnowledge(s: State, w: Worker, e: Entry)
    requires WorkerKnows(s, w) && e.content == w.entry.content
    ensures WorkerKnows(s, w.(entry := e))
  {
  }

  /** Entries come and go, each under the content its key was minted with. */
  lemma InvShelf(s: State, queue: map<Key, Entry>, book: map<Key, Content>)
    requires Inv(s)
    requires forall k :: k in queue ==> k in book && queue[k].content == book[k]
    requires forall k :: k in s.book ==> k in book && book[k] == s.book[k]
    ensures Inv(s.(queue := queue, book := book))
  {
    var t := s.(queue := queue, book := book);
    forall id ensures CallKnows(t, id) {
      assert CallKnows(s, id);
    }
    forall w | w in t.workers ensures WorkerKnows(t, t.workers[w]) {
      assert WorkerKnows(s, s.workers[w]);
    }
  }

  lemma InvSplit(s: State, worker: nat, children: map<Key, Content>)
    requires Inv(s)
    ensures Inv(SplitEntry(s, worker, children))
  {
    if MaySplit(s, worker, children) {
      var w := s.workers[worker];
      BookedChildren(s, w.entry.content, children);
      hide Mixed, Divides, WorkerKnows, SettledAreDone, CallsKnow;
      InvWorker(s, worker, w);
      if w.key in s.queue && w.key !in children {
        InvShelf(s.(workers := s.workers - {worker}),
                 (s.queue - {w.key}) + Entries(children, s.queue[w.key].phase), s.book + children);
      }
    }
  }

  lemma BookedChildren(s: State, c: Content, children: map<Key, Content>)
    requires Divides(s, c, children)
    ensures forall k :: k in children && k in s.book ==> s.book[k] == children[k]
  {
  }

  lemma InvFinalize(s: State, worker: nat, restored: set<MsgId>)
    requires Inv(s)
    ensures Inv(FinalizeEntry(s, worker, restored))
  {
    if worker in s.workers && MayRemove(s.workers[worker]) {
      var w := s.workers[worker];
      assert WorkerKnows(s, w);
      RescuedAreDone(s, w, restored);
      hide WorkerKnows, Books, RescuedFrom, MarkersOf;
      InvWorker(s, worker, w);
      var t := s.(workers := s.workers - {worker});
      InvMarkers(t, s.markers - MarkersOf(w.entry.content));
      var u := t.(markers := s.markers - MarkersOf(w.entry.content));
      InvMoreDone(u, RescuedFrom(w, restored));
      InvRemoved(u.(chunk := u.chunk + RescuedFrom(w, restored)), w.key);
    }
  }

  lemma RescuedAreDone(s: State, w: Worker, restored: set<MsgId>)
    requires WorkerKnows(s, w) && MayRemove(w)
    ensures forall m :: m in RescuedFrom(w, restored) && m.job.Some? ==> Done(s, m.job.value, m.gen)
  {
    forall m | m in RescuedFrom(w, restored) && m.job.Some? ensures Done(s, m.job.value, m.gen) {
      assert m.job.value in JobsOf(w.entry.content);
      assert Done(s, m.job.value, w.entry.content.gen);
    }
  }

  lemma InvMarkers(s: State, markers: map<Id, Marker>)
    requires Inv(s) && forall id :: id in markers ==> id in s.markers && markers[id] == s.markers[id]
    ensures Inv(s.(markers := markers))
  {
    var t := s.(markers := markers);
    forall id ensures CallKnows(t, id) {
      assert CallKnows(s, id);
    }
    forall w | w in t.workers ensures WorkerKnows(t, t.workers[w]) {
      assert WorkerKnows(s, s.workers[w]);
    }
  }

  lemma InvMoreDone(s: State, more: set<Held>)
    requires Inv(s) && forall m :: m in more && m.job.Some? ==> Done(s, m.job.value, m.gen)
    ensures Inv(s.(chunk := s.chunk + more))
  {
    var t := s.(chunk := s.chunk + more);
    forall m | m in t.chunk && m.settled && m.job.Some? ensures Done(t, m.job.value, m.gen) {
      assert Done(s, m.job.value, m.gen);
    }
    hide SettledAreDone;
    InvChunk(s, t);
  }

  lemma InvRemoved(s: State, key: Key)
    requires Inv(s)
    ensures Inv(s.(queue := s.queue - {key}))
  {
    assert forall k :: k in s.queue - {key} ==> k in s.book && (s.queue - {key})[k].content == s.book[k];
    hide Inv;
    InvShelf(s, s.queue - {key}, s.book);
  }

  lemma InvDropped(s: State)
    requires Inv(s)
    ensures Inv(s.(calls := map[], workers := map[])) && Inv(ResetAll(s))
  {
    forall id ensures CallKnows(s.(calls := map[], workers := map[]), id) && CallKnows(ResetAll(s), id) {
      assert CallKnows(s, id);
    }
    forall w | w in s.workers ensures WorkerKnows(ResetAll(s), s.workers[w]) {
      assert WorkerKnows(s, s.workers[w]);
    }
  }

  lemma InvLeave(s: State, id: Id)
    requires Inv(s)
    ensures Inv(Leave(s, id))
  {
    assert CallKnows(s, id);
    CallFrame(s, Leave(s, id), id);
    hide CallsKnow, CallKnows;
    InvCalls(s, Leave(s, id));
  }

  lemma InvQuit(s: State, worker: nat)
    requires Inv(s)
    ensures Inv(s.(workers := s.workers - {worker}))
  {
    hide WorkerKnows, Books, SettledAreDone, CallsKnow;
    if worker in s.workers {
      assert WorkersKnow(s) && WorkerKnows(s, s.workers[worker]);
      InvWorker(s, worker, s.workers[worker]);
    } else {
      assert s.workers - {worker} == s.workers;
    }
  }

  lemma InvOpen(s: State, id: Id, hash: Hash)
    requires Inv(s)
    ensures Inv(Open(s, id, hash))
  {
    assert CallKnows(s, id);
    hide CallKnows, OnlyCalls, SameElsewhere, Open;
    OpenFrame(s, id, hash);
    CallFrame(s, Open(s, id, hash), id);
    InvCalls(s, Open(s, id, hash));
  }

  lemma InvAdvance(s: State, id: Id, msgs: set<MsgId>)
    requires Inv(s) && id in s.calls
    ensures Inv(AdvanceCall(s, id, msgs))
  {
    assert CallKnows(s, id);
    hide CallKnows, OnlyCalls, SameElsewhere, Accept, Finish;
    var t := AdvanceCall(s, id, msgs);
    if Finishes(s.calls[id].pc) { FinishFrame(s, id); } else { AcceptFrame(s, id, msgs); }
    CallFrame(s, t, id);
    InvCalls(s, t);
  }

  lemma InvStep(s: State, step: Step)
    requires Inv(s)
    ensures Inv(Apply(s, step))
  {
    hide Inv, EvolveJobs, AddHeld, FireChunk, Open, AdvanceCall, Leave, TakeEntry, SplitEntry, CheckEntry, VerifyJob,
      PutEntry, FinalizeEntry, ResetAll;
    match step
    case Jobs(jobs) => InvJobs(s, jobs);
    case AddOther(items) => InvAdd(s, items);
    case Fire(batches) => InvFire(s, batches);
    case Start(id, hash) => InvOpen(s, id, hash);
    case Advance(id, msgs) => if id in s.calls { InvAdvance(s, id, msgs); }
    case Abort(id) => InvLeave(s, id);
    case Take(worker, key) => InvTake(s, worker, key);
    case Split(worker, children) => InvSplit(s, worker, children);
    case CheckRepairs(worker, seen) => InvCheck(s, worker, seen);
    case Verify(worker, job) => InvVerify(s, worker, job);
    case Put(worker, phase) => InvPut(s, worker, phase);
    case Finalize(worker, restored) => InvFinalize(s, worker, restored);
    case Quit(worker) => InvQuit(s, worker);
    case Prune(id) => InvMarkers(s, s.markers - {id});
    case Crash => InvDropped(s);
    case Reset => InvDropped(s);
  }

  lemma {:induction false} InvRun(s: State, steps: seq<Step>)
    requires Inv(s)
    ensures Inv(Run(s, steps))
  {
    hide Inv, Apply;
    if steps != [] {
      InvRun(s, steps[..|steps| - 1]);
      InvStep(Run(s, steps[..|steps| - 1]), steps[|steps| - 1]);
    }
  }

  lemma InitialInv(jobs: map<JobId, Job>)
    ensures Inv(Initial(jobs))
  {
  }

  // ----- What a drain worker leaves alone -----

  predicate DrainStep(step: Step) {
    step.Take? || step.Split? || step.CheckRepairs? || step.Verify? || step.Put? || step.Finalize? || step.Quit?
  }

  ghost predicate DrainLeaves(s: State, t: State) {
    && t.jobs == s.jobs && t.calls == s.calls
    && t.accepted == s.accepted && t.entered == s.entered && t.returned == s.returned
    && (forall id :: id in t.markers ==> id in s.markers && t.markers[id] == s.markers[id])
  }

  lemma DrainFrame(s: State, step: Step)
    requires DrainStep(step)
    ensures DrainLeaves(s, Apply(s, step))
  {
    hide TakeEntry, SplitEntry, CheckEntry, VerifyJob, PutEntry, FinalizeEntry;
    match step
    case Take(worker, key) => TakeFrame(s, worker, key);
    case Split(worker, children) => SplitFrame(s, worker, children);
    case CheckRepairs(worker, seen) => CheckFrame(s, worker, seen);
    case Verify(worker, job) => VerifyFrame(s, worker, job);
    case Put(worker, phase) => PutFrame(s, worker, phase);
    case Finalize(worker, restored) => FinalizeFrame(s, worker, restored);
    case Quit(worker) =>
  }

  lemma TakeFrame(s: State, worker: nat, key: Key)
    ensures DrainLeaves(s, TakeEntry(s, worker, key))
  {
    if worker !in s.workers && key in s.queue {} else {}
  }

  lemma SplitFrame(s: State, worker: nat, children: map<Key, Content>)
    ensures DrainLeaves(s, SplitEntry(s, worker, children))
  {
    hide Mixed, Divides, Entries;
    if MaySplit(s, worker, children) {
      if s.workers[worker].key in s.queue && s.workers[worker].key !in children {} else {}
    } else {
    }
  }

  lemma CheckFrame(s: State, worker: nat, seen: map<JobId, nat>)
    ensures DrainLeaves(s, CheckEntry(s, worker, seen))
  {
    if worker in s.workers && s.workers[worker].pc.Taken? && Read(s, s.workers[worker].entry.content, seen) {
      VerdictKnows(s, s.workers[worker].entry.content, seen);
      hide Read, Verdict, JobsOf;
      match Verdict(s.workers[worker].entry.content, seen)
      case None =>
      case Some(pc) =>
    } else {
    }
  }

  lemma CheckMovesWorkers(s: State, worker: nat, seen: map<JobId, nat>)
    requires worker in s.workers && Read(s, s.workers[worker].entry.content, seen)
    ensures CheckRepair(s, worker, seen) == s.(workers := CheckRepair(s, worker, seen).workers)
  {
    VerdictKnows(s, s.workers[worker].entry.content, seen);
    hide Verdict, JobsOf;
    match Verdict(s.workers[worker].entry.content, seen)
    case None =>
    case Some(pc) =>
  }

  lemma ChecksLeave(s: State, worker: nat, seen: map<JobId, nat>)
    ensures var t := CheckEntry(s, worker, seen); t.jobs == s.jobs && t.chunk == s.chunk && t.queue == s.queue
  {
    hide CheckRepair, Read;
    if worker in s.workers && s.workers[worker].pc.Taken? && Read(s, s.workers[worker].entry.content, seen) {
      CheckMovesWorkers(s, worker, seen);
    }
  }

  lemma VerifyFrame(s: State, worker: nat, job: JobId)
    ensures DrainLeaves(s, VerifyJob(s, worker, job))
  {
    hide JobsOf;
    if VerifyJob(s, worker, job) == s {} else {}
  }

  lemma PutFrame(s: State, worker: nat, phase: Phase)
    ensures DrainLeaves(s, PutEntry(s, worker, phase))
  {
    if worker in s.workers && s.workers[worker].pc.Current? {} else {}
  }

  lemma FinalizeFrame(s: State, worker: nat, restored: set<MsgId>)
    ensures DrainLeaves(s, FinalizeEntry(s, worker, restored))
  {
    hide MayRemove, RescuedFrom, MarkersOf;
    if worker in s.workers && MayRemove(s.workers[worker]) {} else {}
  }

  // ----- No accepted write is lost -----

  lemma AdvanceFrame(s: State, id: Id, msgs: set<MsgId>)
    requires Inv(s) && id in s.calls
    ensures OnlyCalls(s, AdvanceCall(s, id, msgs))
  {
    assert CallKnows(s, id);
    hide CallKnows, OnlyCalls, SameElsewhere, Accept, Finish;
    if Finishes(s.calls[id].pc) { FinishFrame(s, id); } else { AcceptFrame(s, id, msgs); }
  }

  lemma OpenKeeps(s: State, id: Id, hash: Hash)
    ensures var t := Open(s, id, hash); t.jobs == s.jobs && t.queue == s.queue && t.chunk == s.chunk
  {
    if id in s.calls {
    } else if id !in s.markers {
    } else if s.markers[id].hash != hash {
    } else {
      match s.markers[id].state
      case Pending =>
      case Applied =>
      case Accepted =>
    }
  }

  /** A verdict is final. */
  lemma DoneStays(s: State, step: Step, job: JobId, gen: nat)
    requires Inv(s) && Done(s, job, gen)
    ensures Done(Apply(s, step), job, gen)
  {
    hide Inv, TakesOver, TakeEntry, SplitEntry, CheckEntry, VerifyJob, PutEntry, FinalizeEntry, Open, AdvanceCall;
    if DrainStep(step) {
      DrainFrame(s, step);
    } else {
      match step
      case Advance(id, msgs) => if id in s.calls { AdvanceFrame(s, id, msgs); }
      case Start(id, hash) => OpenKeeps(s, id, hash);
      case _ =>
    }
  }

  lemma FireKeeps(s: State, batches: map<Key, Content>, w: Write)
    requires Inv(s) && (InChunk(s, w) || InQueue(s, w)) && TakesOver(s, batches)
    ensures InQueue(FireChunk(s, batches), w)
  {
    hide SettledAreDone, WorkersKnow, CallsKnow;
    var t := FireChunk(s, batches);
    if InChunk(s, w) {
      var h := Held(w.msg, Some(w.job), w.gen, false);
      assert h in s.chunk;
      var k :| k in batches && Owns(batches[k], Write(h.job.value, h.gen, h.msg));
      assert k in t.queue && t.queue[k].content == batches[k];
    } else {
      var k :| k in s.queue && Owns(s.queue[k].content, w);
      assert k in s.book && k !in batches;
      assert k in t.queue && t.queue[k] == s.queue[k];
    }
  }

  /** The split entry's own messages are with its children. */
  lemma SplitHandsOver(s: State, worker: nat, children: map<Key, Content>, w: Write)
    requires MaySplit(s, worker, children) && Owns(s.workers[worker].entry.content, w)
    ensures exists k :: k in children && Owns(children[k], w)
  {
    hide Mixed;
    var c := s.workers[worker].entry.content;
    assert w.msg in c.owners;
  }

  lemma SplitResult(s: State, worker: nat, children: map<Key, Content>)
    requires MaySplit(s, worker, children)
    ensures var t, key := SplitEntry(s, worker, children), s.workers[worker].key;
            t.queue == s.queue
            || (key in s.queue && key !in children
                && t.queue == (s.queue - {key}) + Entries(children, s.queue[key].phase))
  {
    hide MaySplit, Mixed, Divides;
  }

  lemma SplitKeeps(s: State, worker: nat, children: map<Key, Content>, w: Write)
    requires Inv(s) && InQueue(s, w) && MaySplit(s, worker, children)
    ensures InQueue(SplitEntry(s, worker, children), w)
  {
    var u := s.workers[worker];
    var t := SplitEntry(s, worker, children);
    SplitResult(s, worker, children);
    BookedChildren(s, u.entry.content, children);
    var k :| k in s.queue && Owns(s.queue[k].content, w);
    assert s.queue[k].content == s.book[k] && u.entry.content == s.book[u.key];
    if k == u.key { SplitHandsOver(s, worker, children, w); }
    hide Inv, MaySplit, SplitEntry, Owns;
    if t.queue != s.queue {
      if k == u.key {
        var child :| child in children && Owns(children[child], w);
        assert child in t.queue && t.queue[child].content == children[child];
      } else {
        assert k in t.queue && t.queue[k].content == s.queue[k].content;
      }
    }
  }

  lemma PutKeeps(s: State, worker: nat, phase: Phase, w: Write)
    requires Inv(s) && InQueue(s, w)
    ensures InQueue(PutEntry(s, worker, phase), w)
  {
    hide SettledAreDone, WorkersKnow, CallsKnow;
    var t := PutEntry(s, worker, phase);
    var k :| k in s.queue && Owns(s.queue[k].content, w);
    assert k in t.queue && t.queue[k].content == s.queue[k].content;
  }

  lemma FinalizeKeeps(s: State, worker: nat, restored: set<MsgId>, w: Write)
    requires Inv(s) && InQueue(s, w) && worker in s.workers && MayRemove(s.workers[worker])
    ensures InQueue(Remove(s, worker, restored), w) || Done(s, w.job, w.gen)
  {
    var k :| k in s.queue && Owns(s.queue[k].content, w);
    var u := s.workers[worker];
    assert WorkerKnows(s, u) && Books(s);
    hide CallsKnow, SettledAreDone, RescuedFrom, MarkersOf;
    if k == u.key {
      assert w.job in JobsOf(u.entry.content);
      assert Done(s, w.job, w.gen);
    } else {
      assert k in Remove(s, worker, restored).queue;
    }
  }

  /** Queued work leaves the queue only by being finished. */
  lemma QueueKeeps(s: State, step: Step, w: Write)
    requires Inv(s) && !step.Reset? && InQueue(s, w)
    ensures InQueue(Apply(s, step), w) || Done(s, w.job, w.gen)
  {
    hide Inv, TakesOver, MaySplit, Read, MayRemove, RescuedFrom, MarkersOf, Open, AdvanceCall, FireChunk, SplitEntry,
      PutEntry, Done, Remove;
    match step
    case Fire(batches) => if TakesOver(s, batches) { FireKeeps(s, batches, w); } else { FireIdle(s, batches); }
    case Split(worker, children) => if MaySplit(s, worker, children) { SplitKeeps(s, worker, children, w); } else { SplitIdle(s, worker, children); }
    case Put(worker, phase) => PutKeeps(s, worker, phase, w);
    case Finalize(worker, restored) =>
      if worker in s.workers && MayRemove(s.workers[worker]) { FinalizeKeeps(s, worker, restored, w); }
    case Advance(id, msgs) => if id in s.calls { AdvanceFrame(s, id, msgs); }
    case Start(id, hash) => OpenKeeps(s, id, hash);
    case _ =>
  }

  lemma FireIdle(s: State, batches: map<Key, Content>)
    requires !TakesOver(s, batches)
    ensures FireChunk(s, batches) == s
  {
  }

  lemma SplitIdle(s: State, worker: nat, children: map<Key, Content>)
    requires !MaySplit(s, worker, children)
    ensures SplitEntry(s, worker, children) == s
  {
  }

  lemma ReachedAfterBound(s: State, id: Id)
    requires CallsKnow(s) && id in s.calls && s.calls[id].pc != Bound
    ensures Reached(s, id)
  {
    assert CallKnows(s, id);
  }

  /** The job has moved on to a newer generation. */
  predicate Overtaken(s: State, job: JobId, gen: nat) {
    job in s.jobs && s.jobs[job].gen > gen
  }

  lemma DropKeeps(s: State, id: Id, w: Write)
    requires Reached(s, id) && InChunk(s, w)
    ensures Held(w.msg, Some(w.job), w.gen, false) in WithoutSuperseded(s, id) || Overtaken(s, w.job, w.gen)
  {
  }

  lemma ReconcileKeeps(s: State, id: Id, w: Write)
    requires InChunk(s, w)
    ensures Held(w.msg, Some(w.job), w.gen, false) in WithoutQueued(s, id) || InQueue(s, w)
  {
    var h := Held(w.msg, Some(w.job), w.gen, false);
    if h !in WithoutQueued(s, id) {
      assert QueuedCopy(s, id, w.msg) && w == Write(id.job, id.gen, w.msg);
    }
  }

  lemma FinishChunk(s: State, id: Id)
    requires id in s.calls && Finishes(s.calls[id].pc)
    ensures Finish(s, id).chunk == s.chunk
  {
    hide HeldFor, QueuedFor;
    match s.calls[id].pc
    case FinishUnowned => if id.job in s.jobs && s.jobs[id.job].terminal {} else {}
    case Finishing =>
    case FinishSawChunk(own) =>
    case FinishOwned =>
    case FinishTerminal =>
  }

  /** The only places where a call takes something out of the chunk. */
  lemma AcceptChunk(s: State, id: Id, msgs: set<MsgId>)
    requires id in s.calls && !Finishes(s.calls[id].pc)
    ensures s.chunk <= Accept(s, id, msgs).chunk
            || (s.calls[id].pc.GenChecked? && Accept(s, id, msgs).chunk == WithoutSuperseded(s, id))
            || (s.calls[id].pc.Owned? && Accept(s, id, msgs).chunk == WithoutQueued(s, id))
  {
    hide HeldFor, QueuedFor, WithoutSuperseded, WithoutQueued, Commit;
    match s.calls[id].pc
    case Ready => CommitChunk(s, id, s.calls[id].hash, msgs);
    case Bound => if id.job in s.jobs && s.jobs[id.job].gen == id.gen {} else {}
    case GenChecked =>
    case Dropped =>
    case SawChunk(own) =>
    case Owned =>
    case Unowned =>
    case Applying =>
  }

  lemma CommitChunk(s: State, id: Id, hash: Hash, msgs: set<MsgId>)
    ensures s.chunk <= Commit(s, id, hash, msgs).chunk
  {
    hide HeldAs, WritesOf, Entered;
    if id in s.markers && s.markers[id] == Marker(hash, Pending) {} else {}
  }

  /** What a call removes from the chunk is superseded, or has a queued copy. */
  lemma AdvanceKeeps(s: State, id: Id, msgs: set<MsgId>, w: Write)
    requires Inv(s) && id in s.calls && InChunk(s, w)
    ensures InChunk(AdvanceCall(s, id, msgs), w) || InQueue(s, w) || Overtaken(s, w.job, w.gen)
  {
    if Finishes(s.calls[id].pc) { FinishChunk(s, id); } else { AcceptChunk(s, id, msgs); }
    if s.calls[id].pc.GenChecked? { ReachedAfterBound(s, id); }
    hide Inv, Accept, Finish, InQueue, WithoutSuperseded, WithoutQueued;
    if s.calls[id].pc.GenChecked? {
      DropKeeps(s, id, w);
    } else if s.calls[id].pc.Owned? {
      ReconcileKeeps(s, id, w);
    }
  }

  /** A held message leaves the chunk only into the queue, as a superseded generation,
      or as a copy of a message already queued. */
  lemma HeldKeeps(s: State, step: Step, w: Write)
    requires Inv(s) && !step.Reset? && InChunk(s, w)
    ensures InChunk(Apply(s, step), w) || InQueue(Apply(s, step), w) || Overtaken(s, w.job, w.gen)
  {
    hide Inv, TakesOver, MaySplit, Read, MayRemove, RescuedFrom, MarkersOf, Open, AdvanceCall, FireChunk, Overtaken, InQueue;
    match step
    case Fire(batches) => if TakesOver(s, batches) { FireKeeps(s, batches, w); } else { FireIdle(s, batches); }
    case Advance(id, msgs) =>
      if id in s.calls {
        AdvanceKeeps(s, id, msgs, w);
        AdvanceLeavesQueue(s, id, msgs, w);
      }
    case Start(id, hash) => OpenKeeps(s, id, hash);
    case _ =>
  }

  lemma AdvanceLeavesQueue(s: State, id: Id, msgs: set<MsgId>, w: Write)
    requires Inv(s) && id in s.calls
    ensures InQueue(AdvanceCall(s, id, msgs), w) == InQueue(s, w)
  {
    AdvanceFrame(s, id, msgs);
    hide Inv, AdvanceCall, Owns;
  }

  lemma OvertakenIsDone(s: State, job: JobId, gen: nat)
    ensures Overtaken(s, job, gen) ==> Done(s, job, gen)
  {
  }

  /** No accepted write is lost: what is held, queued or finished stays held, queued or
      finished under every step but a reset. */
  lemma SafeStays(s: State, step: Step, w: Write)
    requires Inv(s) && !step.Reset? && Safe(s, w)
    ensures Safe(Apply(s, step), w)
  {
    hide Inv, Apply, Done, InChunk, InQueue;
    if Done(s, w.job, w.gen) {
      DoneStays(s, step, w.job, w.gen);
    } else if InQueue(s, w) {
      QueueKeeps(s, step, w);
    } else {
      HeldKeeps(s, step, w);
      OvertakenIsDone(s, w.job, w.gen);
    }
  }

  predicate NoReset(steps: seq<Step>) {
    forall i :: 0 <= i < |steps| ==> !steps[i].Reset?
  }

  lemma {:induction false} NoAcceptedWriteLost(s: State, steps: seq<Step>, w: Write)
    requires Inv(s) && Safe(s, w) && NoReset(steps)
    ensures Safe(Run(s, steps), w)
  {
    hide Inv, Apply, Safe;
    if steps != [] {
      var before := steps[..|steps| - 1];
      NoAcceptedWriteLost(s, before, w);
      InvRun(s, before);
      SafeStays(Run(s, before), steps[|steps| - 1], w);
    }
  }
}

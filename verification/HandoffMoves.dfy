/** Exactly what moves through the held chunk and the queue: what each step takes out, what
    it puts in, and that a newer generation's call leaves no older copy behind. */
module HandoffMoves {
  import opened Wrappers
  import opened Handoff
  import opened HandoffSafety

  // ----- The held chunk -----

  /** Some queue entry owns this message for this job and generation. */
  predicate OwnedCopy(queue: map<Key, Entry>, job: JobId, gen: nat, msg: MsgId) {
    exists k :: k in queue
      && var c := queue[k].content; c.gen == gen && msg in c.owners.Keys && c.owners[msg] == job
  }

  /** The step takes this message out of the chunk: a reset, a fire, a call that finds it
      superseded by its own generation, or one that finds it queued already. */
  ghost predicate TakesOut(s: State, step: Step, m: Held) {
    match step
    case Reset => true
    case Fire(batches) => TakesOver(s, batches)
    case Advance(id, _) =>
      && id in s.calls && m.job == Some(id.job)
      && ((s.calls[id].pc == GenChecked && m.gen < id.gen)
          || (s.calls[id].pc == Owned && m.gen == id.gen && OwnedCopy(s.queue, id.job, id.gen, m.msg)))
    case _ => false
  }

  /** The step puts this message into the chunk: a save, the commit of a handoff whose
      marker is pending, or a finished entry's rescue. */
  ghost predicate PutsIn(s: State, step: Step, m: Held) {
    match step
    case AddOther(items) => m in items && forall other :: other in items ==> !other.settled
    case Advance(id, msgs) =>
      && id in s.calls && s.calls[id].pc == Ready && id in s.markers && s.markers[id] == Marker(s.calls[id].hash, Pending)
      && m.msg in msgs && m.job == Some(id.job) && m.gen == id.gen && !m.settled
    case Finalize(worker, restored) =>
      && worker in s.workers && s.workers[worker].pc.Current?
      && var c := s.workers[worker].entry.content;
         && (forall msg :: msg in c.owners ==> c.owners[msg] in s.workers[worker].pc.verified)
         && m.msg in restored && m.msg in c.owners && m.job == Some(c.owners[m.msg]) && m.gen == 0 && m.settled
    case _ => false
  }

  lemma SupersededGo(s: State, id: Id, m: Held)
    ensures m in WithoutSuperseded(s, id) <==> m in s.chunk && !(m.job == Some(id.job) && m.gen < id.gen)
  {
  }

  lemma QueuedGo(s: State, id: Id, m: Held)
    ensures m in WithoutQueued(s, id)
            <==> m in s.chunk && !(m.job == Some(id.job) && m.gen == id.gen && OwnedCopy(s.queue, id.job, id.gen, m.msg))
  {
    assert QueuedCopy(s, id, m.msg) <==> OwnedCopy(s.queue, id.job, id.gen, m.msg);
  }

  lemma AcceptLeaves(s: State, id: Id, msgs: set<MsgId>)
    requires id in s.calls && !Finishes(s.calls[id].pc)
    ensures var t := Accept(s, id, msgs);
            match s.calls[id].pc
            case Ready => t == Commit(s, id, s.calls[id].hash, msgs)
            case GenChecked => t == s.(chunk := WithoutSuperseded(s, id), calls := t.calls)
            case Owned => t == s.(chunk := WithoutQueued(s, id), calls := t.calls)
            case Applying => t == s.(markers := s.markers[id := Marker(s.calls[id].hash, Applied)], calls := t.calls)
            case _ => t == s.(calls := t.calls)
  {
    hide HeldFor, QueuedFor, WithoutSuperseded, WithoutQueued, Commit;
    match s.calls[id].pc
    case Ready =>
    case Bound => if id.job in s.jobs && s.jobs[id.job].gen == id.gen {} else {}
    case GenChecked =>
    case Owned =>
    case Dropped =>
    case SawChunk(own) =>
    case Unowned =>
    case Applying =>
  }

  lemma AcceptMoves(s: State, id: Id, msgs: set<MsgId>, m: Held)
    requires id in s.calls && !Finishes(s.calls[id].pc)
    ensures m in Accept(s, id, msgs).chunk
            <==> (m in s.chunk && !TakesOut(s, Advance(id, msgs), m)) || PutsIn(s, Advance(id, msgs), m)
  {
    AcceptLeaves(s, id, msgs);
    SupersededGo(s, id, m);
    QueuedGo(s, id, m);
    hide Accept, WithoutSuperseded, WithoutQueued, Commit, OwnedCopy;
    if s.calls[id].pc == Ready { CommitMoves(s, id, s.calls[id].hash, msgs, m); }
  }

  lemma CommitMoves(s: State, id: Id, hash: Hash, msgs: set<MsgId>, m: Held)
    requires id in s.calls && s.calls[id].pc == Ready && s.calls[id].hash == hash
    ensures m in Commit(s, id, hash, msgs).chunk <==> m in s.chunk || PutsIn(s, Advance(id, msgs), m)
  {
    assert m in HeldAs(id, msgs) <==> m.msg in msgs && m.job == Some(id.job) && m.gen == id.gen && !m.settled;
    hide HeldAs, WritesOf, Entered;
    if id in s.markers && s.markers[id] == Marker(hash, Pending) {} else {}
  }

  lemma RescueMoves(s: State, worker: nat, restored: set<MsgId>, m: Held)
    ensures m in FinalizeEntry(s, worker, restored).chunk <==> m in s.chunk || PutsIn(s, Finalize(worker, restored), m)
  {
    hide MarkersOf;
    if worker in s.workers {
      var c := s.workers[worker].entry.content;
      assert (forall msg :: msg in c.owners ==> c.owners[msg] in JobsOf(c));
    }
  }

  /** What a step leaves in the chunk: what was there and not taken out, and what it put in. */
  lemma ChunkExactly(s: State, step: Step, m: Held)
    ensures m in Apply(s, step).chunk <==> (m in s.chunk && !TakesOut(s, step, m)) || PutsIn(s, step, m)
  {
    hide TakesOver, MaySplit, Read, Verdict, Accept, Finish, FinalizeEntry, Open, OwnedCopy, JobsOf, TaggedWrites;
    match step
    case Advance(id, msgs) =>
      if id in s.calls {
        if Finishes(s.calls[id].pc) { FinishChunk(s, id); } else { AcceptMoves(s, id, msgs, m); }
      }
    case Start(id, hash) => OpenKeeps(s, id, hash);
    case Finalize(worker, restored) => RescueMoves(s, worker, restored, m);
    case AddOther(items) => if exists other :: other in items && other.settled {} else {}
    case CheckRepairs(worker, seen) => hide CheckEntry; ChecksLeave(s, worker, seen);
    case _ =>
  }

  // ----- The queue -----

  predicate OneJob(c: Content) {
    forall a, b :: a in c.owners && b in c.owners ==> c.owners[a] == c.owners[b]
  }

  /** A worker that has just read an unsettled entry of several jobs replaces it by children
      that divide what it owns, if it is still there. */
  ghost predicate Splits(s: State, worker: nat, children: map<Key, Content>) {
    && worker in s.workers && s.workers[worker].pc == Taken && s.workers[worker].entry.phase == Working
    && !OneJob(s.workers[worker].entry.content) && Divides(s, s.workers[worker].entry.content, children)
    && s.workers[worker].key in s.queue && s.workers[worker].key !in children
  }

  /** A worker is done with its entry: it found it superseded, or all its jobs finished. */
  predicate Ends(w: Worker) {
    || w.pc == Superseded
    || (w.pc.Current? && forall msg :: msg in w.entry.content.owners ==> w.entry.content.owners[msg] in w.pc.verified)
  }

  ghost predicate TakesEntry(s: State, step: Step, k: Key) {
    match step
    case Reset => true
    case Split(worker, children) => Splits(s, worker, children) && k == s.workers[worker].key
    case Finalize(worker, _) => worker in s.workers && k == s.workers[worker].key && Ends(s.workers[worker])
    case _ => false
  }

  /** The step stores this entry: a fire, for messages of one job that were held; a split,
      in the parent's phase; or a worker's write-back of what it read, whatever is there. */
  ghost predicate PutsEntry(s: State, step: Step, k: Key, e: Entry) {
    match step
    case Fire(batches) => TakesOver(s, batches) && k in batches && e == Entry(batches[k], Working) && OneJob(batches[k])
    case Split(worker, children) =>
      Splits(s, worker, children) && k in children && e == Entry(children[k], s.queue[s.workers[worker].key].phase)
    case Put(worker, phase) =>
      worker in s.workers && s.workers[worker].pc.Current? && k == s.workers[worker].key && e == Entry(s.workers[worker].entry.content, phase)
    case _ => false
  }

  lemma MixedExactly(c: Content)
    ensures Mixed(c) <==> !OneJob(c)
  {
  }

  lemma SplitMoves(s: State, worker: nat, children: map<Key, Content>, k: Key, e: Entry)
    ensures var t := SplitEntry(s, worker, children);
            k in t.queue && t.queue[k] == e <==>
              || PutsEntry(s, Split(worker, children), k, e)
              || (k in s.queue && s.queue[k] == e && !TakesEntry(s, Split(worker, children), k)
                  && !exists other :: PutsEntry(s, Split(worker, children), k, other))
  {
    if worker in s.workers { MixedExactly(s.workers[worker].entry.content); }
    hide Divides, Mixed, OneJob;
    if Splits(s, worker, children) {
      var parent := s.workers[worker].key;
      if k in children { assert PutsEntry(s, Split(worker, children), k, Entry(children[k], s.queue[parent].phase)); }
    }
  }

  lemma FireMoves(s: State, batches: map<Key, Content>, k: Key, e: Entry)
    ensures var t := FireChunk(s, batches);
            k in t.queue && t.queue[k] == e <==>
              || PutsEntry(s, Fire(batches), k, e)
              || (k in s.queue && s.queue[k] == e && !exists other :: PutsEntry(s, Fire(batches), k, other))
  {
    if TakesOver(s, batches) && k in batches {
      MixedExactly(batches[k]);
      assert PutsEntry(s, Fire(batches), k, Entry(batches[k], Working));
    }
    hide TakesOver, OneJob;
  }

  lemma EndMoves(s: State, worker: nat, restored: set<MsgId>, k: Key)
    ensures var t := FinalizeEntry(s, worker, restored);
            && (k in t.queue <==> k in s.queue && !TakesEntry(s, Finalize(worker, restored), k))
            && (k in t.queue ==> t.queue[k] == s.queue[k])
  {
    hide MarkersOf, RescuedFrom;
    if worker in s.workers {
      var c := s.workers[worker].entry.content;
      assert forall msg :: msg in c.owners ==> c.owners[msg] in JobsOf(c);
    }
  }

  /** What a step leaves in the queue: what it stored, and what was there and neither taken
      nor overwritten. */
  lemma QueueExactly(s: State, step: Step, k: Key, e: Entry)
    requires Inv(s)
    ensures var t := Apply(s, step);
            k in t.queue && t.queue[k] == e <==>
              || PutsEntry(s, step, k, e)
              || (k in s.queue && s.queue[k] == e && !TakesEntry(s, step, k) && !exists other :: PutsEntry(s, step, k, other))
  {
    hide Inv, TakesOver, Divides, MaySplit, FireChunk, SplitEntry, CheckEntry, FinalizeEntry, Open, AdvanceCall, Ends, OneJob, TaggedWrites;
    match step
    case Advance(id, msgs) => if id in s.calls { AdvanceFrame(s, id, msgs); }
    case Start(id, hash) => OpenKeeps(s, id, hash);
    case Fire(batches) => FireMoves(s, batches, k, e);
    case Split(worker, children) => SplitMoves(s, worker, children, k, e);
    case Put(worker, phase) =>
      if worker in s.workers && s.workers[worker].pc.Current? {
        assert PutsEntry(s, step, s.workers[worker].key, Entry(s.workers[worker].entry.content, phase));
      }
    case Finalize(worker, restored) => EndMoves(s, worker, restored, k);
    case CheckRepairs(worker, seen) => ChecksLeave(s, worker, seen);
    case _ =>
  }

  // ----- The markers -----

  /** The step binds the handoff's marker: a first call, its commit, an applied outcome, or
      an acknowledgement - always under the call's own hash. */
  predicate Binds(s: State, step: Step, o: Id, m: Marker) {
    match step
    case Start(id, hash) => o == id && id !in s.calls && id !in s.markers && m == Marker(hash, Pending)
    case Advance(id, _) =>
      && o == id && id in s.calls && m.hash == s.calls[id].hash
      && ((s.calls[id].pc == Ready && id in s.markers && s.markers[id] == Marker(s.calls[id].hash, Pending) && m.state == Applied)
          || (s.calls[id].pc == Applying && m.state == Applied)
          || (s.calls[id].pc == FinishOwned && m.state == Accepted))
    case _ => false
  }

  /** The step ends the handoff's marker: a reset, a prune, a call that found its job
      terminal, or a finished entry that belongs to the handoff. */
  predicate Unbinds(s: State, step: Step, o: Id) {
    match step
    case Reset => true
    case Prune(id) => o == id
    case Advance(id, _) => o == id && id in s.calls && s.calls[id].pc == FinishTerminal
    case Finalize(worker, _) =>
      && worker in s.workers && Ends(s.workers[worker])
      && var c := s.workers[worker].entry.content;
         o in c.markers || (o.gen == 0 && exists msg :: msg in c.owners && c.owners[msg] == o.job)
    case _ => false
  }

  /** How the marker table moves. */
  ghost predicate MarkerFollows(s: State, t: State, step: Step, o: Id) {
    && (forall m :: Binds(s, step, o, m) ==> o in t.markers && t.markers[o] == m)
    && (!(exists m :: Binds(s, step, o, m)) ==>
          && (o in t.markers <==> o in s.markers && !Unbinds(s, step, o))
          && (o in t.markers ==> t.markers[o] == s.markers[o]))
  }

  lemma AcceptMarks(s: State, id: Id, msgs: set<MsgId>, o: Id)
    requires id in s.calls && !Finishes(s.calls[id].pc)
    ensures MarkerFollows(s, Accept(s, id, msgs), Advance(id, msgs), o)
  {
    AcceptLeaves(s, id, msgs);
    hide Accept, Commit, WithoutSuperseded, WithoutQueued;
    match s.calls[id].pc
    case Ready => CommitMarks(s, id, s.calls[id].hash, msgs, o);
    case Applying => assert Binds(s, Advance(id, msgs), id, Marker(s.calls[id].hash, Applied));
    case _ =>
  }

  lemma CommitMarks(s: State, id: Id, hash: Hash, msgs: set<MsgId>, o: Id)
    requires id in s.calls && s.calls[id] == Call(hash, Ready)
    ensures MarkerFollows(s, Commit(s, id, hash, msgs), Advance(id, msgs), o)
  {
    hide HeldAs, WritesOf, Entered;
    if id in s.markers && s.markers[id] == Marker(hash, Pending) {
      assert Binds(s, Advance(id, msgs), id, Marker(hash, Applied));
    } else {
    }
  }

  lemma FinishMarks(s: State, id: Id, msgs: set<MsgId>, o: Id)
    requires id in s.calls && Finishes(s.calls[id].pc)
    ensures MarkerFollows(s, Finish(s, id), Advance(id, msgs), o)
  {
    hide HeldFor, QueuedFor;
    match s.calls[id].pc
    case FinishUnowned => if id.job in s.jobs && s.jobs[id.job].terminal {} else {}
    case Finishing =>
    case FinishSawChunk(own) =>
    case FinishOwned => assert Binds(s, Advance(id, msgs), id, Marker(s.calls[id].hash, Accepted));
    case FinishTerminal =>
  }

  lemma OpenMarks(s: State, id: Id, hash: Hash, o: Id)
    ensures MarkerFollows(s, Open(s, id, hash), Start(id, hash), o)
  {
    if id in s.calls {
    } else if id !in s.markers {
      assert Binds(s, Start(id, hash), id, Marker(hash, Pending));
    } else if s.markers[id].hash != hash {
    } else {
      match s.markers[id].state
      case Pending =>
      case Applied =>
      case Accepted =>
    }
  }

  lemma EndMarks(s: State, worker: nat, restored: set<MsgId>, o: Id)
    ensures MarkerFollows(s, FinalizeEntry(s, worker, restored), Finalize(worker, restored), o)
  {
    hide RescuedFrom;
    if worker in s.workers {
      var c := s.workers[worker].entry.content;
      assert forall msg :: msg in c.owners ==> c.owners[msg] in JobsOf(c);
    }
  }

  lemma LooksMark(s: State, step: Step, o: Id)
    requires DrainStep(step) && !step.Finalize?
    ensures Apply(s, step).markers == s.markers
  {
    hide Read, Verdict, Divides, Mixed, JobsOf;
    match step
    case CheckRepairs(worker, seen) => ChecksLeave(s, worker, seen);
    case _ => hide CheckEntry;
  }

  /** Every marker is where the steps that bind and end it have left it. */
  lemma MarkersExactly(s: State, step: Step, o: Id)
    ensures MarkerFollows(s, Apply(s, step), step, o)
  {
    hide Open, Accept, Finish, FinalizeEntry, TakesOver, TaggedWrites, MarkerFollows;
    match step
    case Start(id, hash) => OpenMarks(s, id, hash, o);
    case Advance(id, msgs) =>
      if id in s.calls {
        if Finishes(s.calls[id].pc) { FinishMarks(s, id, msgs, o); } else { AcceptMarks(s, id, msgs, o); }
      } else {
        SameMarkers(s, s, step, o);
      }
    case Finalize(worker, restored) => EndMarks(s, worker, restored, o);
    case Reset => ResetMarks(s, o);
    case Prune(id) => PruneMarks(s, id, o);
    case _ =>
      if DrainStep(step) { LooksMark(s, step, o); }
      hide TakeEntry, SplitEntry, CheckEntry, VerifyJob, PutEntry;
      SameMarkers(s, Apply(s, step), step, o);
  }

  lemma SameMarkers(s: State, t: State, step: Step, o: Id)
    requires t.markers == s.markers && !Unbinds(s, step, o) && !exists m :: Binds(s, step, o, m)
    ensures MarkerFollows(s, t, step, o)
  {
  }

  lemma ResetMarks(s: State, o: Id)
    ensures MarkerFollows(s, ResetAll(s), Reset, o)
  {
  }

  lemma PruneMarks(s: State, id: Id, o: Id)
    ensures MarkerFollows(s, s.(markers := s.markers - {id}), Prune(id), o)
  {
  }

  // ----- The calls and the workers -----

  /** A call begins where its marker says, and only under the marker's hash: from the
      start, at the acknowledgement of work already put in, or with the answer at once. */
  lemma CallsBegin(s: State, id: Id, hash: Hash)
    ensures var t := Apply(s, Start(id, hash));
            var heard := id !in s.calls && (id in s.markers ==> s.markers[id].hash == hash);
            && (!heard ==> t == s)
            && (heard && (id in s.markers ==> s.markers[id].state == Pending) ==> id in t.calls && t.calls[id] == Call(hash, Bound))
            && (heard && id in s.markers && s.markers[id].state == Applied ==> id in t.calls && t.calls[id] == Call(hash, Finishing))
            && (heard && id in s.markers && s.markers[id].state == Accepted ==> id !in t.calls && t.returned == s.returned + {id})
  {
  }

  /** What a worker concludes from the generations it read: it is level with all of its
      jobs, overtaken by all of them, or must not touch its entry. */
  lemma VerdictExactly(c: Content, seen: map<JobId, nat>)
    requires JobsOf(c) <= seen.Keys
    ensures forall m :: m in c.owners ==> c.owners[m] in seen
    ensures Verdict(c, seen) == Some(Current({})) <==> forall m :: m in c.owners ==> seen[c.owners[m]] == c.gen
    ensures Verdict(c, seen) == Some(Superseded) <==> c.owners != map[] && forall m :: m in c.owners ==> seen[c.owners[m]] > c.gen
    ensures Verdict(c, seen) in {None, Some(Current({})), Some(Superseded)}
  {
    assert forall m :: m in c.owners ==> c.owners[m] in JobsOf(c);
    assert forall j :: j in JobsOf(c) ==> exists m :: m in c.owners && c.owners[m] == j;
    if c.owners != map[] {
      var m :| m in c.owners;
      assert c.owners[m] in JobsOf(c);
    }
    hide JobsOf;
  }

  /** The step sets this worker to its next point: it reads an entry, draws its verdict,
      sees a job terminal, or writes its entry back. */
  ghost predicate Becomes(s: State, step: Step, w: nat, next: Worker) {
    match step
    case Take(worker, key) => w == worker && w !in s.workers && key in s.queue && next == Worker(key, s.queue[key], Taken)
    case CheckRepairs(worker, seen) =>
      && w == worker && w in s.workers && s.workers[w].pc == Taken && Read(s, s.workers[w].entry.content, seen)
      && Verdict(s.workers[w].entry.content, seen).Some?
      && next == s.workers[w].(pc := Verdict(s.workers[w].entry.content, seen).value)
    case Verify(worker, job) =>
      && w == worker && w in s.workers && s.workers[w].pc.Current? && job in s.jobs && s.jobs[job].terminal
      && (exists msg :: msg in s.workers[w].entry.content.owners && s.workers[w].entry.content.owners[msg] == job)
      && next == s.workers[w].(pc := Current(s.workers[w].pc.verified + {job}))
    case Put(worker, phase) =>
      w == worker && w in s.workers && s.workers[w].pc.Current? && next == s.workers[w].(entry := s.workers[w].entry.(phase := phase))
    case _ => false
  }

  /** The step ends this worker. */
  ghost predicate Stops(s: State, step: Step, w: nat) {
    match step
    case Crash => true
    case Quit(worker) => w == worker
    case Finalize(worker, _) => w == worker && w in s.workers && Ends(s.workers[w])
    case Split(worker, children) => w == worker && MaySplit(s, worker, children)
    case CheckRepairs(worker, seen) =>
      && w == worker && w in s.workers && s.workers[w].pc == Taken && Read(s, s.workers[w].entry.content, seen)
      && Verdict(s.workers[w].entry.content, seen).None?
    case _ => false
  }

  lemma WorkerDrains(s: State, step: Step, w: nat)
    requires DrainStep(step) && !step.CheckRepairs? && !step.Split? && !step.Finalize?
    ensures var t := Apply(s, step);
            && (forall next :: Becomes(s, step, w, next) ==> w in t.workers && t.workers[w] == next)
            && (!(exists next :: Becomes(s, step, w, next)) ==>
                  (w in t.workers <==> w in s.workers && !Stops(s, step, w)) && (w in t.workers ==> t.workers[w] == s.workers[w]))
  {
    match step
    case Take(worker, key) =>
      if worker !in s.workers && key in s.queue { assert Becomes(s, step, worker, Worker(key, s.queue[key], Taken)); }
    case Verify(worker, job) =>
      if worker in s.workers && s.workers[worker].pc.Current? && job in s.jobs && s.jobs[job].terminal {
        var c := s.workers[worker].entry.content;
        if job in JobsOf(c) {
          assert Becomes(s, step, worker, s.workers[worker].(pc := Current(s.workers[worker].pc.verified + {job})));
        }
      }
    case Put(worker, phase) =>
      if worker in s.workers && s.workers[worker].pc.Current? {
        assert Becomes(s, step, worker, s.workers[worker].(entry := s.workers[worker].entry.(phase := phase)));
      }
    case Quit(_) =>
  }

  lemma WorkerEnds(s: State, worker: nat, restored: set<MsgId>, w: nat)
    ensures var t := FinalizeEntry(s, worker, restored);
            && (w in t.workers <==> w in s.workers && !Stops(s, Finalize(worker, restored), w))
            && (w in t.workers ==> t.workers[w] == s.workers[w])
  {
    hide MarkersOf, RescuedFrom;
    if worker in s.workers {
      var c := s.workers[worker].entry.content;
      assert forall msg :: msg in c.owners ==> c.owners[msg] in JobsOf(c);
    }
  }

  lemma WorkerSplits(s: State, worker: nat, children: map<Key, Content>, w: nat)
    ensures var t := SplitEntry(s, worker, children);
            && (w in t.workers <==> w in s.workers && !Stops(s, Split(worker, children), w))
            && (w in t.workers ==> t.workers[w] == s.workers[w])
  {
    hide MaySplit;
    if MaySplit(s, worker, children) {} else {}
  }

  lemma WorkerChecks(s: State, worker: nat, seen: map<JobId, nat>, w: nat)
    ensures var step := CheckRepairs(worker, seen);
            var t := CheckEntry(s, worker, seen);
            && (forall next :: Becomes(s, step, w, next) ==> w in t.workers && t.workers[w] == next)
            && (!(exists next :: Becomes(s, step, w, next)) ==>
                  (w in t.workers <==> w in s.workers && !Stops(s, step, w)) && (w in t.workers ==> t.workers[w] == s.workers[w]))
  {
    if worker in s.workers && s.workers[worker].pc.Taken? && Read(s, s.workers[worker].entry.content, seen) {
      var c := s.workers[worker].entry.content;
      VerdictKnows(s, c, seen);
      var verdict := Verdict(c, seen);
      hide Read, Verdict, JobsOf;
      match verdict
      case None =>
      case Some(pc) => assert Becomes(s, CheckRepairs(worker, seen), worker, s.workers[worker].(pc := pc));
    }
  }

  /** Every drain worker is where the steps that move and end it have left it. */
  lemma WorkersExactly(s: State, step: Step, w: nat)
    requires Inv(s)
    ensures var t := Apply(s, step);
            && (forall next :: Becomes(s, step, w, next) ==> w in t.workers && t.workers[w] == next)
            && (!(exists next :: Becomes(s, step, w, next)) ==>
                  (w in t.workers <==> w in s.workers && !Stops(s, step, w)) && (w in t.workers ==> t.workers[w] == s.workers[w]))
  {
    hide Inv, TakesOver, Open, AdvanceCall, TaggedWrites, Becomes, Stops, MaySplit, CheckEntry, FinalizeEntry, SplitEntry;
    match step
    case Finalize(worker, restored) => WorkerEnds(s, worker, restored, w); NoneBecomes(s, step, w);
    case Split(worker, children) => WorkerSplits(s, worker, children, w); NoneBecomes(s, step, w);
    case CheckRepairs(worker, seen) => WorkerChecks(s, worker, seen, w);
    case Advance(id, msgs) => if id in s.calls { AdvanceFrame(s, id, msgs); } NoneBecomes(s, step, w);
    case Start(id, hash) => OpenWorkers(s, id, hash); NoneBecomes(s, step, w);
    case Crash => NoneBecomes(s, step, w);
    case _ =>
      if DrainStep(step) { WorkerDrains(s, step, w); hide Apply; } else { NoneBecomes(s, step, w); }
  }

  lemma NoneBecomes(s: State, step: Step, w: nat)
    requires !step.Take? && !step.CheckRepairs? && !step.Verify? && !step.Put?
    ensures forall next :: !Becomes(s, step, w, next)
    ensures !DrainStep(step) ==> (Stops(s, step, w) <==> step.Crash?)
  {
  }

  lemma OpenWorkers(s: State, id: Id, hash: Hash)
    ensures Open(s, id, hash).workers == s.workers
  {
    if id in s.calls {
    } else if id !in s.markers {
    } else if s.markers[id].hash != hash {
    } else {
      match s.markers[id].state
      case Pending =>
      case Applied =>
      case Accepted =>
    }
  }

  // ----- What the run remembers -----

  /** The history says what happened: an accepted write is an unsettled message of a job
      that was put in, an entry is a commit under the job's current generation, and a call
      has returned when it acknowledged, found its job terminal, or was answered at once. */
  lemma HistoryExactly(s: State, step: Step, w: Write, id: Id)
    ensures var t := Apply(s, step);
            && (w in t.accepted <==>
                  || (w in s.accepted && !step.Reset?)
                  || (!step.Finalize? && PutsIn(s, step, Held(w.msg, Some(w.job), w.gen, false))))
            && Entered(t, id) ==
               (if step.Reset? then 0
                else if step.Advance? && step.id == id && step.msgs != {} && id.job in s.jobs && s.jobs[id.job].gen == id.gen
                        && id in s.calls && s.calls[id].pc == Ready && id in s.markers && s.markers[id] == Marker(s.calls[id].hash, Pending)
                then Entered(s, id) + 1 else Entered(s, id))
            && (id in t.returned <==>
                  && !step.Reset?
                  && (|| id in s.returned
                      || (step.Advance? && step.id == id && id in s.calls && s.calls[id].pc in {FinishOwned, FinishTerminal})
                      || (step.Start? && step.id == id && id !in s.calls && id in s.markers && s.markers[id] == Marker(step.hash, Accepted))))
  {
    hide TakesOver, Open, AdvanceCall, Ends, AddHeld, FireChunk, EvolveJobs;
    match step
    case Start(o, hash) => OpenRemembers(s, o, hash);
    case Advance(o, msgs) => if o in s.calls { CallRemembers(s, o, msgs, w, id); }
    case AddOther(items) => AddRemembers(s, items, w);
    case Fire(batches) => FireRemembers(s, batches);
    case Jobs(jobs) => JobsRemember(s, jobs);
    case _ =>
      if DrainStep(step) { DrainFrame(s, step); hide Apply; }
  }

  lemma FireRemembers(s: State, batches: map<Key, Content>)
    ensures var t := FireChunk(s, batches); t.accepted == s.accepted && t.entered == s.entered && t.returned == s.returned
  {
    hide TakesOver;
  }

  lemma JobsRemember(s: State, jobs: map<JobId, Job>)
    ensures var t := EvolveJobs(s, jobs); t.accepted == s.accepted && t.entered == s.entered && t.returned == s.returned
  {
    hide Evolves;
  }

  lemma CallRemembers(s: State, o: Id, msgs: set<MsgId>, w: Write, id: Id)
    requires o in s.calls
    ensures var t := AdvanceCall(s, o, msgs);
            && (w in t.accepted <==> w in s.accepted || PutsIn(s, Advance(o, msgs), Held(w.msg, Some(w.job), w.gen, false)))
            && Entered(t, id) ==
               (if o == id && msgs != {} && id.job in s.jobs && s.jobs[id.job].gen == id.gen
                   && s.calls[id].pc == Ready && id in s.markers && s.markers[id] == Marker(s.calls[id].hash, Pending)
                then Entered(s, id) + 1 else Entered(s, id))
            && t.returned == if s.calls[o].pc in {FinishOwned, FinishTerminal} then s.returned + {o} else s.returned
  {
    hide Accept, Finish, Commit, WithoutSuperseded, WithoutQueued;
    if Finishes(s.calls[o].pc) {
      FinishRemembers(s, o);
    } else {
      AcceptLeaves(s, o, msgs);
      if s.calls[o].pc == Ready { CommitRemembers(s, o, s.calls[o].hash, msgs, w); }
    }
  }

  lemma AddRemembers(s: State, items: set<Held>, w: Write)
    ensures var t := AddHeld(s, items);
            && (w in t.accepted <==> w in s.accepted || PutsIn(s, AddOther(items), Held(w.msg, Some(w.job), w.gen, false)))
            && t.entered == s.entered && t.returned == s.returned
  {
    if exists m :: m in items && m.settled {
    } else {
      if w in TaggedWrites(items) {
        var m :| m in items && m.job.Some? && w == Write(m.job.value, m.gen, m.msg);
        assert m == Held(w.msg, Some(w.job), w.gen, false);
      }
    }
  }

  lemma OpenRemembers(s: State, o: Id, hash: Hash)
    ensures var t := Open(s, o, hash);
            && t.accepted == s.accepted && t.entered == s.entered
            && t.returned == if o !in s.calls && o in s.markers && s.markers[o] == Marker(hash, MarkerState.Accepted) then s.returned + {o} else s.returned
  {
    if o in s.calls {
    } else if o !in s.markers {
    } else if s.markers[o].hash != hash {
    } else {
      match s.markers[o].state
      case Pending =>
      case Applied =>
      case Accepted =>
    }
  }

  lemma FinishRemembers(s: State, o: Id)
    requires o in s.calls && Finishes(s.calls[o].pc)
    ensures var t := Finish(s, o);
            && t.accepted == s.accepted && t.entered == s.entered
            && t.returned == if s.calls[o].pc in {FinishOwned, FinishTerminal} then s.returned + {o} else s.returned
  {
    hide HeldFor, QueuedFor;
    match s.calls[o].pc
    case FinishUnowned => if o.job in s.jobs && s.jobs[o.job].terminal {} else {}
    case Finishing =>
    case FinishSawChunk(own) =>
    case FinishOwned =>
    case FinishTerminal =>
  }

  lemma CommitRemembers(s: State, o: Id, hash: Hash, msgs: set<MsgId>, w: Write)
    requires o in s.calls && s.calls[o] == Call(hash, Ready)
    ensures var t := Commit(s, o, hash, msgs);
            var pending := o in s.markers && s.markers[o] == Marker(hash, Pending);
            && t.returned == s.returned
            && (w in t.accepted <==> w in s.accepted || PutsIn(s, Advance(o, msgs), Held(w.msg, Some(w.job), w.gen, false)))
            && t.entered == (if pending && msgs != {} && o.job in s.jobs && s.jobs[o.job].gen == o.gen
                             then s.entered[o := Entered(s, o) + 1] else s.entered)
  {
    hide HeldAs;
  }

  // ----- What is taken out stays out -----

  /** What a step takes out is held again only if a later step puts it in. */
  lemma {:induction false} OutUntilPutIn(s: State, first: Step, steps: seq<Step>, m: Held)
    requires TakesOut(s, first, m) && m in Run(Apply(s, first), steps).chunk
    ensures PutsIn(s, first, m) || exists i :: 0 <= i < |steps| && PutsIn(Run(Apply(s, first), steps[..i]), steps[i], m)
  {
    var t := Apply(s, first);
    hide Apply, TakesOut, PutsIn;
    if steps == [] {
      ChunkExactly(s, first, m);
    } else {
      var front := steps[..|steps| - 1];
      ChunkExactly(Run(t, front), steps[|steps| - 1], m);
      if m in Run(t, front).chunk {
        OutUntilPutIn(s, first, front, m);
        if !PutsIn(s, first, m) {
          var i :| 0 <= i < |front| && PutsIn(Run(t, front[..i]), front[i], m);
          assert front[..i] == steps[..i] && front[i] == steps[i];
        }
      }
    }
  }

  /** A call drops what its generation supersedes before it looks for its work, and what is
      queued already before it takes the work for its own. Whatever runs after: at its
      commit, or at any later moment, such a copy is held only if a step put it in since. */
  lemma StaleCopiesAreNew(s: State, id: Id, msgs: set<MsgId>, steps: seq<Step>, m: Held)
    requires id in s.calls && m.job == Some(id.job)
    requires || (s.calls[id].pc == GenChecked && m.gen < id.gen)
             || (s.calls[id].pc == Owned && m.gen == id.gen && OwnedCopy(s.queue, id.job, id.gen, m.msg))
    requires m in Run(Apply(s, Advance(id, msgs)), steps).chunk
    ensures exists i :: 0 <= i < |steps| && PutsIn(Run(Apply(s, Advance(id, msgs)), steps[..i]), steps[i], m)
  {
    OutUntilPutIn(s, Advance(id, msgs), steps, m);
    hide Run, Apply, OwnedCopy;
  }
}

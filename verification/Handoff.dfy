/** The crash-safe handoff into the per-user queue and the way messages leave it.
    Handoff calls and drain workers interleave at every storage access; a worker may
    run without holding the lease, a call may die anywhere, the isolate may crash, and
    the job rows in D1 move on underneath. */
module Handoff {
  import opened Wrappers

  type MsgId = string
  type JobId = string
  type Hash = string
  type Key = nat

  /** A job row: its repair generation, and whether its status is terminal. */
  datatype Job = Job(gen: nat, terminal: bool)

  /** A handoff names a job and the repair generation it was accepted under. */
  datatype Id = Id(job: JobId, gen: nat)

  /** A held message; `settled` marks the copies a rescue puts back. */
  datatype Held = Held(msg: MsgId, job: Option<JobId>, gen: nat, settled: bool)

  /** What an entry owns, fixed when its key is minted. */
  datatype Content = Content(gen: nat, owners: map<MsgId, JobId>, markers: set<Id>, rescued: bool)
  datatype Phase = Working | SettlementPending
  datatype Entry = Entry(content: Content, phase: Phase)

  datatype MarkerState = Pending | Applied | Accepted
  datatype Marker = Marker(hash: Hash, state: MarkerState)

  /** A handoff call, between its storage accesses. */
  datatype CallPc =
    | Bound | GenChecked | Dropped | SawChunk(own: bool) | Owned | Unowned | Ready | Applying
    | Finishing | FinishSawChunk(own: bool) | FinishOwned | FinishUnowned | FinishTerminal
  datatype Call = Call(hash: Hash, pc: CallPc)

  /** A drain worker: the entry it read, and which of its jobs it has seen terminal. */
  datatype WorkerPc = Taken | Superseded | Current(verified: set<JobId>)
  datatype Worker = Worker(key: Key, entry: Entry, pc: WorkerPc)

  /** One message a job accepted at one generation. */
  datatype Write = Write(job: JobId, gen: nat, msg: MsgId)

  /** `book`, `accepted`, `entered` and `returned` are history: no step reads them to
      decide anything. `entered` counts the times a handoff put messages into the chunk
      while its generation was the job's current one. */
  datatype State = State(
    jobs: map<JobId, Job>, chunk: set<Held>, queue: map<Key, Entry>, markers: map<Id, Marker>,
    calls: map<Id, Call>, workers: map<nat, Worker>,
    book: map<Key, Content>, accepted: set<Write>, entered: map<Id, nat>, returned: set<Id>)

  // ----- Verdicts and presence -----

  /** D1 will never again ask for this generation of the job. */
  predicate Done(s: State, job: JobId, gen: nat) {
    job in s.jobs && (s.jobs[job].gen > gen || (s.jobs[job].gen == gen && s.jobs[job].terminal))
  }

  predicate InChunk(s: State, w: Write) {
    Held(w.msg, Some(w.job), w.gen, false) in s.chunk
  }

  predicate Owns(c: Content, w: Write) {
    c.gen == w.gen && w.msg in c.owners && c.owners[w.msg] == w.job
  }

  ghost predicate InQueue(s: State, w: Write) {
    exists k :: k in s.queue && Owns(s.queue[k].content, w)
  }

  /** Held, queued, or no longer wanted. */
  ghost predicate Safe(s: State, w: Write) {
    Done(s, w.job, w.gen) || InChunk(s, w) || InQueue(s, w)
  }

  function JobsOf(c: Content): set<JobId> {
    set m | m in c.owners :: c.owners[m]
  }

  predicate Mixed(c: Content) {
    exists m, n :: m in c.owners && n in c.owners && c.owners[m] != c.owners[n]
  }

  // ----- What a handoff call sees -----

  predicate HeldFor(s: State, id: Id) {
    exists m :: m in s.chunk && m.job == Some(id.job) && m.gen == id.gen
  }

  predicate QueuedFor(s: State, id: Id) {
    exists k :: k in s.queue && s.queue[k].content.gen == id.gen && id.job in JobsOf(s.queue[k].content)
  }

  predicate QueuedCopy(s: State, id: Id, msg: MsgId) {
    exists k :: k in s.queue && Owns(s.queue[k].content, Write(id.job, id.gen, msg))
  }

  // ----- Steps -----

  datatype Step =
    | Jobs(jobs: map<JobId, Job>)
    | AddOther(items: set<Held>)
    | Fire(batches: map<Key, Content>)
    | Start(id: Id, hash: Hash)
    | Advance(id: Id, msgs: set<MsgId>)
    | Abort(id: Id)
    | Take(worker: nat, key: Key)
    | Split(worker: nat, children: map<Key, Content>)
    | CheckRepairs(worker: nat, seen: map<JobId, nat>)
    | Verify(worker: nat, job: JobId)
    | Put(worker: nat, phase: Phase)
    | Finalize(worker: nat, restored: set<MsgId>)
    | Quit(worker: nat)
    | Prune(id: Id)
    | Crash
    | Reset

  /** Job rows: generations only rise, a terminal row is reopened only by raising its
      generation, and rows are not removed. */
  predicate Evolves(before: map<JobId, Job>, after: map<JobId, Job>) {
    forall j :: j in before ==>
      && j in after && after[j].gen >= before[j].gen
      && (after[j].gen == before[j].gen && before[j].terminal ==> after[j].terminal)
  }

  /** Fresh single-owner entries that take over every tagged message of the chunk, and
      nothing else. */
  predicate TakesOver(s: State, batches: map<Key, Content>) {
    && (forall k :: k in batches ==> k !in s.book && !Mixed(batches[k]))
    && (forall k, m :: k in batches && m in batches[k].owners ==>
          var c := batches[k];
          Held(m, Some(c.owners[m]), c.gen, false) in s.chunk || Held(m, Some(c.owners[m]), c.gen, true) in s.chunk)
    && (forall m :: m in s.chunk && m.job.Some? ==>
          exists k :: k in batches && Owns(batches[k], Write(m.job.value, m.gen, m.msg)))
  }

  /** Split children: minted once, and between them they own what the parent owned. */
  predicate Divides(s: State, parent: Content, children: map<Key, Content>) {
    && (forall k :: k in children ==> (k in s.book ==> s.book[k] == children[k]) && children[k].gen == parent.gen)
    && (forall k, m :: k in children && m in children[k].owners ==>
          m in parent.owners && children[k].owners[m] == parent.owners[m])
    && (forall m :: m in parent.owners ==>
          exists k :: k in children && Owns(children[k], Write(parent.owners[m], parent.gen, m)))
  }

  function Entries(contents: map<Key, Content>, phase: Phase): map<Key, Entry> {
    map k | k in contents :: Entry(contents[k], phase)
  }

  function Goto(s: State, id: Id, hash: Hash, pc: CallPc): State {
    s.(calls := s.calls[id := Call(hash, pc)])
  }

  function Leave(s: State, id: Id): State {
    s.(calls := s.calls - {id})
  }

  function Entered(s: State, id: Id): nat {
    if id in s.entered then s.entered[id] else 0
  }

  /** The marker transaction that opens a call, and its three early exits. */
  function Open(s: State, id: Id, hash: Hash): State {
    if id in s.calls then s
    else if id !in s.markers then Goto(s.(markers := s.markers[id := Marker(hash, Pending)]), id, hash, Bound)
    else if s.markers[id].hash != hash then s
    else match s.markers[id].state
      case Pending => Goto(s, id, hash, Bound)
      case Applied => Goto(s, id, hash, Finishing)
      case Accepted => s.(returned := s.returned + {id})
  }

  /** `addMessages` under the marker: refused unless the marker is still pending. */
  function Commit(s: State, id: Id, hash: Hash, msgs: set<MsgId>): State {
    if !(id in s.markers && s.markers[id] == Marker(hash, Pending)) then Leave(s, id)
    else
      var current := id.job in s.jobs && s.jobs[id.job].gen == id.gen;
      Goto(s.(chunk := s.chunk + HeldAs(id, msgs),
              markers := s.markers[id := Marker(hash, Applied)],
              accepted := s.accepted + WritesOf(id, msgs),
              entered := if current && msgs != {} then s.entered[id := Entered(s, id) + 1] else s.entered),
           id, hash, Applying)
  }

  /** What is held for the job under an older generation is dropped. */
  function WithoutSuperseded(s: State, id: Id): (chunk: set<Held>)
    ensures chunk <= s.chunk
  {
    set m | m in s.chunk && !(m.job == Some(id.job) && m.gen < id.gen)
  }

  /** Held copies of messages that are already queued are dropped. */
  function WithoutQueued(s: State, id: Id): (chunk: set<Held>)
    ensures chunk <= s.chunk
  {
    set m | m in s.chunk && !(m.job == Some(id.job) && m.gen == id.gen && QueuedCopy(s, id, m.msg))
  }

  function HeldAs(id: Id, msgs: set<MsgId>): (held: set<Held>)
    ensures forall m :: m in held ==> !m.settled
  {
    set m | m in msgs :: Held(m, Some(id.job), id.gen, false)
  }

  function WritesOf(id: Id, msgs: set<MsgId>): set<Write> {
    set m | m in msgs :: Write(id.job, id.gen, m)
  }

  predicate Finishes(pc: CallPc) {
    pc.Finishing? || pc.FinishSawChunk? || pc.FinishOwned? || pc.FinishUnowned? || pc.FinishTerminal?
  }

  /** `#acceptMessagesOnce` up to the applied marker. */
  function Accept(s: State, id: Id, msgs: set<MsgId>): State
    requires id in s.calls && !Finishes(s.calls[id].pc)
  {
    var hash := s.calls[id].hash;
    match s.calls[id].pc
    case Bound => if id.job in s.jobs && s.jobs[id.job].gen == id.gen then Goto(s, id, hash, GenChecked) else Leave(s, id)
    case GenChecked => Goto(s.(chunk := WithoutSuperseded(s, id)), id, hash, Dropped)
    case Dropped => Goto(s, id, hash, SawChunk(HeldFor(s, id)))
    case SawChunk(own) => Goto(s, id, hash, if own || QueuedFor(s, id) then Owned else Unowned)
    case Owned => Goto(s.(chunk := WithoutQueued(s, id)), id, hash, Applying)
    case Unowned => Goto(s, id, hash, if id.job in s.jobs && s.jobs[id.job].terminal then Applying else Ready)
    case Ready => Commit(s, id, hash, msgs)
    case Applying => Goto(s.(markers := s.markers[id := Marker(hash, Applied)]), id, hash, Finishing)
  }

  /** `#finishAppliedHandoff`: look for the work, or for a terminal verdict. */
  function Finish(s: State, id: Id): State
    requires id in s.calls && Finishes(s.calls[id].pc)
  {
    var hash := s.calls[id].hash;
    match s.calls[id].pc
    case Finishing => Goto(s, id, hash, FinishSawChunk(HeldFor(s, id)))
    case FinishSawChunk(own) => Goto(s, id, hash, if own || QueuedFor(s, id) then FinishOwned else FinishUnowned)
    case FinishUnowned => if id.job in s.jobs && s.jobs[id.job].terminal then Goto(s, id, hash, FinishTerminal) else s
    case FinishOwned =>
      Leave(s.(markers := s.markers[id := Marker(hash, Accepted)], returned := s.returned + {id}), id)
    case FinishTerminal => Leave(s.(markers := s.markers - {id}, returned := s.returned + {id}), id)
  }

  function AdvanceCall(s: State, id: Id, msgs: set<MsgId>): State
    requires id in s.calls
  {
    if Finishes(s.calls[id].pc) then Finish(s, id) else Accept(s, id, msgs)
  }

  /** The repair check: what the job rows said, each read at some moment up to now. */
  predicate Read(s: State, c: Content, seen: map<JobId, nat>) {
    forall j :: j in JobsOf(c) ==> j in s.jobs && j in seen && seen[j] <= s.jobs[j].gen
  }

  /** Behind its job: the check throws. Level: the entry is current. Overtaken: it is
      superseded. Overtaken for some of its jobs only: the check throws. */
  function Verdict(c: Content, seen: map<JobId, nat>): Option<WorkerPc>
    requires JobsOf(c) <= seen.Keys
  {
    if exists j :: j in JobsOf(c) && seen[j] < c.gen then None
    else if forall j :: j in JobsOf(c) ==> seen[j] == c.gen then Some(Current({}))
    else if forall j :: j in JobsOf(c) ==> seen[j] > c.gen then Some(Superseded)
    else None
  }

  function CheckRepair(s: State, worker: nat, seen: map<JobId, nat>): State
    requires worker in s.workers && Read(s, s.workers[worker].entry.content, seen)
  {
    var w := s.workers[worker];
    match Verdict(w.entry.content, seen)
    case None => s.(workers := s.workers - {worker})
    case Some(pc) => s.(workers := s.workers[worker := w.(pc := pc)])
  }

  /** The markers a finalized entry takes with it. */
  function MarkersOf(c: Content): set<Id> {
    c.markers + (set j | j in JobsOf(c) :: Id(j, 0))
  }

  /** What a rescue puts back: settled copies, untagged with any generation. */
  function RescuedFrom(w: Worker, restored: set<MsgId>): set<Held> {
    var c := w.entry.content;
    set m | m in restored && m in c.owners && w.pc.Current? :: Held(m, Some(c.owners[m]), 0, true)
  }

  /** The entry goes, with its markers. */
  function Remove(s: State, worker: nat, restored: set<MsgId>): State
    requires worker in s.workers
  {
    var w := s.workers[worker];
    s.(queue := s.queue - {w.key},
       markers := s.markers - MarkersOf(w.entry.content),
       chunk := s.chunk + RescuedFrom(w, restored),
       workers := s.workers - {worker})
  }

  predicate MayRemove(w: Worker) {
    w.pc.Superseded? || (w.pc.Current? && JobsOf(w.entry.content) <= w.pc.verified)
  }

  function EvolveJobs(s: State, jobs: map<JobId, Job>): State {
    if Evolves(s.jobs, jobs) then s.(jobs := jobs) else s
  }

  function TaggedWrites(items: set<Held>): set<Write> {
    set m | m in items && m.job.Some? :: Write(m.job.value, m.gen, m.msg)
  }

  /** `addMessages` outside a handoff. */
  function AddHeld(s: State, items: set<Held>): State {
    if exists m :: m in items && m.settled then s
    else s.(chunk := s.chunk + items, accepted := s.accepted + TaggedWrites(items))
  }

  function FireChunk(s: State, batches: map<Key, Content>): State {
    if TakesOver(s, batches)
    then s.(chunk := {}, queue := s.queue + Entries(batches, Working), book := s.book + batches)
    else s
  }

  function TakeEntry(s: State, worker: nat, key: Key): State {
    if worker !in s.workers && key in s.queue
    then s.(workers := s.workers[worker := Worker(key, s.queue[key], Taken)])
    else s
  }

  predicate MaySplit(s: State, worker: nat, children: map<Key, Content>) {
    && worker in s.workers && s.workers[worker].pc.Taken? && s.workers[worker].entry.phase == Working
    && Mixed(s.workers[worker].entry.content)
    && Divides(s, s.workers[worker].entry.content, children)
  }

  /** The split transaction does nothing when the entry has gone meanwhile. */
  function SplitEntry(s: State, worker: nat, children: map<Key, Content>): State {
    if !MaySplit(s, worker, children) then s
    else
      var key := s.workers[worker].key;
      var t := s.(workers := s.workers - {worker});
      if key in s.queue && key !in children
      then t.(queue := (s.queue - {key}) + Entries(children, s.queue[key].phase), book := s.book + children)
      else t
  }

  function CheckEntry(s: State, worker: nat, seen: map<JobId, nat>): State {
    if worker in s.workers && s.workers[worker].pc.Taken? && Read(s, s.workers[worker].entry.content, seen)
    then CheckRepair(s, worker, seen)
    else s
  }

  function VerifyJob(s: State, worker: nat, job: JobId): State {
    if worker in s.workers && s.workers[worker].pc.Current? && job in s.jobs && s.jobs[job].terminal
       && job in JobsOf(s.workers[worker].entry.content)
    then
      var w := s.workers[worker];
      s.(workers := s.workers[worker := w.(pc := Current(w.pc.verified + {job}))])
    else s
  }

  /** A worker writes back the entry it read, under its key, whatever is there now. */
  function PutEntry(s: State, worker: nat, phase: Phase): State {
    if worker in s.workers && s.workers[worker].pc.Current?
    then
      var w := s.workers[worker];
      var e := Entry(w.entry.content, phase);
      s.(queue := s.queue[w.key := e], workers := s.workers[worker := w.(entry := e)])
    else s
  }

  function FinalizeEntry(s: State, worker: nat, restored: set<MsgId>): State {
    if worker in s.workers && MayRemove(s.workers[worker]) then Remove(s, worker, restored) else s
  }

  function ResetAll(s: State): State {
    s.(chunk := {}, queue := map[], markers := map[], accepted := {}, entered := map[], returned := {})
  }

  function Apply(s: State, step: Step): State {
    match step
    case Jobs(jobs) => EvolveJobs(s, jobs)
    case AddOther(items) => AddHeld(s, items)
    case Fire(batches) => FireChunk(s, batches)
    case Start(id, hash) => Open(s, id, hash)
    case Advance(id, msgs) => if id in s.calls then AdvanceCall(s, id, msgs) else s
    case Abort(id) => Leave(s, id)
    case Take(worker, key) => TakeEntry(s, worker, key)
    case Split(worker, children) => SplitEntry(s, worker, children)
    case CheckRepairs(worker, seen) => CheckEntry(s, worker, seen)
    case Verify(worker, job) => VerifyJob(s, worker, job)
    case Put(worker, phase) => PutEntry(s, worker, phase)
    case Finalize(worker, restored) => FinalizeEntry(s, worker, restored)
    case Quit(worker) => s.(workers := s.workers - {worker})
    case Prune(id) => s.(markers := s.markers - {id})
    case Crash => s.(calls := map[], workers := map[])
    case Reset => ResetAll(s)
  }

  function Run(s: State, steps: seq<Step>): State {
    if steps == [] then s
    else Apply(Run(s, steps[..|steps| - 1]), steps[|steps| - 1])
  }

  function Initial(jobs: map<JobId, Job>): State {
    State(jobs, {}, map[], map[], map[], map[], map[], {}, map[], {})
  }
}

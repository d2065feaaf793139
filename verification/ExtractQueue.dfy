/** The durable extraction queue: moving a fired chunk into entries, and splitting an
    entry of mixed ownership, both seen through the one thing a drain sees - the
    messages, with their owning jobs, in storage order. */
module ExtractQueue {
  import opened Wrappers
  import opened Decimal
  import opened Batching
  import opened QueueOrder

  type JobId = Option<string>

  datatype Entry = Entry(messages: seq<Message>, jobByMessage: map<string, string>, splitFromMixed: bool)

  datatype Owned = Owned(message: Message, job: JobId)

  function JobOf(jobs: map<string, string>, id: string): JobId {
    if id in jobs then Some(jobs[id]) else None
  }

  function OwnedBy(messages: seq<Message>, jobs: map<string, string>): seq<Owned> {
    if messages == [] then []
    else
      var last := messages[|messages| - 1];
      OwnedBy(messages[..|messages| - 1], jobs) + [Owned(last, JobOf(jobs, last.id))]
  }

  function EntryMessages(e: Entry): seq<Owned> {
    OwnedBy(e.messages, e.jobByMessage)
  }

  function HeldMessages(chunk: seq<Held>): seq<Owned> {
    if chunk == [] then []
    else
      var last := chunk[|chunk| - 1];
      HeldMessages(chunk[..|chunk| - 1]) + [Owned(last.message, last.job)]
  }

  /** The messages of the listed entries, one after another. */
  function Flat(keys: seq<string>, queue: map<string, Entry>): seq<Owned>
    requires forall k :: k in keys ==> k in queue
  {
    if keys == [] then []
    else Flat(keys[..|keys| - 1], queue) + EntryMessages(queue[keys[|keys| - 1]])
  }

  /** One job owns every message of the entry. */
  predicate Uniform(e: Entry) {
    forall i :: 0 <= i < |e.messages| ==> JobOf(e.jobByMessage, e.messages[i].id) == JobOf(e.jobByMessage, e.messages[0].id)
  }

  /** Every key is one the enqueue code minted, or a split child of one that is gone;
      a child is never mixed. */
  ghost predicate WellKeyed(queue: map<string, Entry>, limit: nat) {
    forall k :: k in queue ==>
      && |k| >= ROOT_LENGTH
      && IsRoot(k[..ROOT_LENGTH], limit)
      && (|k| > ROOT_LENGTH ==> k[..ROOT_LENGTH] !in queue && Uniform(queue[k]))
  }

  // ----- Flattened listings -----

  lemma {:induction false} FlatConcat(a: seq<string>, b: seq<string>, queue: map<string, Entry>)
    requires forall k :: k in a || k in b ==> k in queue
    ensures forall k :: k in a + b ==> k in queue
    ensures Flat(a + b, queue) == Flat(a, queue) + Flat(b, queue)
  {
    hide EntryMessages;
    if b == [] {
      assert a + b == a;
    } else {
      var short, last := b[..|b| - 1], b[|b| - 1];
      FlatConcat(a, short, queue);
      assert a + b == (a + short) + [last];
      FlatSnoc(a + short, last, queue);
      FlatSnoc(short, last, queue);
      assert b == short + [last];
      hide Flat;
    }
  }

  lemma FlatSnoc(a: seq<string>, last: string, queue: map<string, Entry>)
    requires (forall k :: k in a ==> k in queue) && last in queue
    ensures forall k :: k in a + [last] ==> k in queue
    ensures Flat(a + [last], queue) == Flat(a, queue) + EntryMessages(queue[last])
  {
    hide EntryMessages;
    assert (a + [last])[..|a|] == a;
  }

  /** Only the listed entries matter. */
  lemma {:induction false} FlatFrame(keys: seq<string>, queue: map<string, Entry>, queue': map<string, Entry>)
    requires forall k :: k in keys ==> k in queue && k in queue' && queue'[k] == queue[k]
    ensures Flat(keys, queue') == Flat(keys, queue)
  {
    if keys != [] {
      assert keys[|keys| - 1] in keys;
      FlatFrame(keys[..|keys| - 1], queue, queue');
    }
  }

  lemma AscendingSnoc(keys: seq<string>, k: string)
    requires Ascending(keys) && forall x :: x in keys ==> Below(x, k)
    ensures Ascending(keys + [k])
  {
  }

  lemma {:induction false} OwnedByAt(messages: seq<Message>, jobs: map<string, string>)
    ensures |OwnedBy(messages, jobs)| == |messages|
    ensures forall i :: 0 <= i < |messages| ==> OwnedBy(messages, jobs)[i] == Owned(messages[i], JobOf(jobs, messages[i].id))
  {
    if messages != [] {
      OwnedByAt(messages[..|messages| - 1], jobs);
    }
  }

  lemma {:induction false} HeldMessagesAt(chunk: seq<Held>)
    ensures |HeldMessages(chunk)| == |chunk|
    ensures forall i :: 0 <= i < |chunk| ==> HeldMessages(chunk)[i] == Owned(chunk[i].message, chunk[i].job)
  {
    if chunk != [] {
      HeldMessagesAt(chunk[..|chunk| - 1]);
    }
  }

  // ----- Enqueueing a chunk -----

  function MessagesOf(batch: seq<Held>): seq<Message> {
    if batch == [] then [] else MessagesOf(batch[..|batch| - 1]) + [batch[|batch| - 1].message]
  }

  /** `Object.fromEntries` over the messages that have a job. */
  function OwnershipOf(batch: seq<Held>): map<string, string> {
    if batch == [] then map[]
    else
      var last := batch[|batch| - 1];
      var rest := OwnershipOf(batch[..|batch| - 1]);
      if last.job.Some? then rest[last.message.id := last.job.value] else rest
  }

  function EntryOf(batch: seq<Held>): Entry {
    Entry(MessagesOf(batch), OwnershipOf(batch), false)
  }

  lemma {:induction false} BatchAt(batch: seq<Held>, job: JobId)
    requires forall i :: 0 <= i < |batch| ==> batch[i].job == job
    ensures |MessagesOf(batch)| == |batch|
    ensures forall i :: 0 <= i < |batch| ==>
              MessagesOf(batch)[i] == batch[i].message && JobOf(OwnershipOf(batch), batch[i].message.id) == job
  {
    if batch != [] {
      var rest := batch[..|batch| - 1];
      BatchAt(rest, job);
      assert forall i :: 0 <= i < |rest| ==> batch[i] == rest[i];
      assert job.Some? ==> OwnershipOf(batch) == OwnershipOf(rest)[batch[|rest|].message.id := job.value];
      NoJobNoOwnership(batch);
    }
  }

  lemma {:induction false} NoJobNoOwnership(batch: seq<Held>)
    ensures (forall i :: 0 <= i < |batch| ==> batch[i].job == None) ==> OwnershipOf(batch) == map[]
  {
    if batch != [] {
      NoJobNoOwnership(batch[..|batch| - 1]);
      assert forall i :: 0 <= i < |batch| - 1 ==> batch[..|batch| - 1][i] == batch[i];
    }
  }

  /** Writing a batch as an entry loses neither a message nor its owner. */
  lemma EntryKeepsBatch(batch: seq<Held>)
    requires ValidBatch(batch)
    ensures EntryMessages(EntryOf(batch)) == HeldMessages(batch) && Uniform(EntryOf(batch))
  {
    BatchAt(batch, batch[0].job);
    OwnedByAt(MessagesOf(batch), OwnershipOf(batch));
    HeldMessagesAt(batch);
  }

  /** What `#enqueueChunkInTransaction` writes for the batches, one key per batch. */
  function PutBatches(queue: map<string, Entry>, qseq: nat, batches: seq<seq<Held>>, suffixes: seq<string>): map<string, Entry>
    requires |batches| <= |suffixes|
  {
    if batches == [] then queue
    else
      var n := |batches|;
      PutBatches(queue, qseq, batches[..n - 1], suffixes)[RootKey(qseq + n, suffixes[n - 1]) := EntryOf(batches[n - 1])]
  }

  /** A newly minted key lists after everything minted before it. */
  lemma NewKeyIsLast(k: string, limit: nat, n: nat, suffix: string)
    requires |k| >= ROOT_LENGTH && IsRoot(k[..ROOT_LENGTH], limit)
    requires limit < n < Pow10(SEQ_WIDTH) && |suffix| == SUFFIX_WIDTH
    ensures Below(k, RootKey(n, suffix)) && k[..ROOT_LENGTH] != RootKey(n, suffix)
  {
    var root, new_ := k[..ROOT_LENGTH], RootKey(n, suffix);
    var m: nat, old_: string :| m <= limit && m < Pow10(SEQ_WIDTH) && |old_| == SUFFIX_WIDTH && root == RootKey(m, old_);
    RootOrder(m, old_, n, suffix);
    RootLength(n, suffix);
    BelowIsAsymmetric(root, new_);
    BelowWhateverFollows(root, new_, k[ROOT_LENGTH..], "");
    assert root + k[ROOT_LENGTH..] == k && new_ + "" == new_;
  }

  /** Adding an entry under a key above all others appends it to the listing. */
  lemma PutLast(keys: seq<string>, queue: map<string, Entry>, key: string, e: Entry)
    requires IsListing(keys, queue) && key !in queue && forall k :: k in queue ==> Below(k, key)
    ensures IsListing(keys + [key], queue[key := e])
    ensures Flat(keys + [key], queue[key := e]) == Flat(keys, queue) + EntryMessages(e)
  {
    hide Below, EntryMessages;
    AscendingSnoc(keys, key);
    FlatFrame(keys, queue, queue[key := e]);
    assert (keys + [key])[..|keys|] == keys;
  }

  lemma PutNext(keys: seq<string>, queue: map<string, Entry>, limit: nat, batch: seq<Held>, suffix: string)
    requires WellKeyed(queue, limit) && IsListing(keys, queue) && ValidBatch(batch)
    requires limit + 1 < Pow10(SEQ_WIDTH) && |suffix| == SUFFIX_WIDTH
    ensures var key := RootKey(limit + 1, suffix);
            var queue' := queue[key := EntryOf(batch)];
            && WellKeyed(queue', limit + 1)
            && IsListing(keys + [key], queue')
            && Flat(keys + [key], queue') == Flat(keys, queue) + HeldMessages(batch)
  {
    hide Fixed, PadStart, Show, Pow10, ValidBatch, Uniform, RootKey, Below, EntryOf, EntryMessages, Flat;
    var key := RootKey(limit + 1, suffix);
    forall k | k in queue ensures Below(k, key) && k[..ROOT_LENGTH] != key && k != key {
      NewKeyIsLast(k, limit, limit + 1, suffix);
      BelowIsAsymmetric(key, key);
    }
    RootLength(limit + 1, suffix);
    EntryKeepsBatch(batch);
    assert IsRoot(key, limit + 1);
    NextWellKeyed(queue, limit, key, EntryOf(batch));
    PutLast(keys, queue, key, EntryOf(batch));
  }

  lemma NextWellKeyed(queue: map<string, Entry>, limit: nat, key: string, e: Entry)
    requires WellKeyed(queue, limit) && |key| == ROOT_LENGTH && IsRoot(key, limit + 1)
    requires forall k :: k in queue ==> k[..ROOT_LENGTH] != key
    ensures WellKeyed(queue[key := e], limit + 1)
  {
    assert key[..ROOT_LENGTH] == key;
    forall k | k in queue ensures IsRoot(k[..ROOT_LENGTH], limit + 1) {
      var n: nat, suffix: string :|
        n <= limit && n < Pow10(SEQ_WIDTH) && |suffix| == SUFFIX_WIDTH && k[..ROOT_LENGTH] == RootKey(n, suffix);
      assert n <= limit + 1;
    }
    hide Uniform, IsRoot;
  }

  function NewKeys(qseq: nat, suffixes: seq<string>, n: nat): seq<string>
    requires n <= |suffixes|
  {
    if n == 0 then [] else NewKeys(qseq, suffixes, n - 1) + [RootKey(qseq + n, suffixes[n - 1])]
  }

  lemma {:induction false} HeldConcat(parts: seq<seq<Held>>)
    requires parts != []
    ensures HeldMessages(Concat(parts)) == HeldMessages(Concat(parts[..|parts| - 1])) + HeldMessages(parts[|parts| - 1])
  {
    HeldSplit(Concat(parts[..|parts| - 1]), parts[|parts| - 1]);
  }

  lemma {:induction false} HeldSplit(a: seq<Held>, b: seq<Held>)
    ensures HeldMessages(a + b) == HeldMessages(a) + HeldMessages(b)
  {
    HeldMessagesAt(a + b);
    HeldMessagesAt(a);
    HeldMessagesAt(b);
  }

  /** A fired chunk joins the end of the queue: every entry already there drains first,
      and then the chunk's messages, in order, each under its own job. */
  lemma {:induction false} EnqueueAppends(
      keys: seq<string>, queue: map<string, Entry>, qseq: nat, batches: seq<seq<Held>>, suffixes: seq<string>)
    requires WellKeyed(queue, qseq) && IsListing(keys, queue)
    requires |batches| <= |suffixes| && forall i :: 0 <= i < |suffixes| ==> |suffixes[i]| == SUFFIX_WIDTH
    requires forall i :: 0 <= i < |batches| ==> ValidBatch(batches[i])
    requires qseq + |batches| < Pow10(SEQ_WIDTH)
    ensures var queue' := PutBatches(queue, qseq, batches, suffixes);
            var keys' := keys + NewKeys(qseq, suffixes, |batches|);
            && WellKeyed(queue', qseq + |batches|)
            && IsListing(keys', queue')
            && Flat(keys', queue') == Flat(keys, queue) + HeldMessages(Concat(batches))
    decreases |batches|
  {
    hide ValidBatch, RootKey, Pow10, Below, WellKeyed, EntryOf, EntryMessages, Flat, HeldMessages, Ascending;
    var n := |batches|;
    if n == 0 {
      assert keys + [] == keys;
      assert HeldMessages([]) == [] by { HeldMessagesAt([]); }
    } else {
      var before := batches[..n - 1];
      EnqueueAppends(keys, queue, qseq, before, suffixes);
      var queue1 := PutBatches(queue, qseq, before, suffixes);
      var keys1 := keys + NewKeys(qseq, suffixes, n - 1);
      PutNext(keys1, queue1, qseq + n - 1, batches[n - 1], suffixes[n - 1]);
      HeldConcat(batches);
      assert keys1 + [RootKey(qseq + n, suffixes[n - 1])] == keys + NewKeys(qseq, suffixes, n);
    }
  }

  // ----- Splitting an entry of mixed ownership -----

  /** The maximal runs of messages owned by one job. */
  predicate IsRuns(messages: seq<Message>, jobs: map<string, string>, runs: seq<seq<Message>>) {
    && Concat(runs) == messages
    && (forall i :: 0 <= i < |runs| ==> runs[i] != [] && OneJob(runs[i], jobs))
    && (forall i :: 0 < i < |runs| ==> RunJob(runs[i], jobs) != RunJob(runs[i - 1], jobs))
  }

  predicate OneJob(run: seq<Message>, jobs: map<string, string>) {
    forall i :: 0 <= i < |run| ==> JobOf(jobs, run[i].id) == RunJob(run, jobs)
  }

  function RunJob(run: seq<Message>, jobs: map<string, string>): JobId {
    if run == [] then None else JobOf(jobs, run[0].id)
  }

  function OwnedAll(run: seq<Message>, job: JobId): map<string, string> {
    if run == [] || job.None? then map[]
    else OwnedAll(run[..|run| - 1], job)[run[|run| - 1].id := job.value]
  }

  function ChildOf(e: Entry, run: seq<Message>): Entry {
    Entry(run, OwnedAll(run, RunJob(run, e.jobByMessage)), true)
  }

  lemma {:induction false} OwnedAllGives(run: seq<Message>, job: JobId)
    ensures forall i :: 0 <= i < |run| ==> JobOf(OwnedAll(run, job), run[i].id) == job
  {
    if run != [] {
      OwnedAllGives(run[..|run| - 1], job);
      assert forall i :: 0 <= i < |run| - 1 ==> run[..|run| - 1][i] == run[i];
    }
  }

  lemma ChildKeepsRun(e: Entry, run: seq<Message>)
    requires run != [] && OneJob(run, e.jobByMessage)
    ensures EntryMessages(ChildOf(e, run)) == OwnedBy(run, e.jobByMessage) && Uniform(ChildOf(e, run)) && ChildOf(e, run).splitFromMixed
  {
    OwnedAllGives(run, RunJob(run, e.jobByMessage));
    OwnedByAt(run, OwnedAll(run, RunJob(run, e.jobByMessage)));
    OwnedByAt(run, e.jobByMessage);
  }

  function PutChildren(queue: map<string, Entry>, key: string, e: Entry, runs: seq<seq<Message>>): map<string, Entry> {
    if runs == [] then queue
    else
      var n := |runs| - 1;
      PutChildren(queue, key, e, runs[..n])[ChildKey(key, n) := ChildOf(e, runs[n])]
  }

  function ChildKeys(key: string, n: nat): seq<string> {
    if n == 0 then [] else ChildKeys(key, n - 1) + [ChildKey(key, n - 1)]
  }

  function SplitQueue(queue: map<string, Entry>, key: string, runs: seq<seq<Message>>): map<string, Entry>
    requires key in queue
  {
    PutChildren(queue, key, queue[key], runs) - {key}
  }

  lemma {:induction false} ChildKeysAt(key: string, n: nat)
    ensures |ChildKeys(key, n)| == n && forall i :: 0 <= i < n ==> ChildKeys(key, n)[i] == ChildKey(key, i)
  {
    hide ChildKey;
    if n > 0 {
      ChildKeysAt(key, n - 1);
    }
  }

  lemma ChildExtends(key: string, i: nat)
    ensures Below(key, ChildKey(key, i)) && |ChildKey(key, i)| > |key| && ChildKey(key, i)[..|key|] == key
  {
    hide PadStart, Show;
    BelowExtension(key, ":split:" + PadStart(Show(i), SPLIT_WIDTH));
  }

  lemma ChildrenAscend(key: string, n: nat)
    requires n <= Pow10(SPLIT_WIDTH)
    ensures Ascending(ChildKeys(key, n))
  {
    hide ChildKey, Below, Pow10;
    ChildKeysAt(key, n);
    forall i, j | 0 <= i < j < n ensures Below(ChildKeys(key, n)[i], ChildKeys(key, n)[j]) {
      ChildOrder(key, i, j);
    }
  }

  lemma {:induction false} ChildrenFrame(queue: map<string, Entry>, key: string, e: Entry, runs: seq<seq<Message>>)
    ensures var after := PutChildren(queue, key, e, runs);
            && (forall k :: k in after <==> k in queue || k in ChildKeys(key, |runs|))
            && (forall k :: k in queue && k !in ChildKeys(key, |runs|) ==> after[k] == queue[k])
  {
    hide ChildKey, ChildOf;
    if runs != [] {
      ChildrenFrame(queue, key, e, runs[..|runs| - 1]);
    }
  }

  lemma {:induction false} ChildrenAt(queue: map<string, Entry>, key: string, e: Entry, runs: seq<seq<Message>>)
    requires |runs| <= Pow10(SPLIT_WIDTH)
    ensures var after := PutChildren(queue, key, e, runs);
            forall i :: 0 <= i < |runs| ==> ChildKey(key, i) in after && after[ChildKey(key, i)] == ChildOf(e, runs[i])
  {
    hide ChildKey, ChildOf, Pow10;
    if runs != [] {
      var n := |runs| - 1;
      ChildrenAt(queue, key, e, runs[..n]);
      ChildKeysAt(key, n);
      ChildKeysDiffer(key, n);
      assert forall i :: 0 <= i < n ==> ChildKeys(key, n)[i] in ChildKeys(key, n);
    }
  }

  lemma {:induction false} FlatOfRuns(
      keys: seq<string>, queue: map<string, Entry>, runs: seq<seq<Message>>, jobs: map<string, string>)
    requires |keys| == |runs| && forall k :: k in keys ==> k in queue
    requires forall i :: 0 <= i < |runs| ==> EntryMessages(queue[keys[i]]) == OwnedBy(runs[i], jobs)
    ensures Flat(keys, queue) == OwnedBy(Concat(runs), jobs)
  {
    hide EntryMessages, OwnedBy;
    if runs == [] {
      OwnedByAt([], jobs);
    } else {
      var n := |runs| - 1;
      FlatOfRuns(keys[..n], queue, runs[..n], jobs);
      OwnedSplit(Concat(runs[..n]), runs[n], jobs);
    }
  }

  /** The children's entries, read in key order, are the parent's messages. */
  lemma ChildrenHold(queue: map<string, Entry>, key: string, e: Entry, runs: seq<seq<Message>>)
    requires |runs| <= Pow10(SPLIT_WIDTH) && IsRuns(e.messages, e.jobByMessage, runs)
    ensures var after := PutChildren(queue, key, e, runs);
            && (forall k :: k in ChildKeys(key, |runs|) ==> k in after && Uniform(after[k]) && after[k].splitFromMixed)
            && Flat(ChildKeys(key, |runs|), after) == EntryMessages(e)
  {
    hide ChildKey, ChildOf, Pow10, Uniform, OneJob, EntryMessages, OwnedBy, PutChildren;
    ChildrenAt(queue, key, e, runs);
    ChildKeysAt(key, |runs|);
    forall i | 0 <= i < |runs|
      ensures EntryMessages(ChildOf(e, runs[i])) == OwnedBy(runs[i], e.jobByMessage) && Uniform(ChildOf(e, runs[i])) && ChildOf(e, runs[i]).splitFromMixed
    {
      ChildKeepsRun(e, runs[i]);
    }
    FlatOfRuns(ChildKeys(key, |runs|), PutChildren(queue, key, e, runs), runs, e.jobByMessage);
    assert EntryMessages(e) == OwnedBy(e.messages, e.jobByMessage) by { EntryMessagesAre(e); }
  }

  lemma EntryMessagesAre(e: Entry)
    ensures EntryMessages(e) == OwnedBy(e.messages, e.jobByMessage)
  {
  }

  lemma ChildKeysDiffer(key: string, n: nat)
    requires n < Pow10(SPLIT_WIDTH)
    ensures ChildKey(key, n) !in ChildKeys(key, n)
  {
    hide ChildKey, Below, Pow10;
    ChildKeysAt(key, n);
    forall i | 0 <= i < n ensures ChildKey(key, i) != ChildKey(key, n) {
      ChildOrder(key, i, n);
      BelowIsAsymmetric(ChildKey(key, n), ChildKey(key, n));
    }
  }

  lemma OwnedSplit(a: seq<Message>, b: seq<Message>, jobs: map<string, string>)
    ensures OwnedBy(a + b, jobs) == OwnedBy(a, jobs) + OwnedBy(b, jobs)
  {
    OwnedByAt(a + b, jobs);
    OwnedByAt(a, jobs);
    OwnedByAt(b, jobs);
  }

  /** Children list where the parent stood: above what was below it, below what was above. */
  lemma ChildStandsIn(key: string, other: string, i: nat)
    requires |key| == ROOT_LENGTH && |other| >= ROOT_LENGTH && other[..ROOT_LENGTH] != key
    ensures Below(other, key) ==> Below(other, ChildKey(key, i))
    ensures Below(key, other) ==> Below(ChildKey(key, i), other)
  {
    ChildExtends(key, i);
    var root, rest := other[..ROOT_LENGTH], other[ROOT_LENGTH..];
    var child := ChildKey(key, i)[ROOT_LENGTH..];
    assert other == root + rest && ChildKey(key, i) == key + child && key == key + "";
    BelowWhateverFollows(key, root, "", rest);
    BelowWhateverFollows(key, root, child, rest);
    BelowWhateverFollows(root, key, rest, "");
    BelowWhateverFollows(root, key, rest, child);
    hide ChildKey, Below;
  }

  lemma AscendingJoin(a: seq<string>, b: seq<string>)
    requires Ascending(a) && Ascending(b) && forall x, y :: x in a && y in b ==> Below(x, y)
    ensures Ascending(a + b)
  {
    hide Below;
    forall i, j | 0 <= i < j < |a + b| ensures Below((a + b)[i], (a + b)[j]) {
      if i < |a| && j >= |a| {
        assert (a + b)[i] in a && (a + b)[j] in b;
      }
    }
  }

  lemma AscendingParts(a: seq<string>, key: string, b: seq<string>)
    requires Ascending(a + [key] + b)
    ensures Ascending(a) && Ascending(b)
    ensures forall x :: x in a ==> Below(x, key)
    ensures forall y :: y in b ==> Below(key, y)
    ensures forall x, y :: x in a && y in b ==> Below(x, y)
  {
    hide Below;
    var all := a + [key] + b;
    assert forall i :: 0 <= i < |a| ==> all[i] == a[i];
    assert all[|a|] == key;
    assert forall i :: 0 <= i < |b| ==> all[|a| + 1 + i] == b[i];
  }

  lemma SplitListing(a: seq<string>, key: string, b: seq<string>, n: nat)
    requires Ascending(a + [key] + b) && n <= Pow10(SPLIT_WIDTH)
    requires |key| == ROOT_LENGTH
    requires forall k :: k in a || k in b ==> |k| >= ROOT_LENGTH && k[..ROOT_LENGTH] != key
    ensures Ascending(a + ChildKeys(key, n) + b)
  {
    hide ChildKey, Below, Pow10, Ascending;
    AscendingParts(a, key, b);
    ChildrenAscend(key, n);
    ChildKeysAt(key, n);
    var mid := ChildKeys(key, n);
    forall x, y | x in a && y in mid ensures Below(x, y) {
      var i :| 0 <= i < n && mid[i] == y;
      ChildStandsIn(key, x, i);
    }
    forall x, y | x in mid && y in b ensures Below(x, y) {
      var i :| 0 <= i < n && mid[i] == x;
      ChildStandsIn(key, y, i);
    }
    AscendingJoin(a, mid);
    AscendingJoin(a + mid, b);
  }

  /** An entry with two runs has two owners, so it was never itself a split child. */
  lemma OnlyRootsSplit(queue: map<string, Entry>, limit: nat, key: string, runs: seq<seq<Message>>)
    requires WellKeyed(queue, limit) && key in queue
    requires |runs| >= 2 && IsRuns(queue[key].messages, queue[key].jobByMessage, runs)
    ensures |key| == ROOT_LENGTH && key[..ROOT_LENGTH] == key && IsRoot(key, limit)
    ensures forall k :: k in queue && k != key ==> k[..ROOT_LENGTH] != key
  {
    hide IsRoot;
    var e := queue[key];
    TwoRunsAreMixed(e.messages, e.jobByMessage, runs);
    assert |key| == ROOT_LENGTH;
    assert key[..ROOT_LENGTH] == key;
    forall k | k in queue && k != key ensures k[..ROOT_LENGTH] != key {
      assert |k| == ROOT_LENGTH ==> k[..ROOT_LENGTH] == k;
    }
  }

  lemma TwoRunsAreMixed(messages: seq<Message>, jobs: map<string, string>, runs: seq<seq<Message>>)
    requires |runs| >= 2 && IsRuns(messages, jobs, runs)
    ensures exists i :: 0 <= i < |messages| && JobOf(jobs, messages[i].id) != JobOf(jobs, messages[0].id)
  {
    var head := runs[..2];
    assert head[..1] == [runs[0]] && [runs[0]][..0] == [];
    assert Concat([runs[0]]) == Concat([]) + runs[0] == runs[0];
    assert Concat(head) == Concat(head[..1]) + runs[1] == runs[0] + runs[1];
    ConcatPrefix(runs, 2);
    assert messages[0] == runs[0][0] && messages[|runs[0]|] == runs[1][0];
    assert RunJob(runs[1], jobs) != RunJob(runs[0], jobs);
  }

  lemma SplitFrame(
      queue: map<string, Entry>, limit: nat, key: string, runs: seq<seq<Message>>, a: seq<string>, b: seq<string>)
    requires WellKeyed(queue, limit) && IsListing(a + [key] + b, queue)
    requires 2 <= |runs| <= Pow10(SPLIT_WIDTH) && IsRuns(queue[key].messages, queue[key].jobByMessage, runs)
    ensures var mid := ChildKeys(key, |runs|);
            var queue' := SplitQueue(queue, key, runs);
            && (forall k :: k in queue ==> k !in mid)
            && (forall k :: k in queue' <==> (k in queue && k != key) || k in mid)
            && (forall k :: k in queue && k != key ==> queue'[k] == queue[k])
  {
    hide ChildKey, Below, Pow10, Uniform, IsRuns, PutChildren, IsRoot;
    OnlyRootsSplit(queue, limit, key, runs);
    ChildrenFrame(queue, key, queue[key], runs);
    ChildKeysAt(key, |runs|);
    forall k | k in ChildKeys(key, |runs|) ensures k !in queue && k != key {
      var i :| 0 <= i < |runs| && k == ChildKey(key, i);
      ChildExtends(key, i);
    }
  }

  lemma SplitStaysKeyed(queue: map<string, Entry>, limit: nat, key: string, runs: seq<seq<Message>>)
    requires WellKeyed(queue, limit) && key in queue
    requires 2 <= |runs| <= Pow10(SPLIT_WIDTH) && IsRuns(queue[key].messages, queue[key].jobByMessage, runs)
    ensures WellKeyed(SplitQueue(queue, key, runs), limit)
    ensures forall k :: k in SplitQueue(queue, key, runs) && k !in queue ==>
              && Uniform(SplitQueue(queue, key, runs)[k]) && SplitQueue(queue, key, runs)[k].splitFromMixed
              && |k| > |key| && k[..|key|] == key
    ensures forall k :: k in queue && k != key ==> k in SplitQueue(queue, key, runs) && SplitQueue(queue, key, runs)[k] == queue[k]
  {
    hide ChildKey, Below, Pow10, Uniform, IsRuns, PutChildren, IsRoot;
    OnlyRootsSplit(queue, limit, key, runs);
    ChildrenFrame(queue, key, queue[key], runs);
    ChildrenHold(queue, key, queue[key], runs);
    ChildKeysAt(key, |runs|);
    forall k | k in ChildKeys(key, |runs|) ensures |k| > |key| && k[..|key|] == key {
      var i :| 0 <= i < |runs| && k == ChildKey(key, i);
      ChildExtends(key, i);
    }
  }

  /** Splitting a mixed entry changes neither which messages the queue holds, nor their
      order, nor the job any of them belongs to. */
  lemma SplitKeepsOrder(
      queue: map<string, Entry>, limit: nat, key: string, runs: seq<seq<Message>>, a: seq<string>, b: seq<string>)
    requires WellKeyed(queue, limit) && IsListing(a + [key] + b, queue)
    requires 2 <= |runs| <= Pow10(SPLIT_WIDTH) && IsRuns(queue[key].messages, queue[key].jobByMessage, runs)
    ensures var mid := ChildKeys(key, |runs|);
            && IsListing(a + mid + b, SplitQueue(queue, key, runs))
            && Flat(a + mid + b, SplitQueue(queue, key, runs)) == Flat(a + [key] + b, queue)
  {
    hide ChildKey, Below, Pow10, Uniform, IsRuns, PutChildren, IsRoot, EntryMessages, SplitQueue;
    var mid := ChildKeys(key, |runs|);
    var queue' := SplitQueue(queue, key, runs);
    KeyOnce(a, key, b);
    OnlyRootsSplit(queue, limit, key, runs);
    SplitFrame(queue, limit, key, runs, a, b);
    assert forall k :: k in a || k in b ==> k in a + [key] + b;
    SplitListing(a, key, b, |runs|);
    SplitCovers(queue, queue', key, a, mid, b);
    MidHolds(queue, key, runs);
    hide Flat, IsListing;
    FlatThree(a, mid, b, queue');
    FlatThree(a, [key], b, queue);
    FlatFrame(a, queue, queue');
    FlatFrame(b, queue, queue');
    FlatOne(key, queue);
  }

  lemma FlatOne(key: string, queue: map<string, Entry>)
    requires key in queue
    ensures Flat([key], queue) == EntryMessages(queue[key])
  {
    hide EntryMessages;
    assert [key][..0] == [];
    assert Flat([key], queue) == Flat([], queue) + EntryMessages(queue[key]);
  }

  lemma FlatThree(a: seq<string>, m: seq<string>, b: seq<string>, queue: map<string, Entry>)
    requires forall k :: k in a || k in m || k in b ==> k in queue
    ensures forall k :: k in a + m + b ==> k in queue
    ensures Flat(a + m + b, queue) == Flat(a, queue) + Flat(m, queue) + Flat(b, queue)
  {
    hide Flat;
    FlatConcat(a, m, queue);
    FlatConcat(a + m, b, queue);
  }

  lemma MidHolds(queue: map<string, Entry>, key: string, runs: seq<seq<Message>>)
    requires key in queue && |runs| <= Pow10(SPLIT_WIDTH)
    requires IsRuns(queue[key].messages, queue[key].jobByMessage, runs)
    ensures forall k :: k in ChildKeys(key, |runs|) ==> k in SplitQueue(queue, key, runs)
    ensures Flat(ChildKeys(key, |runs|), SplitQueue(queue, key, runs)) == EntryMessages(queue[key])
  {
    hide ChildKey, Below, Pow10, Uniform, IsRuns, PutChildren, EntryMessages;
    ChildrenHold(queue, key, queue[key], runs);
    ChildKeysAt(key, |runs|);
    forall k | k in ChildKeys(key, |runs|) ensures k != key {
      var i :| 0 <= i < |runs| && k == ChildKey(key, i);
      ChildExtends(key, i);
    }
    FlatFrame(ChildKeys(key, |runs|), PutChildren(queue, key, queue[key], runs), SplitQueue(queue, key, runs));
  }

  lemma KeyOnce(a: seq<string>, key: string, b: seq<string>)
    requires Ascending(a + [key] + b)
    ensures key !in a && key !in b
  {
    AscendingParts(a, key, b);
    BelowIsAsymmetric(key, key);
    hide Below;
  }

  lemma SplitCovers(
      queue: map<string, Entry>, queue': map<string, Entry>, key: string, a: seq<string>, mid: seq<string>, b: seq<string>)
    requires IsListing(a + [key] + b, queue) && Ascending(a + mid + b) && key !in a && key !in b
    requires forall k :: k in queue' <==> (k in queue && k != key) || k in mid
    ensures IsListing(a + mid + b, queue')
  {
    hide Ascending;
  }

  // ----- What the queue holds -----

  /** The messages a drain meets, entry after entry in storage order. */
  ghost function Contents(queue: map<string, Entry>): seq<Owned> {
    ListingExists(queue);
    var keys :| IsListing(keys, queue);
    Flat(keys, queue)
  }

  lemma ContentsAre(keys: seq<string>, queue: map<string, Entry>)
    requires IsListing(keys, queue)
    ensures Contents(queue) == Flat(keys, queue)
  {
    var ls: seq<string> :| IsListing(ls, queue) && Contents(queue) == Flat(ls, queue);
    ListingUnique(keys, ls);
  }

  lemma EnqueueContents(queue: map<string, Entry>, qseq: nat, chunk: seq<Held>, batches: seq<seq<Held>>, suffixes: seq<string>)
    requires WellKeyed(queue, qseq) && IsSplit(chunk, batches)
    requires |batches| <= |suffixes| && forall i :: 0 <= i < |suffixes| ==> |suffixes[i]| == SUFFIX_WIDTH
    requires qseq + |batches| < Pow10(SEQ_WIDTH)
    ensures WellKeyed(PutBatches(queue, qseq, batches, suffixes), qseq + |batches|)
    ensures Contents(PutBatches(queue, qseq, batches, suffixes)) == Contents(queue) + HeldMessages(chunk)
  {
    hide ValidBatch, RootKey, Pow10, WellKeyed, PutBatches, Flat, HeldMessages, IsListing, Contents;
    ListingExists(queue);
    var keys :| IsListing(keys, queue);
    EnqueueAppends(keys, queue, qseq, batches, suffixes);
    ContentsAre(keys, queue);
    ContentsAre(keys + NewKeys(qseq, suffixes, |batches|), PutBatches(queue, qseq, batches, suffixes));
  }

  function TextLength(messages: seq<Message>): nat {
    if messages == [] then 0 else TextLength(messages[..|messages| - 1]) + |messages[|messages| - 1].text|
  }

  /** One owner, and within both caps. */
  predicate Capped(e: Entry) {
    Uniform(e) && |e.messages| <= 20 && TextLength(e.messages) <= 12_000
  }

  lemma {:induction false} TextOfBatch(batch: seq<Held>)
    ensures TextLength(MessagesOf(batch)) == Chars(batch) && |MessagesOf(batch)| == |batch|
  {
    if batch != [] {
      TextOfBatch(batch[..|batch| - 1]);
      assert MessagesOf(batch)[..|MessagesOf(batch)| - 1] == MessagesOf(batch[..|batch| - 1]);
    }
  }

  /** What was queued stays, and what is new is capped. */
  ghost predicate Extends(before: map<string, Entry>, after: map<string, Entry>) {
    && (forall k :: k in before ==> k in after && after[k] == before[k])
    && (forall k :: k in after && k !in before ==> Capped(after[k]) && !after[k].splitFromMixed)
  }

  lemma {:induction false} EnqueueExtends(queue: map<string, Entry>, qseq: nat, batches: seq<seq<Held>>, suffixes: seq<string>)
    requires WellKeyed(queue, qseq) && forall i :: 0 <= i < |batches| ==> ValidBatch(batches[i])
    requires |batches| <= |suffixes| && forall i :: 0 <= i < |suffixes| ==> |suffixes[i]| == SUFFIX_WIDTH
    requires qseq + |batches| < Pow10(SEQ_WIDTH)
    ensures Extends(queue, PutBatches(queue, qseq, batches, suffixes))
    decreases |batches|
  {
    hide RootKey, Pow10, WellKeyed, EntryOf, Capped, ValidBatch;
    if batches != [] {
      var n := |batches|;
      EnqueueExtends(queue, qseq, batches[..n - 1], suffixes);
      NewRootIsFresh(queue, qseq, qseq + n, suffixes[n - 1]);
      CappedBatch(batches[n - 1]);
    }
  }

  lemma CappedBatch(batch: seq<Held>)
    requires ValidBatch(batch)
    ensures Capped(EntryOf(batch)) && !EntryOf(batch).splitFromMixed
  {
    EntryKeepsBatch(batch);
    TextOfBatch(batch);
  }

  lemma NewRootIsFresh(queue: map<string, Entry>, limit: nat, n: nat, suffix: string)
    requires WellKeyed(queue, limit) && limit < n < Pow10(SEQ_WIDTH) && |suffix| == SUFFIX_WIDTH
    ensures RootKey(n, suffix) !in queue
  {
    hide Pow10, Show, PadStart, Uniform;
    var key := RootKey(n, suffix);
    RootLength(n, suffix);
    assert key[..ROOT_LENGTH] == key;
    if key in queue {
      NewKeyIsLast(key, limit, n, suffix);
      assert false;
    }
  }

  lemma SplitContents(queue: map<string, Entry>, limit: nat, key: string, runs: seq<seq<Message>>)
    requires WellKeyed(queue, limit) && key in queue
    requires 2 <= |runs| <= Pow10(SPLIT_WIDTH) && IsRuns(queue[key].messages, queue[key].jobByMessage, runs)
    ensures Contents(SplitQueue(queue, key, runs)) == Contents(queue)
  {
    hide ChildKey, Below, Pow10, Uniform, IsRuns, SplitQueue, Flat, WellKeyed, Contents, Ascending;
    ListingExists(queue);
    var keys :| IsListing(keys, queue);
    assert key in keys;
    var i :| 0 <= i < |keys| && keys[i] == key;
    var a, b := keys[..i], keys[i + 1..];
    assert keys == a + [key] + b;
    SplitKeepsOrder(queue, limit, key, runs, a, b);
    ContentsAre(keys, queue);
    ContentsAre(a + ChildKeys(key, |runs|) + b, SplitQueue(queue, key, runs));
  }

  // ----- Scanning for runs -----

  lemma UniformIsOneRun(e: Entry, runs: seq<seq<Message>>)
    requires IsRuns(e.messages, e.jobByMessage, runs)
    ensures |runs| <= 1 <==> Uniform(e)
  {
    if |runs| >= 2 {
      TwoRunsAreMixed(e.messages, e.jobByMessage, runs);
    } else if |runs| == 1 {
      assert Concat(runs[..0]) == [];
      assert e.messages == runs[0];
    }
  }

  lemma OpenRun(done: seq<Message>, message: Message, jobs: map<string, string>, runs: seq<seq<Message>>)
    requires IsRuns(done, jobs, runs)
    requires runs == [] || RunJob(runs[|runs| - 1], jobs) != JobOf(jobs, message.id)
    ensures IsRuns(done + [message], jobs, runs + [[message]])
  {
    ConcatSnoc(runs, [message]);
    hide Concat, JobOf;
  }

  lemma ExtendRun(done: seq<Message>, message: Message, jobs: map<string, string>, runs: seq<seq<Message>>)
    requires IsRuns(done, jobs, runs) && runs != []
    requires RunJob(runs[|runs| - 1], jobs) == JobOf(jobs, message.id)
    ensures IsRuns(done + [message], jobs, runs[|runs| - 1 := runs[|runs| - 1] + [message]])
  {
    var n := |runs| - 1;
    var longer := runs[n] + [message];
    ConcatSnoc(runs[..n], longer);
    assert runs[n := longer] == runs[..n] + [longer];
    assert Concat(runs) == Concat(runs[..n]) + runs[n];
    hide Concat, JobOf;
    assert RunJob(longer, jobs) == RunJob(runs[n], jobs);
    assert OneJob(longer, jobs);
  }

  lemma PutBatchesNext(queue: map<string, Entry>, qseq: nat, batches: seq<seq<Held>>, suffixes: seq<string>, i: nat)
    requires i < |batches| <= |suffixes|
    ensures PutBatches(queue, qseq, batches[..i + 1], suffixes)
            == PutBatches(queue, qseq, batches[..i], suffixes)[RootKey(qseq + i + 1, suffixes[i]) := EntryOf(batches[i])]
  {
    hide RootKey, EntryOf;
    assert batches[..i + 1][..i] == batches[..i];
  }

  lemma PutChildrenNext(queue: map<string, Entry>, key: string, e: Entry, runs: seq<seq<Message>>, i: nat)
    requires i < |runs|
    ensures PutChildren(queue, key, e, runs[..i + 1])
            == PutChildren(queue, key, e, runs[..i])[ChildKey(key, i) := ChildOf(e, runs[i])]
  {
    hide ChildKey, ChildOf;
    assert runs[..i + 1][..i] == runs[..i];
  }

  // ----- The stored queue -----

  class Queue {
    var chunk: seq<Held>
    var queue: map<string, Entry>
    var qseq: nat

    ghost predicate Valid() reads this {
      WellKeyed(queue, qseq)
    }

    /** What the caller read under the key is still there, unless the key is gone. */
    predicate Holds(key: string, entry: Entry) reads this {
      key in queue ==> queue[key] == entry
    }

    constructor ()
      ensures Valid() && chunk == [] && queue == map[] && qseq == 0
    {
      chunk, queue, qseq := [], map[], 0;
    }

    /** Move the fired chunk into entries. An oversized message refuses the whole
        transaction. `suffixes` are the random tails of the new keys. */
    method EnqueueChunk(suffixes: seq<string>) returns (r: Result<nat, string>)
      requires Valid()
      requires |chunk| <= |suffixes| && forall i :: 0 <= i < |suffixes| ==> |suffixes[i]| == SUFFIX_WIDTH
      modifies this
      ensures r.Err? <==> exists i :: 0 <= i < |old(chunk)| && |old(chunk)[i].message.text| > 12_000
      ensures r.Err? ==> unchanged(this)
      ensures r.Ok? ==> chunk == [] && qseq == old(qseq) + r.value
      ensures r.Ok? ==> forall other :: IsSplit(old(chunk), other) ==> r.value <= |other|
      ensures r.Ok? && qseq < Pow10(SEQ_WIDTH) ==> Valid() && Contents(queue) == Contents(old(queue)) + HeldMessages(old(chunk))
      ensures r.Ok? && qseq < Pow10(SEQ_WIDTH) ==> Extends(old(queue), queue)
    {
      var split := SplitChunk(chunk);
      hide IsSplit, RootKey, Pow10, WellKeyed, HeldMessages, Contents, EntryOf, PutBatches, Extends, ValidBatch;
      if split.Err? {
        return Err(split.error);
      }
      var batches := split.value;
      SplitIsShort(chunk, batches);
      NoBatchesYet(queue, qseq, batches, suffixes);
      for i := 0 to |batches|
        invariant chunk == old(chunk) && qseq == old(qseq) + i
        invariant queue == PutBatches(old(queue), old(qseq), batches[..i], suffixes)
      {
        PutBatchesNext(old(queue), old(qseq), batches, suffixes, i);
        qseq := qseq + 1;
        queue := queue[RootKey(qseq, suffixes[i]) := EntryOf(batches[i])];
      }
      assert batches[..|batches|] == batches;
      if qseq < Pow10(SEQ_WIDTH) {
        EnqueueContents(old(queue), old(qseq), chunk, batches, suffixes);
        SplitIsValid(chunk, batches);
        EnqueueExtends(old(queue), old(qseq), batches, suffixes);
      }
      chunk := [];
      r := Ok(|batches|);
    }

    /** Replace an entry that several jobs own by one child per run of messages. `entry`
        is what the caller read; the transaction does nothing when the key is gone. Four
        digits of child index are enough to keep the order of 10,000 messages. */
    method SplitMixedEntry(key: string, entry: Entry) returns (split: bool)
      requires Valid()
      modifies this`queue
      ensures split <==> !Uniform(entry)
      ensures !split || key !in old(queue) ==> queue == old(queue)
      ensures split ==> key !in queue
      ensures old(Holds(key, entry)) && |entry.messages| <= Pow10(SPLIT_WIDTH) ==>
                && Valid()
                && Contents(queue) == Contents(old(queue))
                && (forall k :: k in old(queue) && k != key ==> k in queue && queue[k] == old(queue)[k])
                && (forall k :: k in queue && k !in old(queue) ==>
                      Uniform(queue[k]) && queue[k].splitFromMixed && |k| > |key| && k[..|key|] == key)
    {
      hide IsRuns, PutChildren, ChildKey, ChildOf, WellKeyed, Contents, Pow10, Uniform, Below;
      var messages, jobs := entry.messages, entry.jobByMessage;
      var runs: seq<seq<Message>> := [];
      NoRunsYet(messages, jobs);
      for i := 0 to |messages|
        invariant queue == old(queue)
        invariant |runs| <= i && IsRuns(messages[..i], jobs, runs)
      {
        assert messages[..i + 1] == messages[..i] + [messages[i]];
        if runs == [] || RunJob(runs[|runs| - 1], jobs) != JobOf(jobs, messages[i].id) {
          OpenRun(messages[..i], messages[i], jobs, runs);
          runs := runs + [[messages[i]]];
        } else {
          ExtendRun(messages[..i], messages[i], jobs, runs);
          runs := runs[|runs| - 1 := runs[|runs| - 1] + [messages[i]]];
        }
      }
      assert messages[..|messages|] == messages;
      UniformIsOneRun(entry, runs);
      split := |runs| > 1;
      if split && key in queue {
        NoChildrenYet(queue, key, entry, runs);
        for i := 0 to |runs|
          invariant queue == PutChildren(old(queue), key, entry, runs[..i])
        {
          PutChildrenNext(old(queue), key, entry, runs, i);
          queue := queue[ChildKey(key, i) := ChildOf(entry, runs[i])];
        }
        assert runs[..|runs|] == runs;
        queue := queue - {key};
        if old(queue)[key] == entry && |messages| <= Pow10(SPLIT_WIDTH) {
          SplitContents(old(queue), qseq, key, runs);
          SplitStaysKeyed(old(queue), qseq, key, runs);
        }
      }
    }
  }

  lemma NoRunsYet(messages: seq<Message>, jobs: map<string, string>)
    ensures IsRuns(messages[..0], jobs, [])
  {
  }

  lemma NoChildrenYet(queue: map<string, Entry>, key: string, e: Entry, runs: seq<seq<Message>>)
    ensures PutChildren(queue, key, e, runs[..0]) == queue
  {
  }

  lemma NoBatchesYet(queue: map<string, Entry>, qseq: nat, batches: seq<seq<Held>>, suffixes: seq<string>)
    ensures PutBatches(queue, qseq, batches[..0], suffixes) == queue
  {
  }

  lemma SplitIsValid(chunk: seq<Held>, batches: seq<seq<Held>>)
    requires IsSplit(chunk, batches)
    ensures forall i :: 0 <= i < |batches| ==> ValidBatch(batches[i])
  {
    hide ValidBatch;
  }

  lemma SplitIsShort(chunk: seq<Held>, batches: seq<seq<Held>>)
    requires IsSplit(chunk, batches)
    ensures |batches| <= |chunk|
  {
    hide ValidBatch;
    forall i | 0 <= i < |batches| ensures batches[i] != [] {
      ValidIsNonempty(batches[i]);
    }
    ConcatLong(batches);
  }

  lemma ValidIsNonempty(batch: seq<Held>)
    requires ValidBatch(batch)
    ensures batch != []
  {
  }

  lemma {:induction false} ConcatLong<T>(parts: seq<seq<T>>)
    requires forall i :: 0 <= i < |parts| ==> parts[i] != []
    ensures |parts| <= |Concat(parts)|
  {
    if parts != [] {
      ConcatLong(parts[..|parts| - 1]);
    }
  }
}

/** Splitting a fired chunk into queue entries: a greedy scan whose batches keep
    order and ownership, obey both caps, and are as few as any such split can be. */
module Batching {
  import opened Wrappers

  const MAX_ENTRY_MSGS := 20
  const MAX_ENTRY_CHARS := 12000

  /** A message as stored: its id and its text, measured in code points. */
  datatype Message = Message(id: string, text: string)

  /** A held message with the job and acceptance it belongs to. */
  datatype Held = Held(message: Message, job: Option<string>, accept: Option<string>)

  function Chars(batch: seq<Held>): nat {
    if batch == [] then 0 else Chars(batch[..|batch| - 1]) + |batch[|batch| - 1].message.text|
  }

  predicate OneOwner(batch: seq<Held>) {
    forall i :: 0 <= i < |batch| ==> batch[i].job == batch[0].job && batch[i].accept == batch[0].accept
  }

  predicate ValidBatch(batch: seq<Held>) {
    batch != [] && OneOwner(batch) && |batch| <= MAX_ENTRY_MSGS && Chars(batch) <= MAX_ENTRY_CHARS
  }

  function Concat<T>(parts: seq<seq<T>>): seq<T> {
    if parts == [] then [] else Concat(parts[..|parts| - 1]) + parts[|parts| - 1]
  }

  /** A contiguous split of the chunk into entries that obey the caps. */
  predicate IsSplit(chunk: seq<Held>, batches: seq<seq<Held>>) {
    Concat(batches) == chunk && forall i :: 0 <= i < |batches| ==> ValidBatch(batches[i])
  }

  /** Batch `i - 1` could not have taken the first message of batch `i`. */
  predicate Forced(batches: seq<seq<Held>>, i: nat)
    requires 0 < i < |batches|
  {
    batches[i] != [] && !ValidBatch(batches[i - 1] + [batches[i][0]])
  }

  predicate Saturated(batches: seq<seq<Held>>) {
    forall i :: 0 < i < |batches| ==> Forced(batches, i)
  }

  // ----- Saturated splits are optimal -----

  lemma {:induction false} CharsSplit(a: seq<Held>, b: seq<Held>)
    ensures Chars(a + b) == Chars(a) + Chars(b)
  {
    if b == [] {
      assert a + b == a;
    } else {
      assert (a + b)[..|a + b| - 1] == a + b[..|b| - 1];
      CharsSplit(a, b[..|b| - 1]);
    }
  }

  /** Any non-empty stretch of a valid batch is itself valid. */
  lemma SegmentValid(batch: seq<Held>, lo: nat, hi: nat)
    requires ValidBatch(batch) && lo < hi <= |batch|
    ensures ValidBatch(batch[lo..hi])
  {
    assert batch == batch[..lo] + batch[lo..hi] + batch[hi..];
    CharsSplit(batch[..lo] + batch[lo..hi], batch[hi..]);
    CharsSplit(batch[..lo], batch[lo..hi]);
  }

  /** Where batch `i` starts in the chunk. */
  function Offset<T>(batches: seq<seq<T>>, i: nat): nat
    requires i <= |batches|
  {
    |Concat(batches[..i])|
  }

  lemma {:induction false} ConcatPrefix<T>(batches: seq<seq<T>>, i: nat)
    requires i <= |batches|
    ensures Concat(batches[..i]) <= Concat(batches)
    decreases |batches| - i
  {
    if i == |batches| {
      assert batches[..i] == batches;
    } else {
      ConcatPrefix(batches, i + 1);
      assert batches[..i + 1][..i] == batches[..i];
    }
  }

  /** Batch `i` is the stretch of the chunk between its two offsets. */
  lemma BatchAt<T>(batches: seq<seq<T>>, i: nat)
    requires i < |batches|
    ensures Offset(batches, i) + |batches[i]| == Offset(batches, i + 1) <= |Concat(batches)|
    ensures Concat(batches)[Offset(batches, i)..Offset(batches, i + 1)] == batches[i]
  {
    ConcatPrefix(batches, i + 1);
    assert batches[..i + 1][..i] == batches[..i];
    assert Concat(batches)[..Offset(batches, i + 1)] == Concat(batches[..i]) + batches[i];
  }

  lemma SliceOfSlice<T>(s: seq<T>, lo: nat, hi: nat, from: nat, to: nat)
    requires lo <= from <= to <= hi <= |s|
    ensures s[lo..hi][from - lo..to - lo] == s[from..to]
  {
    var inner := s[lo..hi];
    forall k | 0 <= k < to - from ensures inner[from - lo..to - lo][k] == s[from..to][k] {
      assert inner[from - lo + k] == s[from + k];
    }
  }

  /** If a stretch `o0..o` of the chunk is one valid batch, so is any stretch inside it. */
  lemma InnerStretchValid(chunk: seq<Held>, o0: nat, g0: nat, g: nat, o: nat)
    requires o0 <= g0 <= g < |chunk| && o0 <= o <= |chunk|
    ensures g < o && ValidBatch(chunk[o0..o]) ==> ValidBatch(chunk[g0..g + 1])
  {
    if g < o && ValidBatch(chunk[o0..o]) {
      SegmentValid(chunk[o0..o], g0 - o0, g + 1 - o0);
      SliceOfSlice(chunk, o0, o, g0, g + 1);
    }
  }

  /** The stretch of the chunk a saturated split could not take in one batch. */
  lemma ForcedStretch(chunk: seq<Held>, batches: seq<seq<Held>>, i: nat)
    requires IsSplit(chunk, batches) && Saturated(batches) && 0 < i < |batches|
    ensures Offset(batches, i - 1) <= Offset(batches, i) < |chunk|
    ensures !ValidBatch(chunk[Offset(batches, i - 1)..Offset(batches, i) + 1])
  {
    hide ValidBatch, Concat;
    BatchAt(batches, i - 1);
    BatchAt(batches, i);
    var g0, g := Offset(batches, i - 1), Offset(batches, i);
    assert Forced(batches, i);
    assert chunk[g] == chunk[g..Offset(batches, i + 1)][0];
    assert chunk[g0..g + 1] == chunk[g0..g] + [chunk[g]];
  }

  /** After equally many batches the saturated split is never behind. */
  lemma {:induction false} SaturatedStaysAhead(chunk: seq<Held>, batches: seq<seq<Held>>, other: seq<seq<Held>>, i: nat)
    requires IsSplit(chunk, batches) && Saturated(batches) && IsSplit(chunk, other)
    requires i <= |batches| && i <= |other|
    ensures Offset(batches, i) >= Offset(other, i)
  {
    if i > 0 {
      SaturatedStaysAhead(chunk, batches, other, i - 1);
      BatchAt(other, i - 1);
      if i == |batches| {
        assert batches[..i] == batches;
      } else {
        ForcedStretch(chunk, batches, i);
        InnerStretchValid(chunk, Offset(other, i - 1), Offset(batches, i - 1), Offset(batches, i), Offset(other, i));
      }
    }
  }

  lemma SaturatedIsOptimal(chunk: seq<Held>, batches: seq<seq<Held>>, other: seq<seq<Held>>)
    requires IsSplit(chunk, batches) && Saturated(batches) && IsSplit(chunk, other)
    ensures |batches| <= |other|
  {
    if |other| < |batches| {
      SaturatedStaysAhead(chunk, batches, other, |other|);
      assert other[..|other|] == other;
      BatchAt(batches, |other|);
    }
  }

  // ----- The program -----

  /** The loop's state: everything before `i` is split, the last batch still open. */
  predicate Progress(done: seq<Held>, batches: seq<seq<Held>>, batch: seq<Held>) {
    if batch == [] then done == [] && batches == []
    else IsSplit(done, batches + [batch]) && Saturated(batches + [batch])
  }

  /** The enqueue loop. It refuses a chunk holding an oversized message, and otherwise
      returns the least number of entries any order-preserving split can have. */
  method SplitChunk(chunk: seq<Held>) returns (res: Result<seq<seq<Held>>, string>)
    ensures res.Err? <==> exists i :: 0 <= i < |chunk| && |chunk[i].message.text| > MAX_ENTRY_CHARS
    ensures res.Ok? ==> IsSplit(chunk, res.value)
    ensures res.Ok? ==> forall other :: IsSplit(chunk, other) ==> |res.value| <= |other|
  {
    hide IsSplit, Saturated, Concat, ValidBatch;
    var batches: seq<seq<Held>> := [];
    var batch: seq<Held> := [];
    var chars := 0;
    for i := 0 to |chunk|
      invariant forall k :: 0 <= k < i ==> |chunk[k].message.text| <= MAX_ENTRY_CHARS
      invariant Progress(chunk[..i], batches, batch)
      invariant batch != [] ==> ValidBatch(batch)
      invariant chars == Chars(batch)
    {
      var msg := chunk[i];
      var len := |msg.message.text|;
      if len > MAX_ENTRY_CHARS {
        return Err("MESSAGE_TOO_LARGE");
      }
      assert chunk[..i + 1] == chunk[..i] + [msg];
      BatchTest(batch, msg);
      if batch != [] && (msg.job != batch[0].job || msg.accept != batch[0].accept
                         || |batch| >= MAX_ENTRY_MSGS || chars + len > MAX_ENTRY_CHARS) {
        CloseBatch(chunk[..i], batches, batch, msg);
        SingletonValid(msg);
        batches := batches + [batch];
        batch, chars := [msg], len;
      } else {
        ExtendBatch(chunk[..i], batches, batch, msg);
        batch, chars := batch + [msg], chars + len;
      }
    }
    assert chunk[..|chunk|] == chunk;
    if batch != [] {
      batches := batches + [batch];
    }
    LoopResult(chunk, batches);
    res := Ok(batches);
  }

  /** The loop's test is exactly whether the open batch can take the message. */
  lemma BatchTest(batch: seq<Held>, msg: Held)
    requires |msg.message.text| <= MAX_ENTRY_CHARS && (batch != [] ==> ValidBatch(batch))
    ensures Chars(batch + [msg]) == Chars(batch) + |msg.message.text|
    ensures !ValidBatch(batch + [msg])
            <==> batch != [] && (msg.job != batch[0].job || msg.accept != batch[0].accept
                                 || |batch| >= MAX_ENTRY_MSGS || Chars(batch) + |msg.message.text| > MAX_ENTRY_CHARS)
  {
    CharsSplit(batch, [msg]);
    assert Chars([msg]) == |msg.message.text|;
    OwnerSnoc(batch, msg);
    hide OneOwner, Chars;
  }

  lemma OwnerSnoc(batch: seq<Held>, msg: Held)
    ensures batch == [] ==> OneOwner(batch + [msg])
    ensures batch != [] && OneOwner(batch) ==> (OneOwner(batch + [msg]) <==> msg.job == batch[0].job && msg.accept == batch[0].accept)
  {
    if batch != [] {
      assert (batch + [msg])[0] == batch[0] && (batch + [msg])[|batch|] == msg;
    }
  }

  lemma SingletonValid(msg: Held)
    requires |msg.message.text| <= MAX_ENTRY_CHARS
    ensures ValidBatch([msg]) && Chars([msg]) == |msg.message.text| && Chars([]) == 0
  {
  }

  lemma LoopResult(chunk: seq<Held>, batches: seq<seq<Held>>)
    requires batches == [] ==> chunk == []
    requires batches != [] ==> IsSplit(chunk, batches) && Saturated(batches)
    ensures IsSplit(chunk, batches)
    ensures forall other :: IsSplit(chunk, other) ==> |batches| <= |other|
  {
    forall other | IsSplit(chunk, other) ensures |batches| <= |other| {
      SaturatedIsOptimal(chunk, batches, other);
    }
  }

  lemma ConcatSnoc<T>(parts: seq<seq<T>>, last: seq<T>)
    ensures Concat(parts + [last]) == Concat(parts) + last
  {
    assert (parts + [last])[..|parts|] == parts;
  }

  lemma CloseBatch(done: seq<Held>, batches: seq<seq<Held>>, batch: seq<Held>, msg: Held)
    requires IsSplit(done, batches + [batch]) && Saturated(batches + [batch])
    requires |msg.message.text| <= MAX_ENTRY_CHARS && !ValidBatch(batch + [msg])
    ensures IsSplit(done + [msg], batches + [batch] + [[msg]]) && Saturated(batches + [batch] + [[msg]])
  {
    ConcatSnoc(batches + [batch], [msg]);
    assert Chars([msg]) == |msg.message.text|;
    var before, after := batches + [batch], batches + [batch] + [[msg]];
    forall i | 0 < i < |after| ensures Forced(after, i) {
      if i < |before| {
        assert Forced(before, i);
      }
    }
  }

  lemma ExtendBatch(done: seq<Held>, batches: seq<seq<Held>>, batch: seq<Held>, msg: Held)
    requires Progress(done, batches, batch) && ValidBatch(batch + [msg])
    ensures IsSplit(done + [msg], batches + [batch + [msg]]) && Saturated(batches + [batch + [msg]])
  {
    ConcatSnoc(batches, batch);
    ConcatSnoc(batches, batch + [msg]);
    var before, after := batches + [batch], batches + [batch + [msg]];
    forall i | 0 < i < |after| ensures Forced(after, i) {
      assert Forced(before, i);
    }
    forall i | 0 <= i < |after| ensures ValidBatch(after[i]) {
      if i < |batches| {
        assert after[i] == before[i];
      }
    }
  }
}

/** When the alarm goes off: the scan that picks the next wake, with its early stop,
    and the pick of the next runnable entry. */
module WakeClock {
  import opened Wrappers

  const SOON_MS := 250
  const LEASE_SLACK_MS := 1000
  const HELD_SLACK_MS := 1000
  const IDLE_MS := 30_000

  /** A queue entry as the scans see it. */
  datatype Item = Item(key: string, runAfter: int)

  /** The moment an item may be run, seen from `now`. */
  function DueAt(item: Item, now: int): int {
    Max(now + SOON_MS, item.runAfter)
  }

  /** The first moment, at least a quarter of a second ahead, at which an item may run: at that moment
      one may, and before it none may. A legacy job may run at once. */
  predicate NextDue(items: seq<Item>, legacy: nat, now: int, at: int) {
    && at >= now + 250
    && (if legacy > 0 then at == now + 250
        else
          && (exists i :: 0 <= i < |items| && MayRun(items[i], at, false, {}))
          && forall t, i :: now + 250 <= t < at && 0 <= i < |items| ==> !MayRun(items[i], t, false, {}))
  }

  lemma LeastIsNext(items: seq<Item>, legacy: nat, now: int, at: int)
    requires at >= now + SOON_MS && (legacy > 0 ==> at == now + SOON_MS)
    requires forall i :: 0 <= i < |items| ==> at <= DueAt(items[i], now)
    requires legacy == 0 ==> exists i :: 0 <= i < |items| && at == DueAt(items[i], now)
    ensures NextDue(items, legacy, now, at)
  {
    if legacy == 0 {
      var i :| 0 <= i < |items| && at == DueAt(items[i], now);
      assert MayRun(items[i], at, false, {});
    }
  }

  class Store {
    var legacy: nat
    var queue: seq<Item>          // in storage order
    var lastHeld: Option<int>     // timestamp of the last unsettled held message
    var lease: Option<int>        // when the current lease ends
    var alarm: Option<int>

    constructor (legacy: nat, queue: seq<Item>, lastHeld: Option<int>, lease: Option<int>, alarm: Option<int>)
      ensures this.legacy == legacy && this.queue == queue && this.lastHeld == lastHeld
      ensures this.lease == lease && this.alarm == alarm
    {
      this.legacy, this.queue, this.lastHeld, this.lease, this.alarm := legacy, queue, lastHeld, lease, alarm;
    }

    /** The lease holds wakes back until it ends. */
    function Floor(later: int): (f: Option<int>) reads this {
      if lease.Some? && lease.value > later then Some(lease.value + LEASE_SLACK_MS) else None
    }

    method ArmAlarm(at: int)
      modifies this`alarm
      ensures alarm.Some? && alarm.value <= at
      ensures old(alarm).Some? ==> alarm.value <= old(alarm).value
      ensures alarm == Some(at) || alarm == old(alarm)
    {
      if alarm.None? || alarm.value > at {
        alarm := Some(at);
      }
    }

    /** The earliest moment anything in the queue may run; the scan stops at the first
        item that is due at once, because nothing can be due sooner. */
    method EarliestDue(now: int) returns (earliest: Option<int>)
      ensures earliest.None? <==> legacy == 0 && queue == []
      ensures earliest.Some? ==> NextDue(queue, legacy, now, earliest.value)
    {
      earliest := if legacy > 0 then Some(now + SOON_MS) else None;
      var i := 0;
      while i < |queue| && earliest != Some(now + SOON_MS)
        invariant 0 <= i <= |queue|
        invariant earliest.None? <==> legacy == 0 && i == 0
        invariant earliest.Some? ==> earliest.value >= now + SOON_MS
        invariant legacy > 0 ==> earliest == Some(now + SOON_MS)
        invariant earliest.Some? ==> forall k :: 0 <= k < i ==> earliest.value <= DueAt(queue[k], now)
        invariant earliest.Some? && legacy == 0 ==> exists k :: 0 <= k < i && earliest.value == DueAt(queue[k], now)
      {
        var at := DueAt(queue[i], now);
        if earliest.None? || at < earliest.value {
          earliest := Some(at);
        }
        i := i + 1;
      }
      if earliest.Some? {
        LeastIsNext(queue, legacy, now, earliest.value);
      }
    }

    /** The moment the store should wake at, read off its fields: when the first item may
        run, but not before a live lease has ended; and for a held chunk alone, when it
        has been idle long enough. */
    ghost predicate ShouldWake(now: int, later: int, at: int)
      reads this`legacy, this`queue, this`lastHeld, this`lease
    {
      if legacy > 0 || queue != [] then
        exists due ::
          && NextDue(queue, legacy, now, due)
          && (if lease.Some? && lease.value > later then at >= due && at >= lease.value + 1000 && at in {due, lease.value + 1000}
              else at == due)
      else
        && lastHeld.Some? && at >= later + 1000 && at >= lastHeld.value + 30_000 + 1000
        && at in {later + 1000, lastHeld.value + 30_000 + 1000}
    }

    /** The exit gate. The alarm exists exactly when there is work; it is moved only to the
        moment the store should wake at, and kept only if it rings no later than that. */
    method GuaranteeWake(now: int, later: int)
      modifies this`alarm
      ensures alarm.Some? <==> legacy > 0 || queue != [] || lastHeld.Some?
      ensures alarm.Some? && alarm != old(alarm) ==>
                ShouldWake(now, later, alarm.value) && (old(alarm).Some? ==> alarm.value < old(alarm).value)
      ensures alarm.Some? && alarm == old(alarm) ==> exists at :: ShouldWake(now, later, at) && alarm.value <= at
    {
      var earliest := EarliestDue(now);
      if earliest.Some? && Floor(later).Some? {
        earliest := Some(Max(earliest.value, Floor(later).value));
      }
      if earliest.None? && lastHeld.Some? {
        earliest := Some(Max(later + HELD_SLACK_MS, lastHeld.value + IDLE_MS + HELD_SLACK_MS));
      }
      assert earliest.Some? ==> ShouldWake(now, later, earliest.value);
      if earliest.Some? {
        ArmAlarm(earliest.value);
        assert ShouldWake(now, later, earliest.value);
      } else {
        alarm := None;
      }
    }

    /** The oldest entry that may run now and that this drain has not yet attempted. When
        the queue offers none, a job an older build left behind is adopted under a new
        key behind everything queued, due at once. */
    method NextEntry(now: int, ignoreBackoff: bool, attempted: set<string>, newKey: string) returns (next: Option<nat>)
      modifies this`queue, this`legacy
      ensures next.None? <==> old(legacy) == 0 && NoneMayRun(old(queue), now, ignoreBackoff, attempted)
      ensures next.Some? ==> next.value < |queue| && NoneMayRun(queue[..next.value], now, ignoreBackoff, attempted)
      ensures NoneMayRun(old(queue), now, ignoreBackoff, attempted) && old(legacy) > 0 ==>
                && next == Some(|old(queue)|)
                && queue == old(queue) + [Item(newKey, 0)] && legacy == old(legacy) - 1
      ensures !(NoneMayRun(old(queue), now, ignoreBackoff, attempted) && old(legacy) > 0) ==>
                && queue == old(queue) && legacy == old(legacy)
                && (next.Some? ==> MayRun(queue[next.value], now, ignoreBackoff, attempted))
    {
      for i := 0 to |queue|
        invariant NoneMayRun(queue[..i], now, ignoreBackoff, attempted)
      {
        if queue[i].key !in attempted && (ignoreBackoff || queue[i].runAfter <= now) {
          return Some(i);
        }
        assert queue[..i + 1] == queue[..i] + [queue[i]];
      }
      assert queue[..|queue|] == queue;
      if legacy == 0 {
        return None;
      }
      next := Some(|queue|);
      queue, legacy := queue + [Item(newKey, 0)], legacy - 1;
    }
  }

  predicate NoneMayRun(items: seq<Item>, now: int, ignoreBackoff: bool, attempted: set<string>) {
    forall i :: 0 <= i < |items| ==> !MayRun(items[i], now, ignoreBackoff, attempted)
  }

  predicate MayRun(item: Item, now: int, ignoreBackoff: bool, attempted: set<string>) {
    item.key !in attempted && (ignoreBackoff || item.runAfter <= now)
  }
}

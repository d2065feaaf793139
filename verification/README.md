# Verified model of the spend ledger, the per-user queue and their neighbours

This project models the parts of the repository where concurrency, money and
accepted writes meet, and proves what they promise over every run.

**The provider spend ledger** (`Ledger`, `LedgerMoney`, `LedgerSafety`,
`LedgerReaper`, `LedgerFences`, `Settlement`, `ProviderStore`, priced by `RateCards` and
`LedgerPricing`, gated by `Breaker`, admitted by `AdmissionRules`). Each D1
batch is one atomic step over the reservation, daily, monthly and health tables. A
finisher or reaper that needs several round trips keeps what it has read in a call
record, so reservations, invocations, finishers, reapers, scrubs, deleters and breaker
probes interleave freely. `ProviderStore` is the same code statement by statement, as a
class over the tables, proved against those steps. Clocks are parameters; tokens are
fresh numbers.

**The per-user durable queue** (`Batching`, `Decimal`, `QueueOrder`, `ExtractQueue`,
`Wake`, `WakeClock`, `Handoff`, `HandoffSafety`, `HandoffMoves`, `HandoffOnce`,
`MemoryJobs`, `RetryLadder`, `Excerpt`, `Snapshot`, `Serialized`). `ExtractQueue` and `WakeClock` are the storage
operations in place: splitting a chunk into entries, splitting a mixed entry, arming the
alarm. `Wake` and `Handoff` are transition systems in which every storage access outside
a transaction or an exclusive block is a step of its own: handoff calls crash anywhere,
drain workers run beside each other without relying on the lease, the isolate dies, and
job rows move on underneath. `MemoryJobs` is the D1 job row, and the proof that its
operations are the ones `Handoff` allows.

**The shadow outbox** (`Shadow`, `ShadowMoves`, `ShadowOutbox`): claims, admissions and settlements
composed with the ledger of the first component, so that "charged at most once" is a
statement about reservation rows.

**Spelling repair** (`EditDistance`, `FuzzyIndex`): the two-row dynamic program against
the least cost of an edit script, and the bucketed index against a plain filter.

Invariants bound what a step may do; beside them stands, for each protocol, what a step
does do: `LedgerFences`, `LedgerPricing`, `Settlement`, `AdmissionRules`, `HandoffMoves`,
`ShadowMoves` and parts of `Wake`, `Breaker` and `MemoryJobs` say a second time, on the
fields of the state alone, which guard stands in the way, what is booked, what enters and
leaves a table, and are proved equal to the steps.

Where the code and its comments disagree, the model follows the code:

- `editDistance` is documented to return `max + 1` past the bound; it may return the
  true, larger distance. Either way the result is above `max` (src/huba/retrieval.js:134).
- `#armAlarm` says nothing may push an existing wake-up later. With the read and the
  write of the alarm interleaved, another call's earlier alarm can be overwritten;
  `Wake.MergePushesLaterExactly` says exactly when (src/durable/user-memory.js:1222-1232).
- `#guaranteeWake` says no path can observe work without an alarm. Three things can:
  a drain that puts an entry back after storage was cleared under it, so that the owner
  is no longer stored and the alarm fires for nothing; a call refused by its lifecycle
  check, which clears storage and the alarm in two accesses and does not guarantee a
  wake; and the death of the isolate before an alarm is armed
  (src/durable/user-memory.js:537-553, 1239-1244, 1960-1989, 3132-3144).
- A reservation estimate is documented as bytes divided by four; `estimateUnits` counts
  every byte as a token (src/ai/rate_cards.js:92-96, src/ai/provider_budget.js:136-157).

The runs behind the `#armAlarm` claim and the refusal assume that an access of another
call can fall between two consecutive storage accesses of one call. That is this model's
assumption wherever the code takes neither a transaction nor an exclusive block; a platform
that holds back other events while a storage access is pending shuts out such runs unless
both calls already have accesses under way. The crash needs no such assumption.

Some statements one might expect are false of the code. Each has a lemma with a concrete
run or input that breaks it, and one that says exactly when it fails or holds:

- a bucket never passes its ceiling: `LedgerMoney.CeilingCanBePassed`; it does exactly
  when a settlement outgrows what the bucket has left,
  `LedgerMoney.CeilingIsPassedExactly` for a step and `LedgerMoney.CeilingsHoldExactly`
  for a run;
- the reaper never releases an invoked row: `LedgerReaper.StaleClockLosesAnInvokedRow`;
  it does exactly when an invoke since the listing used an older clock,
  `LedgerReaper.InvokedRowReleasedExactly`;
- work at rest always has an alarm: `Wake.RefusalStrandsWork` and
  `Wake.CrashStrandsWork`; it loses it exactly by those two steps,
  `Wake.StepCoversExactly` and `Wake.RunCoversExactly`;
- that alarm always finds the owner: `Wake.ResetDuringDrainStrandsWork`; the owner is
  lost exactly when storage is cleared under another drain's entries,
  `Wake.StepKeepsOwnerExactly`, and the firing strands the work exactly when the owner
  is not stored, `Wake.FiringStrandsExactly`;
- an armed alarm is never moved later: `Wake.MergeCanPushLater`; it is exactly when a
  step since the call's read stored an earlier one that no step ended,
  `Wake.MergePushesLaterExactly`;
- a replayed handoff never puts its messages back: `HandoffOnce.StaleReplayReenters`; it
  does exactly when each of its reads finds nothing against it and its marker is still
  pending as it commits, `HandoffOnce.ReplayReentersExactly`;
- an acknowledged handoff is durable whatever resets happen:
  `HandoffOnce.ResetUnderHandoffLosesIt`; it is exactly when the job had its verdict as
  the reset came or something since brought its work back,
  `HandoffOnce.ResetUnderHandoffExactly` and `HandoffOnce.ResetKeepsAnswersExactly`;
- the excerpt search finds the largest fit: `Excerpt.ShortTextIsMissed`; it does exactly
  when the whole does not fit or the excerpt one short of it does,
  `Excerpt.LargestExactly`;
- a batch that wrote nothing is reconsidered once: `RetryLadder.OverlapReachesReads`;
  for workers that take turns it is, `RetryLadder.TurnsRescueOnce`, and its messages can
  be put back once more exactly as long as the entry is stored or a worker holds it,
  `RetryLadder.MoreRescuesExactly`, at most once for each read,
  `RetryLadder.RescuesWithinReads`.

`dafny verify dfyconfig.toml` checks the whole project.

## Model

| member | source | states |
|---|---|---|
| LedgerMoney.LedgerConservation | src/ai/provider_budget.js:549-582 | In every state any interleaving reaches, each daily bucket's reserved units are the sum of the estimates of its reserved and invoking rows and its used units the sum of the actuals of its terminal rows; the same for monthly cost. |
| LedgerMoney.DriftPoisonNeverFires | src/ai/provider_budget.js:836-872 | A settlement batch that wins its row always finds buckets that hold the row's estimate, so the ledger-drift poison is unreachable. |
| LedgerMoney.CeilingWithOvershoot | src/ai/provider_budget.js:566-576 | Every reachable bucket is within its ceiling plus the measured overshoot of its settled rows, and a reserve that succeeds ends with both of its buckets within their ceilings; one that fails leaves the rows alone. |
| LedgerMoney.CeilingCanBePassed | src/ai/provider_budget.js:915-923 | A concrete run from the empty ledger ends with a bucket past its ceiling, because reported usage above the estimate is booked. |
| LedgerMoney.CeilingIsPassedExactly | src/ai/provider_budget.js:830-866 | In any reachable state a step takes a bucket from within its ceiling to past it if and only if it is the winning batch of a settlement that charges the bucket more above the row's estimate than the bucket has left. |
| LedgerMoney.CeilingsHoldExactly | src/ai/provider_budget.js:896-925 | A bucket stays within its ceiling all along a run if and only if no step of the run is such a settlement. |
| LedgerMoney.InEstimateCosts | src/ai/provider_budget.js:884-925 | Usage within the attempts times the base estimate settles at no more than the units and cost reserved, priced on the rates stored with the row. |
| LedgerMoney.InEstimateRunsRespectCeilings | src/ai/provider_budget.js:896-925 | If every settlement of a run reports in-estimate usage, used plus reserved never passes a ceiling, in any bucket. |
| LedgerPricing.SnapshotIsListed | src/ai/rate_cards.js:22-80 | A model is priced exactly when it is on the price list for the class asked for, at its list price, and one listed for another class is told from one not listed. |
| LedgerPricing.UnnamedModel | src/ai/rate_cards.js:32-58 | A call that names no model is priced on the dearest model of its class. |
| LedgerPricing.ReservationHolds | src/ai/provider_budget.js:136-157 | A reservation row holds one attempt's units and price - a token for each byte, the requested output bound or 4096, or the records in whole hundreds, rounded up - for each of one to ten attempts. |
| Settlement.TransitionBooks | src/ai/provider_budget.js:812-925 | A transition applies exactly when the caller owns a row its verdict may close and the buckets hold the estimate; a settlement books the reported usage at the least whole price on the stored rates, a release nothing, an ambiguous end the estimate, and exactly the row's two buckets give the estimate back for it. |
| LedgerSafety.SingleInvocationSingleSettlement | src/ai/provider_budget.js:693-704 | Over any run an operation id crosses from reserved to invoking at most once, becomes terminal at most once, and is never invoked after. |
| LedgerSafety.MoneyMovesOnlyWithItsRow | src/ai/provider_budget.js:836-872 | Outside a reserve the totals change only when a row becomes terminal, by exactly that row's estimate out and its own charge in. |
| LedgerSafety.ExactlyOneApplied | src/ai/provider_budget.js:812-882 | Among any number of concurrent finishers and reapers of one row at most one reports applied, and the row then carries its verdict. |
| LedgerSafety.DeletionFenceHolds | src/ai/provider_budget.js:604-704 | Once a deleter's barrier stands at b and its check through b has passed, no Google reservation accepted from that user by b is invoking, then or after any further steps, scrubs included. |
| LedgerSafety.FenceTakesEffect | src/ai/provider_budget.js:720-768 | The check passing means no such row is invoking at that moment, whether its tenant columns are intact or already nulled. |
| LedgerFences.AdmitsExactly | src/ai/provider_budget.js:604-690 | The invocation guard admits a Google call exactly when it is a provider health check, or is fully identified and no fence stands: its user or account erased, its barrier passed, its project gone or at another epoch, a membership misplaced, its content past retention, its save or capture no longer running. |
| LedgerFences.InvokedExactly | src/ai/provider_budget.js:693-704 | In any step a row becomes invoking if and only if it is an invoke under the row's own token, in time, with the provider on, the breaker as the caller's gate saw it, and no fence in the way. |
| LedgerFences.CheckPassesExactly | src/ai/provider_budget.js:720-768 | The deleter's check passes exactly when no invoking tenant row within the window belongs to whom it names or has lost its tenant columns; it passes for a deleter who names nobody. |
| LedgerFences.BoundaryHolds | src/ai/provider_budget.js:720-768 | Once an account is erased, or a project closed, and the deleter's check has passed, nothing admitted inside that boundary is invoking, then or for as long as it stands. |
| LedgerFences.ScrubForgets | src/ai/provider_budget.js:777-810 | After a scrub no row the deleter names - by user, account, project or membership - keeps a tenant column, unless it is invoking or outside the window; every other row, and all money, is as it was. |
| LedgerFences.ControlMoves | src/ai/provider_budget.js:206-318 | Switches, breaker rows and the control plane move in their own steps only, and only so. |
| LedgerReaper.FreshClocksProtectListedRows | src/ai/provider_budget.js:951-975 | If invocations read clocks no earlier than the listing, a row listed as expired and never invoked can no longer become invoking. |
| LedgerReaper.InvokedRowReleasedExactly | src/ai/provider_budget.js:951-975 | Over any steps after the listing, a handle that means to release a row listed as never invoked takes it down while invoking if and only if some step since the listing invoked it on a clock before the listing's and no step closed it in between. |
| LedgerReaper.StaleClockLosesAnInvokedRow | src/ai/provider_budget.js:999-1068 | A concrete run in which a row is released while invoking, because admission reuses one captured time. |
| ProviderStore.Store.ReserveSpend | src/ai/provider_budget.js:447-589 | The statements with their rollback are the atomic reserve step, and with the health clause holding the caller is told the row exactly when the model is priced for its class, the id unused and both buckets have room - and otherwise which of these failed. |
| ProviderStore.Store.TransitionReservation | src/ai/provider_budget.js:812-882 | The settlement statements are the atomic transition, the lost race and the drift poison included; `Settlement.TransitionBooks` says what it books. |
| ProviderStore.Store.ReserveAndInvoke | src/ai/provider_budget.js:1025-1067 | Admitted means the row is new, this caller's and invoking, denied means nothing it reserved is still held; and with the health clause holding the answer is exactly the rules'. |
| ProviderStore.Store.ProviderAdmission | src/ai/provider_budget.js:999-1068 | A call is admitted if and only if it passes the door, its provider is on, the breaker is closed or its cooldown or probe lease over, its model priced, its id unused, both buckets have room and no fence stands - and each refusal carries the first reason that applies; the ledger stays sound, a denial leaves no spend and no probe, and a call turned away at the door changes nothing. |
| AdmissionRules.DecidesExactly | src/ai/provider_budget.js:206-245 | The gate passes a provider never seen or a closed breaker, tries a probe when the cooldown or the lease is over, and refuses with the reason that applies otherwise. |
| AdmissionRules.ReservesExactly | src/ai/provider_budget.js:447-589 | The reserve batch wins exactly on a priced model, an unused id and room in both buckets, read off the price list and the totals. |
| ProviderStore.Store.FinishProviderCall | src/ai/provider_budget.js:1070-1121 | A success with known usage settles the row, a failure known not to be charged releases it, everything else - a success without usage above all - is charged in full; the breaker hears of it unless another caller had closed the row. |
| ProviderStore.Store.ReapExpired | src/ai/provider_budget.js:951-975 | Exactly the longest-expired active rows, up to the limit, are closed: never-invoked ones released free, invoked ones charged in full, all others untouched; races with the rows' owners are stated in `LedgerReaper`. |
| ProviderStore.SecondFinishIsInert | src/ai/provider_budget.js:812-882 | After a transition has applied, a second one with any verdict loses the race and changes neither rows nor money. |
| ProviderStore.TransitionKeepsSound | src/ai/provider_budget.js:812-882 | Every transition keeps conservation and the overshoot bound and never meets drift. |
| ProviderStore.ReleaseRestores | src/ai/provider_budget.js:927-935 | Reserve followed by release puts every bucket back where it was. |
| RateCards.ReservationCoversUsage | src/ai/rate_cards.js:82-90 | Reserving n rounded-up prices covers one rounded-up price of n times the usage, for tokens and for rank packages. |
| RateCards.SnapshotPricesItsOwnClass | src/ai/rate_cards.js:55-80 | A priced snapshot has the requested class, never a moving alias, and a zero rate of every other kind, output included; with no model named it always exists. |
| Breaker.BreakerSafety | src/ai/provider_budget.js:206-318 | In every reachable state closed means both failure counts are below their trip limits, half-open means a probe token is stored, and the cooldown is the base doubled per failed probe, capped. |
| Breaker.TripsExactly | src/ai/provider_budget.js:289-318 | A closed breaker opens exactly on the untokened failure that is the fifth since the last success, or the second billing one, for the base cooldown. |
| Breaker.ProbeGrantedExactly | src/ai/provider_budget.js:206-245 | A probe is granted exactly when the cooldown or an earlier probe's lease is over, under a new token and a full lease. |
| Breaker.ReopensExactly | src/ai/provider_budget.js:247-288 | A half-open breaker reopens exactly on its own probe's failure, for the raised cooldown, or on its abandonment, for one second. |
| Breaker.OnlyTheStoredProbeCloses | src/ai/provider_budget.js:258-318 | An open or half-open breaker closes exactly on a success carrying the stored probe token, and is then as fresh as a new one. |
| Breaker.StaleReportsAreInert | src/ai/provider_budget.js:247-318 | Reports and abandonments of a superseded probe never change anything again, nor do outcomes of calls admitted before the trip while the breaker is not closed. |
| Breaker.ProbeLeaseExcludes | src/ai/provider_budget.js:206-245 | While a probe's lease runs, only its holder moves the breaker. |
| ExtractQueue.Queue.EnqueueChunk | src/durable/user-memory.js:1322-1424 | A chunk with an oversized message is refused whole; otherwise it becomes the least possible number of entries, each within both caps and with one owner, appended behind everything queued - which stays as it was - in order, each message under its own job. |
| ExtractQueue.EnqueueAppends | src/durable/user-memory.js:1364-1417 | The new keys list after every key minted before, root or split child, and the listed queue is the old one followed by the chunk. |
| ExtractQueue.Queue.SplitMixedEntry | src/durable/user-memory.js:2195-2234 | An entry is split exactly when several jobs own it; the queue's messages, their order and their jobs are unchanged, every child has one owner, and a vanished entry is left alone. |
| ExtractQueue.SplitKeepsOrder | src/durable/user-memory.js:2188-2234 | Child keys list where the parent stood, so the replacement leaves the global message order as it was. |
| QueueOrder.RootOrder | src/durable/user-memory.js:1307-1314 | A later sequence number lists later whatever the random suffixes. |
| QueueOrder.ChildOrder | src/durable/user-memory.js:2213-2217 | Split children list in segment order, up to the four digits of their index. |
| Batching.SplitChunk | src/durable/user-memory.js:1333-1370 | The scan's batches concatenate to the chunk, each has one job and one acceptance and obeys both caps, and no contiguous split obeying them has fewer. |
| Batching.SaturatedIsOptimal | src/durable/user-memory.js:1344-1363 | A split in which no batch could have taken the next message is at most as long as any other. |
| Wake.WakeGuarantee | src/durable/user-memory.js:1233-1289 | Over every interleaving of saves, enqueues, drains, kicks, alarms, resets, refusals and crashes in which no step takes the last thing that answers for the work: once no call is in flight, work whose owner is known has an alarm. |
| Wake.StepCoversExactly | src/durable/user-memory.js:1239-1289 | Work stops being answered for in exactly two ways: a refused call deletes the alarm while no other call answers, or the isolate dies with work that has no alarm. No other step of any call can do it. |
| Wake.RunCoversExactly | src/durable/user-memory.js:1239-1289 | Work is answered for all along a run if and only if the run has no such step. |
| Wake.NextWakeCovers | src/durable/user-memory.js:848-851 | However work was stranded, the next call that guarantees a wake answers for it. |
| Wake.RefusalStrandsWork | src/durable/user-memory.js:537-553 | A concrete run in which a refused call's second access deletes the alarm of a save that came after its first. |
| Wake.CrashStrandsWork | src/durable/user-memory.js:1834-1850 | A concrete run in which the isolate dies between an enqueue's commit and its arming. |
| Wake.StepKeepsOwnerExactly | src/durable/user-memory.js:1960-1973 | The owner of work and of entries in a drain's hands stays known through a step if and only if the step does not clear storage under another drain's entries; a drain that clears it itself gives up its own. |
| Wake.OrderlyWakeGuarantee | src/durable/user-memory.js:1933-1989 | If in addition storage is never cleared under another drain's entries - by a reset, a refusal or a drain's own lifecycle fence - the owner is always known and all work at rest has an alarm. |
| Wake.FiringStrandsExactly | src/durable/user-memory.js:3132-3144 | After any such run, with nothing in flight and work left, the alarm fires for nothing and is gone if and only if the owner is not stored. |
| Wake.ResetDuringDrainStrandsWork | src/durable/user-memory.js:3132-3144 | A concrete run with such a reset ends with work, no call in flight and no alarm. |
| Wake.AdvanceCovers | src/durable/user-memory.js:1245-1289 | Each read and write of a waking call, the delete and its recheck included, leaves uncovered work with a call that still answers for it; the one exception is a refused call's delete, and is exact. |
| Wake.WorkMoves | src/durable/user-memory.js:1233-1289 | Every entry, the held chunk, the legacy jobs and the stored owner after a step are exactly what was there and not removed or cleared, and what the step stored. |
| Wake.DrainsRemember | src/durable/user-memory.js:1956-1981 | A drain remembers exactly the entries it has read or adopted until it leaves its body, and leaves at once for an entry of a closed account. |
| Wake.CallsBegin | src/durable/user-memory.js:1933-1945 | A drain or an alarm behind another's lease owes a second arming past the lease; one that got the lease enters its body; and no other step starts a call. |
| Wake.LeaseIsLookedAt | src/durable/user-memory.js:1939-1945 | A call that owes the second arming does not end before it has looked at the lease, and no other call looks at it. |
| Wake.AloneIsAtomic | src/durable/user-memory.js:1245-1289 | Run uninterrupted, the reads and writes are one atomic wake: an alarm exactly when there is work, never later than before. |
| Wake.MergeCanPushLater | src/durable/user-memory.js:1233-1237 | A concrete interleaving of two arming calls moves an alarm later. |
| Wake.MergePushesLaterExactly | src/durable/user-memory.js:1233-1237 | A call about to write the alarm at t moves it later if and only if, since its read, some step stored one before t - another call's write or a save's own wake - and no step since overwrote it with a later one, deleted it, fired it or reset the store. |
| WakeClock.Store.GuaranteeWake | src/durable/user-memory.js:1245-1289 | The alarm exists exactly when there is work; it is moved only to the moment the store should wake at - the first at which some item may run, or the end of a live lease if that is later, or when a held chunk alone is idle - and kept only if it rings no later. |
| WakeClock.Store.EarliestDue | src/durable/user-memory.js:1250-1258 | The scan that stops at the first runnable item finds the first moment at which some item of the whole queue may run: at that moment one may, at no earlier one may any. |
| WakeClock.Store.NextEntry | src/durable/user-memory.js:1874-1907 | The pick is the oldest runnable entry not yet attempted; when the queue offers none, a legacy job is adopted behind it; and there is no pick exactly when both are exhausted. |
| HandoffOnce.HandoffExactlyOnce | src/durable/user-memory.js:872-1039 | Since the last reset a handoff's messages entered at most once under its current generation, over every sequence of calls, crashes, drains, repairs and prunes; and every accepted write is still held, queued or finished. |
| HandoffOnce.ReturnMeansDurable | src/durable/user-memory.js:781-870 | After a call has returned, at every later moment its job has a verdict for that generation or something of the handoff is held or queued, and each message it put in is held, queued or finished, if no reset overtakes a call that has found its work unfinished. |
| HandoffOnce.ResetKeepsAnswersExactly | src/durable/user-memory.js:3123-3130 | With every answer true, a reset leaves them all true if and only if each call that has found its work, and not yet acknowledged it, has its verdict already. |
| HandoffOnce.ResetUnderHandoffExactly | src/durable/user-memory.js:840-870 | A call overtaken by a reset just before it acknowledges still returns, whatever else happens first, and what it acknowledged is durable if and only if the job had its verdict as the reset came or a step since then gave it or brought something of the handoff back. |
| HandoffOnce.ResetUnderHandoffLosesIt | src/durable/user-memory.js:3123-3130 | A concrete run from the empty store in which a reset overtakes a call about to acknowledge, which then returns with nothing behind it. |
| HandoffOnce.ReplayReentersExactly | src/durable/user-memory.js:872-1003 | From its start, with anything in between its accesses, a replay puts its messages back if and only if the marker lets it in, the job is at its generation, nothing of the handoff is held, nothing queued and the job not terminal - each at the moment it is read - and the marker is still pending at the commit; and if the handoff had entered, the job was reopened past its generation after the first read. |
| HandoffOnce.StaleReplayReenters | src/durable/user-memory.js:968-1003 | A concrete run from the empty store in which a replay that passed the generation check before a reopening puts its messages back under the superseded generation. |
| HandoffOnce.DifferentHashRefused | src/durable/user-memory.js:949-956 | As long as a marker is stored it keeps the hash it was bound to, and a call with another hash changes nothing. |
| HandoffOnce.SecondEntryIsOvertaken | src/durable/user-memory.js:1609-1709 | In any run, a call about to put in a handoff that has already entered has been overtaken: the job's generation is past the handoff's. |
| HandoffSafety.NoAcceptedWriteLost | src/durable/user-memory.js:2479-2583 | A message that is held, queued or finished for its job and generation stays so over any steps but a reset. |
| HandoffSafety.QueueKeeps | src/durable/user-memory.js:2673-2695 | An owned message leaves the queue only once its job is terminal or reopened at a newer generation; a split hands it to a child. |
| HandoffSafety.HeldKeeps | src/durable/user-memory.js:682-710 | A held message leaves the chunk only into the queue, once the job is reopened at a newer generation, or as a copy already queued; a verdict alone does not drop it. |
| HandoffMoves.ChunkExactly | src/durable/user-memory.js:682-710 | What a step leaves in the held chunk is exactly what was there and not taken out - by a reset, a fire, a call that finds it of an older generation of its job, or one that finds a queued entry owning it - and what it put in: a save, a pending commit, or a finished entry's settled copies. |
| HandoffMoves.StaleCopiesAreNew | src/durable/user-memory.js:968-972 | After a call has dropped its job's older copies, or the held copies of what is queued, such a copy is held at its commit or ever after only if a later step put it in. |
| HandoffMoves.QueueExactly | src/durable/user-memory.js:1426-1440 | What a step leaves in the queue is exactly what it stored - fired entries of one job, split children, a worker's write-back - and what was there and neither removed nor overwritten. |
| HandoffMoves.MarkersExactly | src/durable/user-memory.js:872-960 | Each marker is where the steps that bind it under the call's own hash and the steps that end it have left it. |
| HandoffMoves.CallsBegin | src/durable/user-memory.js:900-962 | A call begins where its marker says: from the start, at the acknowledgement of work already put in, or with the answer at once; under another hash it changes nothing. |
| HandoffMoves.VerdictExactly | src/durable/user-memory.js:2296-2325 | A worker finds its entry current exactly when it is level with all its jobs, superseded exactly when overtaken by all of them, and otherwise does not touch it. |
| HandoffMoves.WorkersExactly | src/durable/user-memory.js:2585-2671 | Each drain worker is where the steps that move and end it have left it. |
| HandoffMoves.HistoryExactly | src/durable/user-memory.js:1609-1709 | What the theorems count is what happened: accepted writes are the unsettled messages put in, entries the commits under the current generation, returns the acknowledgements. |
| HandoffSafety.DoneStays | src/durable/user-memory.js:611-624 | A verdict for a generation is final. |
| HandoffSafety.InvStep | src/durable/user-memory.js:2585-2671 | Every step keeps: entries under the content of their key, rescue copies only of finished jobs, workers' verdicts true, calls under their marker's hash. |
| MemoryJobs.EnrichedMeansAccounted | src/lib/db.js:698-857 | Within one generation exactly the unreported messages remain, and the job becomes enriched only when every accepted message was reported or the job was settled whole. |
| MemoryJobs.EnrichedExactly | src/lib/db.js:800-845 | A landed settlement enriches a live job exactly when everything the job accepted has been named within the generation. |
| MemoryJobs.RowMoves | src/lib/db.js:698-857 | A report is heard exactly while the row is live and its generation the row's, a reopening exactly of an ended row with repairs left; each then does exactly what it says, and otherwise nothing. |
| MemoryJobs.StaleReportsAreInert | src/lib/db.js:721-738 | A report of a superseded generation never changes the row. |
| MemoryJobs.OperationsEvolve | src/pipeline/ingest.js:132-168 | Every settlement and every reopening raises the generation or keeps it, and reopens a terminal row only by raising it. |
| MemoryJobs.RepairsAreBounded | src/pipeline/ingest.js:132-142 | Generations stay within the repair limit. |
| RetryLadder.IdentityInjective | src/durable/user-memory.js:2737-2748 | The attempt identity string determines generation, poison attempts and capacity attempts. |
| RetryLadder.RetriesAreBounded | src/durable/user-memory.js:2737-2921 | Whatever the outcomes, a queue entry mints at most fourteen run ids, and a batch has at most one rescue entry, when workers take turns. |
| RetryLadder.DeadLettersExactly | src/durable/user-memory.js:2860-2910 | The two ladders are separate: an undecided entry is retried exactly while it has fewer than three failures and fewer than twelve capacity refusals, in any order. |
| RetryLadder.OutcomeDecides | src/durable/user-memory.js:2770-2921 | One run leaves a working entry retried below the ladders' ends, put back after a no-write with its count unused, and over in every other case, each counter counting its own kind. |
| RetryLadder.PutBackExactly | src/durable/user-memory.js:2479-2554 | Over any run, messages go back to the chunk exactly when a settlement finds that the last run wrote nothing and the count is unused. |
| RetryLadder.EveryStepDescends | src/durable/user-memory.js:2862-2921 | Every retry climbs one rung, and every step but waiting for another run lowers the lexicographic measure of rescues, phase, attempts and capacity attempts left. |
| RetryLadder.StaleWritesStayBounded | src/durable/user-memory.js:2909-2910 | When two workers overwrite each other's attempts an entry still mints at most thirty-six run ids. |
| RetryLadder.WritesBackExactly | src/durable/user-memory.js:2860-2910 | A worker that ran writes back the rung above the one it had read, whatever is stored by then, unless that is past an end of the ladders. |
| RetryLadder.RescuesWithinReads | src/durable/user-memory.js:2479-2554 | However workers overlap on an entry, its messages are put back at most once for each time it was read, and never once its rescue count is used up. |
| RetryLadder.TurnsRescueOnce | src/durable/user-memory.js:2479-2554 | If each read finds nobody else holding the entry, its messages are put back at most once, write-backs and crashes included. |
| RetryLadder.MoreRescuesExactly | src/durable/user-memory.js:2500-2553 | The messages of an entry with its count unused can be put back once more if and only if the entry is stored or some worker holds it. |
| RetryLadder.OverlapReachesReads | src/durable/user-memory.js:2500-2553 | For every n there is a run in which n overlapping workers put the messages back n times: the chunk fires before each finishes, and the transaction does not ask whether the entry is still there. |
| RetryLadder.NoWriteRescueCount | src/durable/user-memory.js:109-118 | The stored count is capped, zero and null stay zero, and without a usable count the old flag means exhausted. |
| Excerpt.TruncateToBudget | src/durable/user-memory.js:186-212 | The binary search finds the longest excerpt short of the whole that fits, none exactly when none fits, and the whole exactly when it and the excerpt one short of it fit. |
| Excerpt.ExcerptShows | src/durable/user-memory.js:193-204 | An excerpt is a start of the text, a marker whose number is how many code points are left out, and an end of the text, a third (rounded up) at the start. |
| Excerpt.LargestExactly | src/durable/user-memory.js:186-212 | The result is the largest fitting keep exactly when the whole does not fit or the excerpt one short of it does - which an empty text does not have, so that it is given up even when it fits. |
| Excerpt.ShortTextIsMissed | src/durable/user-memory.js:191-210 | One letter that fits whole is given up because its excerpt does not fit. |
| Excerpt.OneMoreCostsMore | src/durable/user-memory.js:195-204 | Keeping one more code point never shortens the excerpt, although its marker may lose a digit. |
| Snapshot.Capture | src/durable/user-memory.js:228-282 | The snapshot is the longest fitting run of the latest selected messages, or the last one cut to its longest fitting excerpt; at most five per role, within the byte limit, snapshot plus omitted is the eligible count, and one message counts as truncated exactly when it was. |
| Snapshot.SelectsMostRecent | src/durable/user-memory.js:237-242 | The selection is an in-order subsequence that holds, role by role, the most recent messages. |
| Snapshot.EligibleExactly | src/durable/user-memory.js:228-236 | Eligible are exactly the assistant messages and the user messages not excluded, each as often as it was there. |
| Serialized.SizeIsMeasured | src/durable/user-memory.js:161-186 | The size compared with the limit is the number of bytes of the JSON text in UTF-8, written out. |
| Snapshot.CapturedIsTrusted | src/durable/user-memory.js:347-390 | A captured snapshot is accepted unchanged under its own context key, and with its trace nothing else and under no other key. |
| Snapshot.TrustedExactly | src/durable/user-memory.js:347-390 | A stored snapshot is accepted exactly when it keeps the limits and its trace is in every column the one its capture under this context key leaves. |
| Shadow.ChargesAtMostOnce | src/ai/shadow.js:168-293 | A job is admitted at most twice, each time for a later attempt, and at most one attempt's reservation ends settled or ambiguously charged, over every run of drains, crashes, expired leases and reapers. |
| Shadow.InvokingIsNeverReclaimed | src/ai/shadow.js:260-269 | An invoking job keeps its attempt until it is terminal or goes back to the queue with that attempt proven unbilled. |
| Shadow.AttemptIdInjective | src/ai/shadow.js:210-218 | Distinct attempts of any jobs have distinct ledger operations. |
| Shadow.SoundStep | src/ai/shadow.js:341-480 | Every step keeps: only a job's latest attempt can be other than unbilled, and only once admitted. |
| ShadowMoves.JobsExactly | src/ai/shadow.js:168-293 | Each job row, each drain's hold and each job's admissions after a step, on the fields of the row: who may claim, admit, settle, retire or cancel, and that a failed attempt proven unbilled is retried exactly once. |
| ShadowMoves.LedgerExactly | src/ai/shadow.js:210-218 | The ledger moves by reservations of admitted attempts under their own ids, and by what happens elsewhere. |
| ShadowOutbox.Table.ClaimJob | src/ai/shadow.js:260-269 | A claim that lands makes every earlier claim on the job worthless and brings none back; for every state of the transition model with this table it is the claim step of a free worker. |
| ShadowOutbox.Table.AdmitInvocation | src/ai/shadow.js:341-376 | A claim is admitted if and only if no fence is up and it has not been used - admitted, settled, superseded or retired - so two admissions never succeed under one claim; it is the admit step of the transition model. |
| ShadowOutbox.Table.SettleJob | src/ai/shadow.js:271-293 | A settlement lands if and only if its claim is not spent, and spends it, so a second one under the same claim changes nothing; no operation revives a spent claim. |
| ShadowOutbox.Table.Drain | src/ai/shadow.js:168-208 | Lost invocations are retired, the oldest due jobs up to the limit are each claimed once at their next attempt under tokens of their own, no other job changes, and no earlier claim is revived. |
| ShadowOutbox.RetiringIsTheStep | src/ai/shadow.js:176-186 | Retiring lost invocations is the retire step of the transition model. |
| EditDistance.LevIsLeastCost | src/huba/retrieval.js:135-150 | The recurrence is the least cost of any edit script. |
| EditDistance.BoundedDistance | src/huba/retrieval.js:135-150 | The result is the true distance whenever that is at most the bound, and above the bound otherwise. |
| EditDistance.RowMinimumBounds | src/huba/retrieval.js:139-147 | Every row of the table holds a value no greater than the final distance. |
| EditDistance.LengthGap | src/huba/retrieval.js:136 | Two words are at least their length difference apart. |
| FuzzyIndex.Vocabulary.FuzzyMatches | src/huba/retrieval.js:181-193 | The lookup returns the first six of everything the scan can find. |
| FuzzyIndex.IndexAgreesWithFilter | src/huba/retrieval.js:158-193 | What the scan can find is exactly what filtering the whole corpus finds, each word once; the length window and the dropped short tokens lose nothing. |
| FuzzyIndex.ShortAnswersAreComplete | src/huba/retrieval.js:181-193 | Fewer than six answers are all there are. |
| FuzzyIndex.Vocabulary.Build | src/huba/retrieval.js:159-178 | The cached buckets are the distinct corpus tokens by first letter and length, and a second build changes nothing. |

## Left out

- Wake.WakeGuarantee: only for runs without the two steps of `Wake.StepCoversExactly`, and for work whose owner is known; stranded work is answered for again by the next call that guarantees a wake (`Wake.NextWakeCovers`).
- Wake.AloneIsAtomic: the wake time is a parameter here, because a long queue is read page by page; `WakeClock` computes it.
- HandoffOnce.HandoffExactlyOnce: for handoffs with a job whose row exists in D1; finalizing an entry deletes its marker, and without a job nothing is left to stop a replay.
- HandoffSafety.NoAcceptedWriteLost: for messages tagged with a job; an untagged entry is removed once processed, with no verdict to wait for.
- Handoff: queue and chunk are sets there, since only presence matters; order, caps and key spelling are proved in `ExtractQueue`. Entries carry generation, owners and markers; overrides, context and receipts are columns no proved property depends on.
- RetryLadder.RetriesAreBounded: for workers that take turns on an entry; without that `StaleWritesStayBounded` bounds the run ids of an entry and `RescuesWithinReads` its rescues.
- ProviderStore.Store.ReapExpired: one reaper alone, whose listed rows nobody else closes; lost races are steps of `Ledger`.
- ShadowOutbox.Table.Drain: one clock, and claims only; what is done with a claim before the next one is taken is left to the transition model.
- LedgerMoney.InEstimateRunsRespectCeilings: conditional, because settlement books whatever usage the provider reports.
- Breaker and ledger arithmetic is over unbounded integers; JavaScript number rounding beyond 2^53 is not modelled.
- Day and month strings, ceilings read from the environment and clocks are parameters of each call; ceilings are fixed over a run.
- resolveReservationLifecycle: its membership read is taken as the lifecycle a request carries.
- The alarm-disabled mode of tests; how an id or a lifecycle is read from a request before it is judged.
- Hashes are injective functions and tokens fresh values; hashing, UUIDs, webhooks, receipts and D1 itself are not modelled.
- The multi-entry extraction pipeline and model calls are outcomes drawn from the listed set.
- MCP entries: their marker protocol and enrichment ladder; they appear only as work that needs an alarm.
- Message classification, the fire trigger and per-conversation deduplication: which messages are held, and when a chunk fires, is left free.
- Removal of job rows at account teardown and retention purges of shadow jobs.
- Queue sequence numbers past ten digits and entries of more than 10,000 messages: the order statements end there, as the key padding does.
- Message timestamps inside a snapshot are natural numbers.
- HTTP routing, OAuth, prompts, provider dispatch and policy: little state of their own.

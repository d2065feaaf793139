/** What a terminal transition does to a row and its buckets, and which one an outcome
    calls for. */
module Settlement {
  import opened Wrappers
  import opened RateCards
  import opened Ledger
  import opened LedgerPricing
  import opened ProviderStore

  /** Which statuses a verdict may close, and as what. */
  predicate Closes(from: Status, finish: Finish, to: Status) {
    match finish
    case Settle(_) => from == Invoking && to == Settled
    case Release => (from == Reserved || from == Invoking) && to == Released
    case MarkAmbiguous => from == Invoking && to == AmbiguousCharged
  }

  function DailyOf(r: Row): BucketKey { DayKey(r.day, r.provider, r.rate.unitClass) }
  function MonthlyOf(r: Row): BucketKey { MonthKey(r.month, r.provider) }

  /** What a transition books, whatever the verdict: it applies exactly when the caller owns
      a row the verdict may close and its buckets hold the estimate; a settlement books the
      usage on the stored rates, a release nothing, an ambiguous end the whole estimate; and
      the buckets give the estimate back for what was booked. */
  lemma TransitionBooks(s: State, id: OpId, token: Token, finish: Finish, input: nat, output: nat)
    requires finish.Settle? ==> Reads(finish.usage.inputTokens, input) && Reads(finish.usage.outputTokens, output)
    ensures var (t, res) := TransitionStep(s, id, token, finish);
            && (res.Applied? <==>
                  && id in s.rows && s.rows[id].attemptToken == token
                  && (exists to :: Closes(s.rows[id].status, finish, to))
                  && DailyOf(s.rows[id]) in s.totals && s.totals[DailyOf(s.rows[id])].reserved >= s.rows[id].estimatedUnits
                  && MonthlyOf(s.rows[id]) in s.totals && s.totals[MonthlyOf(s.rows[id])].reserved >= s.rows[id].estimatedCost)
            && (!res.Applied? ==> t.rows == s.rows && t.totals == s.totals)
            && (res.Applied? ==>
                  var r := s.rows[id];
                  && id in t.rows && Closes(r.status, finish, t.rows[id].status)
                  && t.rows == s.rows[id := r.(status := t.rows[id].status, settleToken := Some(s.nextToken),
                                               actualUnits := res.units, actualCost := res.cost)]
                  && (match finish
                      case Settle(u) => BookedUnits(r, u, input, output, res.units) && BookedCost(r, u, input, output, res.units, res.cost)
                      case Release => res.units == 0 && res.cost == 0
                      case MarkAmbiguous => res.units == r.estimatedUnits && res.cost == r.estimatedCost)
                  && t.totals.Keys == s.totals.Keys
                  && t.totals[DailyOf(r)] == Bucket(s.totals[DailyOf(r)].used + res.units, s.totals[DailyOf(r)].reserved - r.estimatedUnits)
                  && t.totals[MonthlyOf(r)] == Bucket(s.totals[MonthlyOf(r)].used + res.cost, s.totals[MonthlyOf(r)].reserved - r.estimatedCost)
                  && forall k :: k in s.totals && k != DailyOf(r) && k != MonthlyOf(r) ==> t.totals[k] == s.totals[k])
  {
    hide Reads, BookedUnits, BookedCost, FinalUnits, FinalCost;
    if id in s.rows {
      var r := s.rows[id];
      match finish
      case Settle(u) =>
        SettlementIsPriced(id, r, u, input, output);
        assert Closes(Invoking, finish, Settled);
      case Release => assert Closes(Reserved, finish, Released) && Closes(Invoking, finish, Released);
      case MarkAmbiguous => assert Closes(Invoking, finish, AmbiguousCharged);
    }
  }
}

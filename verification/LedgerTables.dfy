/**
 * Ledger records, their period summaries and the statements that maintain the
 * summaries next to the aggregate they stand for.
 *
 * Amounts are exact decimals (`numeric`), modelled as reals. A period start is
 * a time; `EPOCH` marks legacy records that were written before periods
 * existed and are counted by every period of their day they were created in.
 */
module LedgerTables {
  import opened Sets

  datatype Kind = Deposit | Payout | OtherKind

  const EPOCH := 0

  datatype Key = Key(chat: int, day: string, period: int)

  datatype Record = Record(
    chat: int, day: string, period: int, createdAt: int,
    kind: Kind, cny: bool, amount: real, result: real, deleted: bool)

  datatype Totals = Totals(deposits: int, payouts: int, cny: real, usdt: real, payout: real)

  datatype Summary = Summary(totals: Totals, highWatermark: int, dirty: bool, reconciled: bool)

  type Records = map<int, Record>

  type Summaries = map<Key, Summary>

  const ZERO := Totals(0, 0, 0.0, 0.0, 0.0)

  function Plus(a: Totals, b: Totals): Totals {
    Totals(a.deposits + b.deposits, a.payouts + b.payouts, a.cny + b.cny, a.usdt + b.usdt, a.payout + b.payout)
  }

  function Minus(a: Totals, b: Totals): Totals {
    Totals(a.deposits - b.deposits, a.payouts - b.payouts, a.cny - b.cny, a.usdt - b.usdt, a.payout - b.payout)
  }

  /** What one record adds to the summary of its period. */
  function Delta(r: Record): Totals {
    match r.kind
    case Deposit => Totals(1, 0, if r.cny then r.amount else 0.0, r.result, 0.0)
    case Payout => Totals(0, 1, 0.0, 0.0, r.result)
    case OtherKind => ZERO
  }

  function KeyOf(r: Record): Key { Key(r.chat, r.day, r.period) }

  /** The `WHERE` clause of the recomputed aggregate. */
  predicate Counts(r: Record, key: Key) {
    r.chat == key.chat && r.day == key.day &&
    (r.period == key.period || (r.period == EPOCH && r.createdAt >= key.period))
  }

  function Share(r: Record, key: Key): Totals {
    if Counts(r, key) && !r.deleted then Delta(r) else ZERO
  }

  /** `getLegacyBillSummaryForPeriodUsing`: the aggregate over the records. */
  ghost function Aggregate(records: Records, key: Key): Totals { SumOver(records.Keys, records, key) }

  ghost function SumOver(ids: set<int>, records: Records, key: Key): Totals
    requires ids <= records.Keys
    decreases |ids|
  {
    if ids == {} then ZERO
    else
      var id := Pick(ids);
      Plus(Share(records[id], key), SumOver(ids - {id}, records, key))
  }

  lemma PlusSwap(a: Totals, b: Totals, c: Totals)
    ensures Plus(a, Plus(b, c)) == Plus(b, Plus(a, c))
  {
  }

  /** Any record can be taken out of the sum first. */
  lemma {:induction false} SumSplit(ids: set<int>, records: Records, key: Key, id: int)
    requires ids <= records.Keys && id in ids
    ensures SumOver(ids, records, key) == Plus(Share(records[id], key), SumOver(ids - {id}, records, key))
    decreases |ids|
  {
    var first := Pick(ids);
    if first != id {
      var rest := ids - {first};
      SumSplit(rest, records, key, id);
      SumSplit(ids - {id}, records, key, first);
      assert rest - {id} == ids - {id} - {first};
      PlusSwap(Share(records[first], key), Share(records[id], key), SumOver(rest - {id}, records, key));
    }
  }

  lemma {:induction false} SumCongruent(ids: set<int>, a: Records, b: Records, key: Key)
    requires ids <= a.Keys && ids <= b.Keys
    requires forall id :: id in ids ==> Share(a[id], key) == Share(b[id], key)
    ensures SumOver(ids, a, key) == SumOver(ids, b, key)
    decreases |ids|
  {
    if ids != {} {
      SumCongruent(ids - {Pick(ids)}, a, b, key);
    }
  }

  function ShareAt(records: Records, key: Key, id: int): Totals {
    if id in records then Share(records[id], key) else ZERO
  }

  lemma PlusMinus(rest: Totals, before: Totals, after: Totals)
    ensures Plus(Minus(Plus(before, rest), before), after) == Plus(after, rest)
    ensures Plus(Minus(rest, ZERO), after) == Plus(after, rest)
  {
  }

  /** The aggregate of everything but record `id`. */
  lemma AggregateWithout(records: Records, key: Key, id: int)
    ensures records.Keys - {id} <= records.Keys
    ensures id in records ==>
      Aggregate(records, key) == Plus(Share(records[id], key), SumOver(records.Keys - {id}, records, key))
    ensures id !in records ==> Aggregate(records, key) == SumOver(records.Keys - {id}, records, key)
  {
    if id in records {
      SumSplit(records.Keys, records, key, id);
    } else {
      assert records.Keys - {id} == records.Keys;
    }
  }

  /** Writing one record moves the aggregate by the change of its share. */
  lemma AggregateWrite(records: Records, key: Key, id: int, r: Record)
    ensures Aggregate(records[id := r], key) ==
      Plus(Minus(Aggregate(records, key), ShareAt(records, key, id)), Share(r, key))
  {
    var written := records[id := r];
    var others := records.Keys - {id};
    assert written.Keys - {id} == others;
    AggregateWithout(written, key, id);
    AggregateWithout(records, key, id);
    SumCongruent(others, written, records, key);
    PlusMinus(SumOver(others, records, key), ShareAt(records, key, id), Share(r, key));
  }

  // ------------------------------------------------- statements on the summaries

  predicate Clean(summaries: Summaries, key: Key) {
    key in summaries && !summaries[key].dirty && summaries[key].reconciled
  }

  /** `applyLedgerSummaryInsert` */
  function Increased(summaries: Summaries, r: Record, id: int): Summary {
    var key := KeyOf(r);
    if key in summaries then
      var s := summaries[key];
      s.(totals := Plus(s.totals, Delta(r)), highWatermark := if s.highWatermark < id then id else s.highWatermark)
    else Summary(Delta(r), id, true, false)
  }

  /** `applyLedgerSummaryDelete` on a period that has a summary */
  function Decreased(s: Summary, r: Record): Summary { s.(totals := Minus(s.totals, Delta(r))) }

  /** The row `replaceLedgerPeriodSummaryUsing` writes. */
  function Rebuilt(actual: Totals, highWatermark: int): Summary { Summary(actual, highWatermark, false, true) }

  /** What key discovery writes for a period with a record `maxId`. */
  function Flagged(summaries: Summaries, key: Key, maxId: int): Summary {
    if key in summaries then summaries[key].(dirty := summaries[key].dirty || summaries[key].highWatermark < maxId)
    else Summary(ZERO, maxId, true, false)
  }

  /** A summary row served without recomputation equals the aggregate. */
  ghost predicate Healthy(records: Records, summaries: Summaries) {
    forall key :: Clean(summaries, key) ==> summaries[key].totals == Aggregate(records, key)
  }

  // ----------------------------------------------- when one mutation keeps health

  /** The period an undo charges: a legacy record is first moved to the period
      the caller names. */
  function Rekeyed(r: Record, periodStart: int): Record {
    if periodStart > EPOCH && r.period <= EPOCH then r.(period := periodStart) else r
  }

  function Undone(records: Records, id: int, periodStart: int): Records
    requires id in records
  {
    records[id := Rekeyed(records[id], periodStart).(deleted := true)]
  }

  /** The summaries after an undo of `r`, already rekeyed. */
  function Uncharged(summaries: Summaries, r: Record): Summaries {
    if r.period > EPOCH && KeyOf(r) in summaries then summaries[KeyOf(r) := Decreased(summaries[KeyOf(r)], r)] else summaries
  }

  lemma DeltaNotZero(r: Record)
    ensures Delta(r) == ZERO <==> r.kind == OtherKind
  {
  }

  lemma CleanAfterInsert(summaries: Summaries, id: int, r: Record, key: Key)
    ensures Clean(summaries[KeyOf(r) := Increased(summaries, r, id)], key) <==> Clean(summaries, key)
  {
  }

  lemma InsertAt(records: Records, summaries: Summaries, id: int, r: Record, key: Key)
    requires Healthy(records, summaries) && id !in records && !r.deleted && Clean(summaries, key)
    ensures summaries[KeyOf(r) := Increased(summaries, r, id)][key].totals == Aggregate(records[id := r], key) <==>
      (r.kind == OtherKind || (Counts(r, key) <==> key == KeyOf(r)))
  {
    DeltaNotZero(r);
    AggregateWrite(records, key, id, r);
    hide Aggregate, Delta, Counts;
  }

  /** An insert keeps every clean summary right if and only if the clean periods
      that count the new record are exactly its own. */
  lemma InsertKeepsHealthIff(records: Records, summaries: Summaries, id: int, r: Record)
    requires Healthy(records, summaries) && id !in records && !r.deleted
    ensures Healthy(records[id := r], summaries[KeyOf(r) := Increased(summaries, r, id)]) <==>
      (r.kind == OtherKind || forall key :: Clean(summaries, key) ==> (Counts(r, key) <==> key == KeyOf(r)))
  {
    hide Aggregate, Increased, Counts;
    var after, written := records[id := r], summaries[KeyOf(r) := Increased(summaries, r, id)];
    forall key ensures Clean(written, key) <==> Clean(summaries, key) { CleanAfterInsert(summaries, id, r, key); }
    hide Clean;
    forall key | Clean(summaries, key)
      ensures written[key].totals == Aggregate(after, key) <==>
        (r.kind == OtherKind || (Counts(r, key) <==> key == KeyOf(r)))
    {
      InsertAt(records, summaries, id, r, key);
    }
    if Healthy(after, written) {
      forall key | Clean(summaries, key) ensures r.kind == OtherKind || (Counts(r, key) <==> key == KeyOf(r)) {
        assert Clean(written, key);
      }
    }
  }

  lemma CleanAfterUndo(summaries: Summaries, r: Record, key: Key)
    ensures Clean(Uncharged(summaries, r), key) <==> Clean(summaries, key)
  {
  }

  lemma ChargeIff(t: Totals, d: Totals, counted: bool, charged: bool)
    ensures (if charged then Minus(t, d) else t) == Plus(Minus(t, if counted then d else ZERO), ZERO) <==>
      (d == ZERO || counted == charged)
  {
  }

  lemma UndoShares(records: Records, id: int, periodStart: int, key: Key)
    requires id in records && !records[id].deleted
    ensures
      var r := Rekeyed(records[id], periodStart);
      ShareAt(records, key, id) == (if Counts(records[id], key) then Delta(r) else ZERO) &&
      Share(r.(deleted := true), key) == ZERO
  {
  }

  lemma UndoAt(records: Records, summaries: Summaries, id: int, periodStart: int, key: Key)
    requires Healthy(records, summaries) && id in records && !records[id].deleted && Clean(summaries, key)
    ensures
      var r := Rekeyed(records[id], periodStart);
      Clean(Uncharged(summaries, r), key) &&
      (Uncharged(summaries, r)[key].totals == Aggregate(Undone(records, id, periodStart), key) <==>
        (r.kind == OtherKind || (Counts(records[id], key) <==> (r.period > EPOCH && key == KeyOf(r)))))
  {
    hide Aggregate, Share, Delta, Counts, Minus, Plus;
    var r := Rekeyed(records[id], periodStart);
    DeltaNotZero(r);
    AggregateWrite(records, key, id, r.(deleted := true));
    UndoShares(records, id, periodStart, key);
    ChargeIff(summaries[key].totals, Delta(r), Counts(records[id], key), r.period > EPOCH && key == KeyOf(r));
    CleanAfterUndo(summaries, r, key);
  }

  /** An undo keeps every clean summary right if and only if the clean periods
      that counted the record are exactly the one it is charged to. */
  lemma UndoKeepsHealthIff(records: Records, summaries: Summaries, id: int, periodStart: int)
    requires Healthy(records, summaries) && id in records && !records[id].deleted
    ensures
      var r := Rekeyed(records[id], periodStart);
      Healthy(Undone(records, id, periodStart), Uncharged(summaries, r)) <==>
      (r.kind == OtherKind ||
       forall key :: Clean(summaries, key) ==> (Counts(records[id], key) <==> (r.period > EPOCH && key == KeyOf(r))))
  {
    hide Aggregate, Counts;
    var r := Rekeyed(records[id], periodStart);
    var after, written := Undone(records, id, periodStart), Uncharged(summaries, r);
    forall key ensures Clean(written, key) <==> Clean(summaries, key) { CleanAfterUndo(summaries, r, key); }
    hide Uncharged, Undone;
    forall key | Clean(summaries, key)
      ensures written[key].totals == Aggregate(after, key) <==>
        (r.kind == OtherKind || (Counts(records[id], key) <==> (r.period > EPOCH && key == KeyOf(r))))
    {
      UndoAt(records, summaries, id, periodStart, key);
    }
    if Healthy(after, written) {
      forall key | Clean(summaries, key)
        ensures r.kind == OtherKind || (Counts(records[id], key) <==> (r.period > EPOCH && key == KeyOf(r)))
      {
        assert Clean(written, key);
      }
    }
  }

  /** A record with a period of its own is counted by that period alone, so
      inserting or undoing it always keeps health. */
  lemma ModernRecordKeepsHealth(records: Records, summaries: Summaries, id: int, r: Record, periodStart: int)
    requires Healthy(records, summaries) && r.period > EPOCH && !r.deleted
    ensures id !in records ==> Healthy(records[id := r], summaries[KeyOf(r) := Increased(summaries, r, id)])
    ensures id in records && records[id] == r ==>
      Healthy(Undone(records, id, periodStart), Uncharged(summaries, r)) && Rekeyed(r, periodStart) == r
  {
    assert forall key :: Counts(r, key) <==> key == KeyOf(r);
    if id !in records {
      InsertKeepsHealthIff(records, summaries, id, r);
    } else if records[id] == r {
      UndoKeepsHealthIff(records, summaries, id, periodStart);
    }
  }

  lemma AggregateOfOne(id: int, r: Record, key: Key)
    ensures Aggregate(map[id := r], key) == Share(r, key)
  {
    var none: Records := map[];
    AggregateWrite(none, key, id, r);
    assert none[id := r] == map[id := r];
    assert Aggregate(none, key) == ZERO && ShareAt(none, key, id) == ZERO;
    hide Share, Aggregate, SumOver;
  }

  /** The legacy case does go wrong: two sibling periods of one day count the same
      legacy deposit, and undoing it in the first leaves the second one stale but
      clean. */
  lemma LegacyUndoLeavesSiblingStale(records: Records, summaries: Summaries)
    requires records == map[1 := Record(7, "d", EPOCH, 30, Deposit, true, 100.0, 14.0, false)]
    requires summaries == map[Key(7, "d", 10) := Rebuilt(Totals(1, 0, 100.0, 14.0, 0.0), 1),
                              Key(7, "d", 20) := Rebuilt(Totals(1, 0, 100.0, 14.0, 0.0), 1)]
    ensures Healthy(records, summaries)
    ensures !Healthy(Undone(records, 1, 10), Uncharged(summaries, Rekeyed(records[1], 10)))
  {
    forall key | Clean(summaries, key) ensures summaries[key].totals == Aggregate(records, key) {
      AggregateOfOne(1, records[1], key);
    }
    UndoKeepsHealthIff(records, summaries, 1, 10);
    assert Clean(summaries, Key(7, "d", 20)) && Counts(records[1], Key(7, "d", 20));
  }
}

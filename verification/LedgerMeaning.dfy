/**
 * What the numbers of a period summary are, on the columns of the records: how
 * many deposits and payouts the period counts, and what they sum up to.
 */
module LedgerMeaning {
  import opened Sets
  import opened MapSums
  import opened LedgerTables
  import opened LedgerRuns
  import opened LedgerHealth
  import opened LedgerStore
  import opened Options

  /** The records of a kind that stand in the period and are not deleted; one from
      before there were periods stands in every period of its day it came after. */
  function In(records: Records, ids: set<int>, key: Key, kind: Kind): set<int> {
    set id | id in ids && id in records && records[id].kind == kind && !records[id].deleted &&
             records[id].chat == key.chat && records[id].day == key.day &&
             (records[id].period == key.period || (records[id].period == EPOCH && records[id].createdAt >= key.period))
  }

  function Yuan(records: Records, ids: set<int>): set<int> { set id | id in ids && id in records && records[id].cny }

  function AddReal(a: real, b: real): real { a + b }

  ghost function Amounts(records: Records, ids: set<int>): real
    requires ids <= records.Keys
  {
    Fold(map id | id in ids :: records[id].amount, 0.0, AddReal)
  }

  ghost function Results(records: Records, ids: set<int>): real
    requires ids <= records.Keys
  {
    Fold(map id | id in ids :: records[id].result, 0.0, AddReal)
  }

  /** The totals are the numbers of deposits and payouts, the amounts of the deposits
      in CNY, and the USDT results of the deposits and of the payouts. */
  ghost predicate Means(t: Totals, records: Records, ids: set<int>, key: Key) {
    var deposits, payouts := In(records, ids, key, Deposit), In(records, ids, key, Payout);
    && t.deposits == |deposits| && t.payouts == |payouts|
    && t.cny == Amounts(records, Yuan(records, deposits))
    && t.usdt == Results(records, deposits)
    && t.payout == Results(records, payouts)
  }

  // ------------------------------------------------------------------ one record more

  lemma AmountsMore(records: Records, ids: set<int>, id: int)
    requires ids <= records.Keys && id in records && id !in ids
    ensures Amounts(records, ids + {id}) == Amounts(records, ids) + records[id].amount
  {
    var some := map i | i in ids :: records[i].amount;
    assert (map i | i in ids + {id} :: records[i].amount) == some[id := records[id].amount];
    FoldWrite(some, 0.0, AddReal, id, records[id].amount);
  }

  lemma ResultsMore(records: Records, ids: set<int>, id: int)
    requires ids <= records.Keys && id in records && id !in ids
    ensures Results(records, ids + {id}) == Results(records, ids) + records[id].result
  {
    var some := map i | i in ids :: records[i].result;
    assert (map i | i in ids + {id} :: records[i].result) == some[id := records[id].result];
    FoldWrite(some, 0.0, AddReal, id, records[id].result);
  }

  /** The period counts the record. */
  predicate Stands(r: Record, key: Key) {
    !r.deleted && r.chat == key.chat && r.day == key.day &&
    (r.period == key.period || (r.period == EPOCH && r.createdAt >= key.period))
  }

  lemma InMore(records: Records, ids: set<int>, key: Key, id: int, kind: Kind)
    requires id in records && id !in ids
    ensures In(records, ids + {id}, key, kind) ==
      In(records, ids, key, kind) + if Stands(records[id], key) && records[id].kind == kind then {id} else {}
    ensures id !in In(records, ids, key, kind) && In(records, ids, key, kind) <= records.Keys
  {
  }

  lemma YuanMore(records: Records, ids: set<int>, id: int)
    requires id in records
    ensures Yuan(records, ids + {id}) == Yuan(records, ids) + if records[id].cny then {id} else {}
  {
  }

  lemma NoShare(r: Record, key: Key, t: Totals)
    requires !Stands(r, key) || r.kind == OtherKind
    ensures Plus(Share(r, key), t) == t
  {
  }

  lemma DepositShare(r: Record, key: Key, t: Totals)
    requires Stands(r, key) && r.kind == Deposit
    ensures Plus(Share(r, key), t) ==
      Totals(t.deposits + 1, t.payouts, t.cny + (if r.cny then r.amount else 0.0), t.usdt + r.result, t.payout)
  {
  }

  lemma PayoutShare(r: Record, key: Key, t: Totals)
    requires Stands(r, key) && r.kind == Payout
    ensures Plus(Share(r, key), t) == Totals(t.deposits, t.payouts + 1, t.cny, t.usdt, t.payout + r.result)
  {
  }

  lemma DepositMore(t: Totals, records: Records, ids: set<int>, key: Key, id: int)
    requires id in records && id !in ids && Means(t, records, ids, key)
    requires Stands(records[id], key) && records[id].kind == Deposit
    ensures Means(Plus(Share(records[id], key), t), records, ids + {id}, key)
  {
    hide Amounts, Results, Share, Plus, In, Yuan, Stands;
    var deposits := In(records, ids, key, Deposit);
    InMore(records, ids, key, id, Deposit);
    InMore(records, ids, key, id, Payout);
    DepositShare(records[id], key, t);
    YuanMore(records, deposits, id);
    YuanWithin(records, deposits);
    if records[id].cny { AmountsMore(records, Yuan(records, deposits), id); }
    ResultsMore(records, deposits, id);
  }

  lemma PayoutMore(t: Totals, records: Records, ids: set<int>, key: Key, id: int)
    requires id in records && id !in ids && Means(t, records, ids, key)
    requires Stands(records[id], key) && records[id].kind == Payout
    ensures Means(Plus(Share(records[id], key), t), records, ids + {id}, key)
  {
    hide Amounts, Results, Share, Plus, In, Yuan, Stands;
    InMore(records, ids, key, id, Deposit);
    InMore(records, ids, key, id, Payout);
    PayoutShare(records[id], key, t);
    ResultsMore(records, In(records, ids, key, Payout), id);
  }

  lemma OneRecordMore(t: Totals, records: Records, ids: set<int>, key: Key, id: int)
    requires id in records && id !in ids && Means(t, records, ids, key)
    ensures Means(Plus(Share(records[id], key), t), records, ids + {id}, key)
  {
    hide Amounts, Results, Share, Plus, In, Yuan, Stands, Means;
    var r := records[id];
    if !Stands(r, key) || r.kind == OtherKind {
      OtherMore(t, records, ids, key, id);
    } else if r.kind == Deposit {
      DepositMore(t, records, ids, key, id);
    } else {
      PayoutMore(t, records, ids, key, id);
    }
  }

  lemma OtherMore(t: Totals, records: Records, ids: set<int>, key: Key, id: int)
    requires id in records && id !in ids && Means(t, records, ids, key)
    requires !Stands(records[id], key) || records[id].kind == OtherKind
    ensures Means(Plus(Share(records[id], key), t), records, ids + {id}, key)
  {
    hide Amounts, Results, Share, Plus, In, Yuan, Stands;
    InMore(records, ids, key, id, Deposit);
    InMore(records, ids, key, id, Payout);
    NoShare(records[id], key, t);
  }

  lemma YuanWithin(records: Records, ids: set<int>)
    ensures Yuan(records, ids) <= ids && Yuan(records, ids) <= records.Keys
  {
  }

  lemma NothingMeansZero(records: Records, key: Key)
    ensures Means(ZERO, records, {}, key)
  {
    assert In(records, {}, key, Deposit) == {} && In(records, {}, key, Payout) == {};
    assert Yuan(records, {}) == {};
  }

  // -------------------------------------------------------------------------- theorems

  lemma {:induction false} SumMeans(ids: set<int>, records: Records, key: Key)
    requires ids <= records.Keys
    ensures Means(SumOver(ids, records, key), records, ids, key)
    decreases |ids|
  {
    hide Means, Share, Plus;
    if ids == {} {
      NothingMeansZero(records, key);
    } else {
      var id := Pick(ids);
      SumMeans(ids - {id}, records, key);
      OneRecordMore(SumOver(ids - {id}, records, key), records, ids - {id}, key, id);
      assert ids - {id} + {id} == ids;
    }
  }

  /** The recomputed aggregate of any table and period counts and sums its deposits
      and payouts. */
  lemma AggregateMeans(records: Records, key: Key)
    ensures
      var t, deposits, payouts := Aggregate(records, key), In(records, records.Keys, key, Deposit), In(records, records.Keys, key, Payout);
      && deposits <= records.Keys && payouts <= records.Keys && Yuan(records, deposits) <= records.Keys
      && t.deposits == |deposits| && t.payouts == |payouts|
      && t.cny == Amounts(records, Yuan(records, deposits))
      && t.usdt == Results(records, deposits) && t.payout == Results(records, payouts)
  {
    SumMeans(records.Keys, records, key);
  }

  /** So does every summary that is served without recomputation, in every reachable
      committed state. */
  lemma ServedSummaryMeans(events: seq<Event>, key: Key)
    requires Clean(Run(events).db.summaries, key)
    ensures
      var records := Run(events).db.records;
      Means(Run(events).db.summaries[key].totals, records, records.Keys, key)
  {
    ServedSummaryIsAggregate(events, key);
    SumMeans(Run(events).db.records.Keys, Run(events).db.records, key);
  }

  function RowOf(summaries: Summaries, key: Key): Totals { if key in summaries then summaries[key].totals else ZERO }

  /** An insert adds what the record is to its period's row, whether it is trusted or
      not; a row it has to make is dirty and not reconciled. */
  lemma InsertMoves(summaries: Summaries, r: Record, id: int)
    ensures
      var s, t := Increased(summaries, r, id), RowOf(summaries, KeyOf(r));
      && s.totals ==
           (match r.kind
            case Deposit => Totals(t.deposits + 1, t.payouts, t.cny + (if r.cny then r.amount else 0.0), t.usdt + r.result, t.payout)
            case Payout => Totals(t.deposits, t.payouts + 1, t.cny, t.usdt, t.payout + r.result)
            case OtherKind => t)
      && (KeyOf(r) in summaries ==>
           && s.dirty == summaries[KeyOf(r)].dirty && s.reconciled == summaries[KeyOf(r)].reconciled
           && s.highWatermark >= id && s.highWatermark >= summaries[KeyOf(r)].highWatermark)
      && (KeyOf(r) !in summaries ==> s.dirty && !s.reconciled && s.highWatermark == id)
  {
  }

  /** An undo takes the same off the row of its own period, if there is one. */
  lemma UndoMoves(summaries: Summaries, r: Record, key: Key)
    requires key in summaries
    ensures key in Uncharged(summaries, r) && Uncharged(summaries, r).Keys == summaries.Keys
    ensures
      var t, s := summaries[key].totals, Uncharged(summaries, r)[key];
      && s == summaries[key].(totals := s.totals)
      && s.totals ==
           if r.period <= EPOCH || key != KeyOf(r) then t
           else
             match r.kind
             case Deposit => Totals(t.deposits - 1, t.payouts, t.cny - (if r.cny then r.amount else 0.0), t.usdt - r.result, t.payout)
             case Payout => Totals(t.deposits, t.payouts - 1, t.cny, t.usdt, t.payout - r.result)
             case OtherKind => t
  {
  }

  // ---------------------------------------------------------- what a transaction returns

  /** The receipt under the key is one of the same kind, and of a record. */
  predicate Same(r: Receipt, spec: ReceiptSpec) {
    r.chat == spec.chat && r.kind == spec.kind && r.refKind == spec.refKind && r.refId > 0
  }

  /** An insert run by itself: a known key gives back its record and receipt if it is the
      same one and an error if not, without any effect; a new key stores the record and
      its receipt under new ids. */
  lemma InsertMeans(w: World, r: Record, spec: ReceiptSpec)
    requires w.txs == map[] && Accepted(Insert(r, spec))
    ensures
      var after := Alone(w, Insert(r, spec));
      && after.txs == map[]
      && (spec.dedupe in w.db.receipts ==>
           var known := w.db.receipts[spec.dedupe];
           && after.db == w.db && after.nextRecord == w.nextRecord && after.nextReceipt == w.nextReceipt
           && after.results == w.results + if Same(known, spec) then [Inserted(spec.dedupe, known.refId, known.id, false)] else [])
      && (spec.dedupe !in w.db.receipts ==>
           && after.db.records == w.db.records[w.nextRecord := r]
           && after.db.receipts ==
                w.db.receipts[spec.dedupe := Receipt(w.nextReceipt, spec.chat, spec.kind, spec.refKind, w.nextRecord)]
           && after.nextRecord == w.nextRecord + 1 && after.nextReceipt == w.nextReceipt + 1
           && after.results == w.results + [Inserted(spec.dedupe, w.nextRecord, w.nextReceipt, true)])
  {
    hide Increased;
    InsertAlone(w, r, spec);
  }

  /** An undo run by itself, under a key of its own: the record is deleted exactly if it
      is there, of that chat and kind, and not deleted yet; one without a period is moved
      to the period that was named. */
  lemma UndoMeans(w: World, job: Job)
    requires w.txs == map[] && job.Undo? && Accepted(job)
    requires job.undoSpec.Some? ==> job.undoSpec.value.dedupe !in w.db.receipts
    ensures
      var after := Alone(w, job);
      var there := job.id in w.db.records && w.db.records[job.id].chat == job.chat && !w.db.records[job.id].deleted &&
                   (job.kind == None || job.kind == Some(w.db.records[job.id].kind));
      && after.txs == map[]
      && (!there ==> after.db == w.db && after.results == w.results)
      && (there ==>
           var old' := w.db.records[job.id];
           && after.db.records == w.db.records[job.id :=
                old'.(deleted := true, period := if old'.period <= EPOCH && job.periodStart > EPOCH then job.periodStart else old'.period)]
           && |after.results| == |w.results| + 1 && after.results[|w.results|].recordId == job.id && after.results[|w.results|].first)
  {
    hide Uncharged;
    UndoAlone(w, job);
  }

  /** An undo under a known key has no effect; it gives the first one's ids back if it is
      the same one. */
  lemma UndoAgainMeans(w: World, job: Job)
    requires w.txs == map[] && job.Undo? && Accepted(job) && job.undoSpec.Some? && job.undoSpec.value.dedupe in w.db.receipts
    ensures
      var after, known := Alone(w, job), w.db.receipts[job.undoSpec.value.dedupe];
      && after.db == w.db && after.txs == map[]
      && after.results == w.results +
           if Same(known, job.undoSpec.value) && known.refId in w.db.records
           then [Deleted(Some(job.undoSpec.value.dedupe), known.refId, known.id, false)] else []
  {
    UndoAlone(w, job);
  }

  // -------------------------------------------------------------------------- discovery

  /** The period a record belongs to: its own, or the running one of its chat if it came
      after that one's start, or none. */
  ghost predicate BelongsTo(r: Record, active: map<int, (string, int)>, key: Key) {
    && key.chat == r.chat && key.day == r.day
    && (r.period > EPOCH ==> key.period == r.period)
    && (r.period <= EPOCH ==>
         if r.chat in active && active[r.chat].0 == r.day && active[r.chat].1 > EPOCH && r.createdAt >= active[r.chat].1
         then key.period == active[r.chat].1 else key.period == EPOCH)
  }

  /** The record is among the next ones behind the cursor. */
  ghost predicate IsNext(db: Db, limit: nat, id: int) {
    id in db.records && id > db.cursor && |set e | e in db.records && e > db.cursor && e < id| < limit
  }

  lemma NextMeans(db: Db, limit: nat, id: int)
    ensures id in BatchAfter(db, limit) <==> IsNext(db, limit, id)
  {
    hide Lowest;
    var behind := set id | id in db.records && id > db.cursor;
    LowestIff(behind, limit, id);
    assert (set e | e in behind && e < id) == set e | e in db.records && e > db.cursor && e < id;
  }

  lemma BelongsMeans(r: Record, active: map<int, (string, int)>, key: Key)
    ensures BelongsTo(r, active, key) <==> Normalized(r, active) == key
  {
  }

  /** The record is among the next ones and belongs to the period. */
  ghost predicate NextOf(db: Db, job: Job, key: Key, id: int)
    requires job.Discover?
  {
    IsNext(db, job.limit, id) && BelongsTo(db.records[id], job.active, key)
  }

  /** Discovery looks at the next records behind its cursor, and a period that one of
      them belongs to has a row afterwards; that row is dirty if it was missing, was
      dirty, or does not know the record. Other periods are left alone. */
  lemma DiscoveryFlags(db: Db, job: Job, key: Key)
    requires job.Discover?
    ensures
      var writes := DiscoverWrites(db, job);
      && (key in writes <==> exists id :: NextOf(db, job, key, id))
      && (key in writes && (key !in db.summaries || db.summaries[key].dirty) ==> writes[key].dirty)
      && (key in writes && key in db.summaries ==> writes[key] == db.summaries[key].(dirty := writes[key].dirty))
      && (forall id ::
            (key in writes && key in db.summaries && NextOf(db, job, key, id) && db.summaries[key].highWatermark < id)
              ==> writes[key].dirty)
  {
    hide IsNext, BelongsTo, Normalized, BatchAfter;
    var batch, writes := BatchAfter(db, job.limit), DiscoverWrites(db, job);
    forall id ensures NextOf(db, job, key, id) <==> id in batch && id in db.records && Normalized(db.records[id], job.active) == key {
      NextMeans(db, job.limit, id);
      NextIsThere(db, job.limit, id);
      if id in db.records { BelongsMeans(db.records[id], job.active, key); }
    }
    var mine := Filed(db, batch, job.active, key);
    KeysAreFiled(db, batch, job.active, key);
    MaxIs(mine);
    hide MaxOr, BatchKeys, NextOf;
    if mine != {} { assert NextOf(db, job, key, Pick(mine)); }
    forall id | NextOf(db, job, key, id) ensures id in mine && id <= MaxOr(mine, 0) {
    }
    if key in writes { assert writes[key] == Flagged(db.summaries, key, MaxOr(mine, 0)); }
  }

  lemma KeysAreFiled(db: Db, batch: set<int>, active: map<int, (string, int)>, key: Key)
    ensures key in BatchKeys(db, batch, active) <==> Filed(db, batch, active, key) != {}
  {
    hide Normalized;
    if Filed(db, batch, active, key) != {} {
      var id := Pick(Filed(db, batch, active, key));
      assert id in batch && id in db.records && Normalized(db.records[id], active) == key;
    }
    if key in BatchKeys(db, batch, active) {
      var id :| id in batch && id in db.records && Normalized(db.records[id], active) == key;
      assert id in Filed(db, batch, active, key);
    }
  }

  lemma NextIsThere(db: Db, limit: nat, id: int)
    ensures IsNext(db, limit, id) ==> id in db.records
  {
  }

  lemma MaxIs(s: set<int>)
    ensures s != {} ==> IsMax(s, MaxOr(s, 0))
  {
    if s != {} { MaxExists(s); }
  }

  lemma {:induction false} MaxExists(s: set<int>)
    requires s != {}
    ensures exists m :: IsMax(s, m)
    decreases |s|
  {
    var x := Pick(s);
    var rest := s - {x};
    assert forall y :: y in s ==> y == x || y in rest;
    if rest == {} {
      assert IsMax(s, x);
    } else {
      MaxExists(rest);
      var m :| IsMax(rest, m);
      assert IsMax(s, if x < m then m else x);
    }
  }
}

/**
 * The ledger store with its tables updated in place, one method per
 * transaction. Run alone, each method does exactly what its transaction does in
 * `LedgerRuns`, so what is proved there for every interleaving covers the code
 * that the methods spell out.
 */
module LedgerStore {
  import opened Options
  import opened Sets
  import opened LedgerTables
  import opened LedgerRuns

  /** `n` statements of transaction 0. */
  ghost function Steps(w: World, n: nat): World
    decreases n
  {
    if n == 0 then w else Apply(Steps(w, n - 1), Step(0))
  }

  /** A job run from begin to end with no other transaction open. */
  ghost function Alone(w: World, job: Job): World {
    Steps(Apply(w, Begin(0, job)), 5)
  }

  // ----------------------------------------------- whole transactions in one go

  function InsertWhole(w: World, r: Record, spec: ReceiptSpec): World {
    if spec.dedupe in w.db.receipts then
      var known := w.db.receipts[spec.dedupe];
      if SameReceipt(known, spec) then w.(results := w.results + [Inserted(spec.dedupe, known.refId, known.id, false)]) else w
    else
      var id := w.nextRecord;
      var receipt := Receipt(w.nextReceipt, spec.chat, spec.kind, spec.refKind, id);
      World(Db(w.db.records[id := r], w.db.summaries[KeyOf(r) := Increased(w.db.summaries, r, id)],
               w.db.receipts[spec.dedupe := receipt], w.db.cursor),
            w.txs, id + 1, w.nextReceipt + 1, w.results + [Inserted(spec.dedupe, id, receipt.id, true)])
  }

  lemma InsertAlone(w: World, r: Record, spec: ReceiptSpec)
    requires w.txs == map[] && Accepted(Insert(r, spec))
    ensures Alone(w, Insert(r, spec)) == InsertWhole(w, r, spec)
  {
    hide Plus, Minus, Delta, SumOver, RepairStep, DiscoverStep, UndoStep, Increased;
    var t0 := Tx(Insert(r, spec), 0, None, None, None, map[], ZERO, 0);
    var w0 := Put(w, 0, t0);
    var w1 := Put(w, 0, t0.(pc := 1, lock := Some(KeyOf(r))));
    assert Steps(w0, 0) == w0;
    assert Steps(w0, 1) == w1;
    if spec.dedupe in w.db.receipts {
      var done := InsertWhole(w, r, spec);
      assert Drop(w1, 0).txs == map[];
      FinishedStays(w0, done, 2);
    } else {
      InsertAloneTail(w, r, spec, w0, w1);
    }
  }

  lemma InsertAloneTail(w: World, r: Record, spec: ReceiptSpec, w0: World, w1: World)
    requires w.txs == map[] && Accepted(Insert(r, spec)) && spec.dedupe !in w.db.receipts
    requires w1 == Put(w, 0, Tx(Insert(r, spec), 1, Some(KeyOf(r)), None, None, map[], ZERO, 0)) && Steps(w0, 1) == w1
    ensures Steps(w0, 5) == InsertWhole(w, r, spec)
  {
    hide Plus, Minus, Delta, SumOver, RepairStep, DiscoverStep, UndoStep, Increased;
    var receipt := Receipt(w.nextReceipt, spec.chat, spec.kind, spec.refKind, 0);
    var t2 := Tx(Insert(r, spec), 2, Some(KeyOf(r)), Some((spec.dedupe, receipt)), None, map[], ZERO, 0);
    var w2 := Put(w, 0, t2).(nextReceipt := w.nextReceipt + 1);
    assert Steps(w0, 2) == w2;
    var t3 := t2.(pc := 3, change := Some((w.nextRecord, r)));
    var w3 := Put(w2, 0, t3).(nextRecord := w.nextRecord + 1);
    assert Steps(w0, 3) == w3;
    var t4 := t3.(pc := 4, writes := map[KeyOf(r) := Increased(w.db.summaries, r, w.nextRecord)]);
    var w4 := Put(w3, 0, t4);
    assert Steps(w0, 4) == w4;
    assert Drop(w4, 0).txs == map[];
    assert w.db.summaries + t4.writes == w.db.summaries[KeyOf(r) := Increased(w.db.summaries, r, w.nextRecord)];
    assert Steps(w0, 5) == Commit(w4, 0, t4);
  }

  function UndoWhole(w: World, job: Job): World
    requires job.Undo?
  {
    if job.undoSpec.Some? && job.undoSpec.value.dedupe in w.db.receipts then
      var known := w.db.receipts[job.undoSpec.value.dedupe];
      if SameReceipt(known, job.undoSpec.value) && known.refId in w.db.records
      then w.(results := w.results + [Deleted(Some(job.undoSpec.value.dedupe), known.refId, known.id, false)]) else w
    else
      var w' := w.(nextReceipt := w.nextReceipt + if job.undoSpec.Some? then 1 else 0);
      if !UndoTarget(w.db, job) then w'
      else
        var r := Rekeyed(w.db.records[job.id], job.periodStart).(deleted := true);
        w'.(db := Db(w.db.records[job.id := r], Uncharged(w.db.summaries, r),
                     if job.undoSpec.Some? then w.db.receipts[job.undoSpec.value.dedupe := UndoReceipt(w, job)] else w.db.receipts,
                     w.db.cursor),
            results := w.results + [if job.undoSpec.Some? then Deleted(Some(job.undoSpec.value.dedupe), job.id, w.nextReceipt, true)
                                    else Deleted(None, job.id, 0, true)])
  }

  function UndoReceipt(w: World, job: Job): Receipt
    requires job.Undo? && job.undoSpec.Some?
  {
    Receipt(w.nextReceipt, job.undoSpec.value.chat, job.undoSpec.value.kind, job.undoSpec.value.refKind, job.id)
  }

  lemma UndoAlone(w: World, job: Job)
    requires w.txs == map[] && job.Undo? && Accepted(job)
    ensures Alone(w, job) == UndoWhole(w, job)
  {
    var t0 := Tx(job, 0, None, None, None, map[], ZERO, 0);
    var w0 := Put(w, 0, t0);
    assert Steps(w0, 0) == w0;
    if job.undoSpec.Some? && job.undoSpec.value.dedupe in w.db.receipts {
      assert Drop(w0, 0).txs == map[];
      FinishedStays(w0, UndoWhole(w, job), 1);
    } else {
      UndoAloneTail(w, job, w0);
    }
  }

  /** Once transaction 0 is over, its further steps do nothing. */
  lemma FinishedStays(w0: World, done: World, n: nat)
    requires n <= 5 && Steps(w0, n) == done && 0 !in done.txs
    ensures Steps(w0, 5) == done
    decreases 5 - n
  {
    if n < 5 { FinishedStays(w0, done, n + 1); }
  }

  lemma UndoAloneTail(w: World, job: Job, w0: World)
    requires w.txs == map[] && job.Undo? && Accepted(job)
    requires w0 == Put(w, 0, Tx(job, 0, None, None, None, map[], ZERO, 0))
    requires job.undoSpec.Some? ==> job.undoSpec.value.dedupe !in w.db.receipts
    ensures Steps(w0, 5) == UndoWhole(w, job)
  {
    hide Plus, Minus, Delta, SumOver, RepairStep, DiscoverStep, InsertStep, Healthy;
    var t1 := Tx(job, 1, None,
                 if job.undoSpec.Some? then Some((job.undoSpec.value.dedupe, UndoReceipt(w, job))) else None,
                 None, map[], ZERO, 0);
    var w1 := Put(w, 0, t1).(nextReceipt := w.nextReceipt + if job.undoSpec.Some? then 1 else 0);
    assert Steps(w0, 0) == w0;
    assert Steps(w0, 1) == w1;
    if !UndoTarget(w.db, job) {
      assert Drop(w1, 0).txs == map[];
      FinishedStays(w0, UndoWhole(w, job), 2);
    } else {
      var r := Rekeyed(w.db.records[job.id], job.periodStart).(deleted := true);
      var t2 := t1.(pc := 2, change := Some((job.id, r)));
      var w2 := Put(w1, 0, t2);
      assert Steps(w0, 2) == w2;
      hide Steps, UndoWhole;
      if r.period > EPOCH { ChargedUndo(w, job, w0, t2, r); } else { UnchargedUndo(w, job, w0, t2, r); }
    }
  }

  /** The world of an undo that has deleted its record, still uncommitted. */
  ghost predicate Deleting(w: World, job: Job, w0: World, t2: Tx, r: Record) {
    && w.txs == map[] && job.Undo? && UndoTarget(w.db, job)
    && (job.undoSpec.Some? ==> job.undoSpec.value.dedupe !in w.db.receipts)
    && r == Rekeyed(w.db.records[job.id], job.periodStart).(deleted := true)
    && t2 == Tx(job, 2, None, if job.undoSpec.Some? then Some((job.undoSpec.value.dedupe, UndoReceipt(w, job))) else None,
                Some((job.id, r)), map[], ZERO, 0)
    && Steps(w0, 2) == Put(w, 0, t2).(nextReceipt := w.nextReceipt + if job.undoSpec.Some? then 1 else 0)
  }

  lemma ChargedUndo(w: World, job: Job, w0: World, t2: Tx, r: Record)
    requires Deleting(w, job, w0, t2, r) && r.period > EPOCH
    ensures Steps(w0, 5) == UndoWhole(w, job)
  {
    hide Minus, Delta, RepairStep, DiscoverStep, InsertStep;
    var w2 := Steps(w0, 2);
    var w3 := Put(w2, 0, t2.(pc := 3, lock := Some(KeyOf(r))));
    assert Steps(w0, 3) == w3;
    var writes: Summaries := if KeyOf(r) in w.db.summaries then map[KeyOf(r) := Decreased(w.db.summaries[KeyOf(r)], r)] else map[];
    var t4 := t2.(pc := 4, lock := Some(KeyOf(r)), writes := writes);
    var w4 := Put(w3, 0, t4);
    assert Steps(w0, 4) == w4;
    assert Drop(w4, 0).txs == map[];
    assert w.db.summaries + writes == Uncharged(w.db.summaries, r);
    assert Steps(w0, 5) == Commit(w4, 0, t4);
  }

  lemma UnchargedUndo(w: World, job: Job, w0: World, t2: Tx, r: Record)
    requires Deleting(w, job, w0, t2, r) && r.period <= EPOCH
    ensures Steps(w0, 5) == UndoWhole(w, job)
  {
    hide Minus, Delta, RepairStep, DiscoverStep, InsertStep;
    var t3 := t2.(pc := 4);
    var w3 := Put(Steps(w0, 2), 0, t3);
    assert Steps(w0, 3) == w3;
    assert Drop(w3, 0).txs == map[];
    assert w.db.summaries + map[] == w.db.summaries;
    assert Steps(w0, 4) == Commit(w3, 0, t3);
    FinishedStays(w0, UndoWhole(w, job), 4);
  }

  // -------------------------------------------------------------------- the store

  class Ledger {
    var records: Records
    var summaries: Summaries
    var receipts: map<string, Receipt>
    var cursor: int
    var nextRecord: int
    var nextReceipt: int

    /** The tables as a world with no open transaction and no results yet. */
    ghost function Idle(): World
      reads this
    {
      World(Db(records, summaries, receipts, cursor), map[], nextRecord, nextReceipt, [])
    }

    constructor ()
      ensures Idle() == START
    {
      records, summaries, receipts := map[], map[], map[];
      cursor, nextRecord, nextReceipt := 0, 1, 1;
    }

    /** `applyLedgerSummaryInsert` */
    method ApplyInsert(r: Record, id: int)
      modifies this`summaries
      ensures summaries == old(summaries)[KeyOf(r) := Increased(old(summaries), r, id)]
    {
      var key := KeyOf(r);
      if key in summaries {
        var s := summaries[key];
        var high := s.highWatermark;
        if high < id { high := id; }
        summaries := summaries[key := s.(totals := Plus(s.totals, Delta(r)), highWatermark := high)];
      } else {
        summaries := summaries[key := Summary(Delta(r), id, true, false)];
      }
    }

    /** `applyLedgerSummaryDelete` */
    method ApplyDelete(r: Record)
      requires r.period > EPOCH
      modifies this`summaries
      ensures summaries == Uncharged(old(summaries), r)
    {
      var key := KeyOf(r);
      if key in summaries {
        var s := summaries[key];
        summaries := summaries[key := s.(totals := Minus(s.totals, Delta(r)))];
      }
    }

    /** `InsertLedgerRecordWithOutbox`: the record and receipt ids it returns, or
        `None` when the dedupe key belongs to a different receipt. */
    method InsertRecord(r: Record, spec: ReceiptSpec) returns (outcome: Option<Result>)
      requires Accepted(Insert(r, spec))
      modifies this
      ensures Idle().(results := Listed(outcome)) == Alone(old(Idle()), Insert(r, spec))
    {
      InsertAlone(Idle(), r, spec);
      if spec.dedupe in receipts {
        var known := receipts[spec.dedupe];
        if !SameReceipt(known, spec) { return None; }
        return Some(Inserted(spec.dedupe, known.refId, known.id, false));
      }
      var receipt := Receipt(nextReceipt, spec.chat, spec.kind, spec.refKind, 0);
      nextReceipt := nextReceipt + 1;
      var id := nextRecord;
      nextRecord := nextRecord + 1;
      records := records[id := r];
      ApplyInsert(r, id);
      receipts := receipts[spec.dedupe := receipt.(refId := id)];
      outcome := Some(Inserted(spec.dedupe, id, receipt.id, true));
    }

    /** `softDeleteRecordWithSummaryAndOutbox`: `None` when nothing was deleted. */
    method SoftDelete(chat: int, id: int, kind: Option<Kind>, periodStart: int, spec: Option<ReceiptSpec>)
      returns (outcome: Option<Result>)
      requires Accepted(Undo(chat, id, kind, periodStart, spec))
      modifies this
      ensures Idle().(results := Listed(outcome)) == Alone(old(Idle()), Undo(chat, id, kind, periodStart, spec))
    {
      ghost var job := Undo(chat, id, kind, periodStart, spec);
      UndoAlone(Idle(), job);
      var receiptId := nextReceipt;
      if spec.Some? {
        if spec.value.dedupe in receipts {
          var known := receipts[spec.value.dedupe];
          if !SameReceipt(known, spec.value) || known.refId !in records { return None; }
          return Some(Deleted(Some(spec.value.dedupe), known.refId, known.id, false));
        }
        nextReceipt := nextReceipt + 1;
      }
      if id !in records || records[id].deleted || records[id].chat != chat || (kind.Some? && records[id].kind != kind.value) {
        return None;
      }
      var r := records[id].(deleted := true);
      if periodStart > EPOCH && r.period <= EPOCH { r := r.(period := periodStart); }
      records := records[id := r];
      if r.period > EPOCH { ApplyDelete(r); }
      if spec.None? { return Some(Deleted(None, id, 0, true)); }
      receipts := receipts[spec.value.dedupe := Receipt(receiptId, spec.value.chat, spec.value.kind, spec.value.refKind, id)];
      outcome := Some(Deleted(Some(spec.value.dedupe), id, receiptId, true));
    }

    /** `getLegacyBillSummaryForPeriodUsing`: the totals, summed over the table. */
    method Recompute(key: Key) returns (totals: Totals, high: int)
      ensures totals == Aggregate(records, key)
      ensures high == HighWatermark(records, key)
    {
      hide Plus, Share;
      var left := records.Keys;
      totals, high := ZERO, 0;
      PlusZero(Aggregate(records, key));
      var found := false;
      while left != {}
        invariant left <= records.Keys
        invariant Plus(totals, SumOver(left, records, key)) == Aggregate(records, key)
        invariant found <==> exists id :: id in records.Keys - left && Counts(records[id], key)
        invariant !found ==> high == 0
        invariant found ==> high in records.Keys - left && Counts(records[high], key)
        invariant forall id :: id in records.Keys - left && Counts(records[id], key) ==> id <= high
        decreases |left|
      {
        var id := Choose(left);
        SumSplit(left, records, key, id);
        PlusMoves(totals, Share(records[id], key), SumOver(left - {id}, records, key));
        totals := Plus(totals, Share(records[id], key));
        if Counts(records[id], key) && (!found || id > high) { found, high := true, id; }
        left := left - {id};
      }
      PlusZero(totals);
      assert found ==> IsHigh(records, key, high);
    }

    /** `loadAndRepairLedgerPeriodSummary`: whether the row was already right. */
    method RepairSummary(key: Key) returns (actual: Totals, matched: bool)
      modifies this`summaries
      ensures Idle() == Alone(old(Idle()), Repair(key))
      ensures actual == Aggregate(records, key)
      ensures matched <==> Clean(old(summaries), key) && old(summaries)[key].totals == actual
    {
      RepairAlone(Idle(), key);
      var high;
      actual, high := Recompute(key);
      matched := Clean(summaries, key) && summaries[key].totals == actual;
      summaries := summaries[key := Summary(actual, high, false, true)];
    }
  }

  function Listed(outcome: Option<Result>): seq<Result> { if outcome.Some? then [outcome.value] else [] }

  lemma PlusZero(a: Totals)
    ensures Plus(ZERO, a) == a && Plus(a, ZERO) == a
  {
  }

  lemma PlusMoves(a: Totals, b: Totals, c: Totals)
    ensures Plus(a, Plus(b, c)) == Plus(Plus(a, b), c)
  {
  }

  lemma RepairAlone(w: World, key: Key)
    requires w.txs == map[]
    ensures Alone(w, Repair(key)) ==
      w.(db := w.db.(summaries := w.db.summaries[key := Rebuilt(Aggregate(w.db.records, key), HighWatermark(w.db.records, key))]))
  {
    var t0 := Tx(Repair(key), 0, None, None, None, map[], ZERO, 0);
    var w0 := Put(w, 0, t0);
    assert Steps(w0, 0) == w0;
    var t1 := t0.(pc := 1, lock := Some(key));
    var w1 := Put(w0, 0, t1);
    assert Steps(w0, 1) == w1;
    var t2 := t1.(pc := 2, seen := Aggregate(w.db.records, key));
    var w2 := Put(w1, 0, t2);
    assert Steps(w0, 2) == w2;
    var row := Rebuilt(t2.seen, HighWatermark(w.db.records, key));
    var t3 := t2.(pc := 3, writes := map[key := row]);
    var w3 := Put(w2, 0, t3);
    assert Steps(w0, 3) == w3;
    assert Drop(w3, 0).txs == map[];
    assert w.db.summaries + map[key := row] == w.db.summaries[key := row];
    assert w.results + [] == w.results;
    assert Steps(w0, 4) == Commit(w3, 0, t3);
    FinishedStays(w0, Commit(w3, 0, t3), 4);
  }
}

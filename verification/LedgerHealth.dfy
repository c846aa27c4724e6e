/**
 * Under every interleaving of inserts, undos, repairs and key discovery, a
 * committed summary that is reconciled and not dirty equals the aggregate over
 * the period's undeleted records.
 */
module LedgerHealth {
  import opened Options
  import opened LedgerTables
  import opened LedgerRuns

  // ------------------------------------------------- what one open transaction is

  ghost predicate InsertOk(db: Db, tx: Tx)
    requires tx.job.Insert?
  {
    var r := tx.job.record;
    && tx.pc <= 4 && r.period > EPOCH && !r.deleted
    && tx.lock == (if tx.pc >= 1 then Some(KeyOf(r)) else None)
    && (if tx.pc >= 3 then tx.change.Some? && tx.change.value.1 == r && tx.change.value.0 !in db.records && tx.change.value.0 > 0
        else tx.change == None)
    && tx.writes == (if tx.pc == 4 then map[KeyOf(r) := Increased(db.summaries, r, tx.change.value.0)] else map[])
  }

  ghost predicate UndoOk(db: Db, tx: Tx)
    requires tx.job.Undo?
  {
    var id := tx.job.id;
    && tx.pc <= 4
    && (if tx.pc >= 2 then
          && id in db.records && !db.records[id].deleted && db.records[id].period > EPOCH
          && tx.change == Some((id, db.records[id].(deleted := true)))
        else tx.change == None)
    && tx.lock == (if tx.pc >= 3 then Some(KeyOf(db.records[id])) else None)
    && (if tx.pc < 4 then tx.writes == map[] else UndoWrites(db, tx))
  }

  /** The decrement, or nothing when the period had no summary row: then the row
      can only have been created dirty since. */
  ghost predicate UndoWrites(db: Db, tx: Tx)
    requires tx.job.Undo? && tx.job.id in db.records
  {
    var r := db.records[tx.job.id].(deleted := true);
    var key := KeyOf(r);
    || (key in db.summaries && tx.writes == map[key := Decreased(db.summaries[key], r)])
    || (tx.writes == map[] && !Clean(db.summaries, key))
  }

  ghost predicate RepairOk(db: Db, tx: Tx)
    requires tx.job.Repair?
  {
    var key := tx.job.key;
    && tx.pc <= 3 && tx.change == None && tx.receipt == None
    && tx.lock == (if tx.pc >= 1 then Some(key) else None)
    && (tx.pc >= 2 ==> tx.seen == Aggregate(db.records, key))
    && (if tx.pc == 3 then key in tx.writes && tx.writes == map[key := Rebuilt(tx.seen, tx.writes[key].highWatermark)]
        else tx.writes == map[])
  }

  /** Discovery may only make a summary dirtier. */
  ghost predicate OnlyFlags(summaries: Summaries, key: Key, s: Summary) {
    if key in summaries then
      s.totals == summaries[key].totals && s.reconciled == summaries[key].reconciled && (summaries[key].dirty ==> s.dirty)
    else s.dirty
  }

  ghost predicate DiscoverOk(db: Db, tx: Tx)
    requires tx.job.Discover?
  {
    && tx.pc <= 3 && tx.change == None && tx.receipt == None && tx.lock == None
    && (if tx.pc == 3 then forall key :: key in tx.writes ==> OnlyFlags(db.summaries, key, tx.writes[key])
        else tx.writes == map[])
  }

  ghost predicate TxOk(db: Db, tx: Tx) {
    match tx.job
    case Insert(_, _) => InsertOk(db, tx)
    case Undo(_, _, _, _, _) => UndoOk(db, tx)
    case Repair(_) => RepairOk(db, tx)
    case Discover(_, _) => DiscoverOk(db, tx)
  }

  ghost predicate Apart(a: Tx, b: Tx) {
    && (a.lock.Some? ==> a.lock != b.lock)
    && a.writes.Keys !! b.writes.Keys
    && (a.change.Some? && b.change.Some? ==> a.change.value.0 != b.change.value.0)
  }

  ghost predicate RecordsOk(w: World) {
    && w.nextRecord > 0
    && (forall id :: id in w.db.records ==> 0 < id < w.nextRecord && w.db.records[id].period > EPOCH)
    && (forall t :: t in w.txs && w.txs[t].change.Some? ==> w.txs[t].change.value.0 < w.nextRecord)
  }

  ghost predicate Inv(w: World) {
    && RecordsOk(w)
    && Healthy(w.db.records, w.db.summaries)
    && (forall t :: t in w.txs ==> TxOk(w.db, w.txs[t]))
    && (forall t, u :: t in w.txs && u in w.txs && t != u ==> Apart(w.txs[t], w.txs[u]))
  }

  // ------------------------------------------------------- statements inside one

  /** One transaction moving on by itself, the tables unchanged. */
  lemma PutKeeps(w: World, w': World, t: nat, tx: Tx)
    requires Inv(w) && w'.db == w.db && w'.txs == w.txs[t := tx] && w.nextRecord <= w'.nextRecord
    requires TxOk(w.db, tx) && (tx.change.Some? ==> tx.change.value.0 < w'.nextRecord)
    requires forall u :: u in w.txs && u != t ==> Apart(tx, w.txs[u]) && Apart(w.txs[u], tx)
    ensures Inv(w')
  {
  }

  lemma DropKeeps(w: World, w': World, t: nat)
    requires Inv(w) && w'.db == w.db && w'.txs == w.txs - {t} && w.nextRecord <= w'.nextRecord
    ensures Inv(w')
  {
  }

  // --------------------------------------------------------------------- commits

  /** A modern record is counted by its own period only. */
  lemma CountsOwnKey(r: Record, key: Key)
    requires r.period > EPOCH
    ensures Counts(r, key) <==> key == KeyOf(r)
  {
  }

  /** Writing one modern record changes the aggregate of its own period only. */
  lemma OtherPeriodsStay(records: Records, id: int, r: Record, key: Key)
    requires r.period > EPOCH && (id in records ==> records[id].period > EPOCH && KeyOf(records[id]) == KeyOf(r))
    requires key != KeyOf(r)
    ensures Aggregate(records[id := r], key) == Aggregate(records, key)
  {
    AggregateWrite(records, key, id, r);
  }

  /** Ready to commit: the last step of its job. */
  predicate AtCommit(tx: Tx) {
    tx.pc >= (if tx.job.Insert? || tx.job.Undo? then 4 else 3)
  }

  lemma InsertKeepsHealth(db: Db, tx: Tx)
    requires tx.job.Insert? && InsertOk(db, tx) && AtCommit(tx) && Healthy(db.records, db.summaries)
    ensures Healthy(Committed(db, tx).records, Committed(db, tx).summaries)
  {
    hide Healthy, Increased;
    var (id, r) := tx.change.value;
    ModernRecordKeepsHealth(db.records, db.summaries, id, r, 0);
    assert db.summaries + tx.writes == db.summaries[KeyOf(r) := Increased(db.summaries, r, id)];
  }

  lemma UndoKeepsHealth(db: Db, tx: Tx)
    requires tx.job.Undo? && UndoOk(db, tx) && AtCommit(tx) && Healthy(db.records, db.summaries)
    ensures Healthy(Committed(db, tx).records, Committed(db, tx).summaries)
  {
    hide Aggregate, Delta, Plus, Minus;
    var r := db.records[tx.job.id];
    ModernRecordKeepsHealth(db.records, db.summaries, tx.job.id, r, 0);
    var charged, written := Uncharged(db.summaries, r), Committed(db, tx).summaries;
    SameDelta(r);
    assert forall key :: Clean(written, key) ==> Clean(charged, key) && written[key] == charged[key];
  }

  lemma SameDelta(r: Record)
    ensures Delta(r.(deleted := true)) == Delta(r) && KeyOf(r.(deleted := true)) == KeyOf(r)
  {
  }

  lemma RepairKeepsHealth(db: Db, tx: Tx)
    requires tx.job.Repair? && RepairOk(db, tx) && AtCommit(tx) && Healthy(db.records, db.summaries)
    ensures Healthy(Committed(db, tx).records, Committed(db, tx).summaries)
  {
    hide Aggregate;
  }

  lemma DiscoverKeepsHealth(db: Db, tx: Tx)
    requires tx.job.Discover? && DiscoverOk(db, tx) && AtCommit(tx) && Healthy(db.records, db.summaries)
    ensures Healthy(Committed(db, tx).records, Committed(db, tx).summaries)
  {
    hide Aggregate;
    var written := Committed(db, tx).summaries;
    forall key | Clean(written, key) ensures Clean(db.summaries, key) && written[key].totals == db.summaries[key].totals {
      if key in tx.writes { assert OnlyFlags(db.summaries, key, tx.writes[key]); }
    }
  }

  lemma CommitKeepsHealth(w: World, t: nat, tx: Tx)
    requires Inv(w) && t in w.txs && w.txs[t] == tx && AtCommit(tx)
    ensures Healthy(Committed(w.db, tx).records, Committed(w.db, tx).summaries)
  {
    hide Healthy, Apart, Committed, InsertOk, UndoOk, RepairOk, DiscoverOk;
    assert TxOk(w.db, tx);
    match tx.job
    case Insert(_, _) => InsertKeepsHealth(w.db, tx);
    case Undo(_, _, _, _, _) => UndoKeepsHealth(w.db, tx);
    case Repair(_) => RepairKeepsHealth(w.db, tx);
    case Discover(_, _) => DiscoverKeepsHealth(w.db, tx);
  }

  lemma CommitKeepsRepair(db: Db, tx: Tx, other: Tx)
    requires TxOk(db, tx) && AtCommit(tx) && other.job.Repair? && RepairOk(db, other) && Apart(tx, other) && Apart(other, tx)
    ensures RepairOk(Committed(db, tx), other)
  {
    hide Aggregate, UndoWrites;
    if other.pc >= 1 && tx.change.Some? {
      assert tx.lock.Some? && tx.lock != other.lock;
      OtherPeriodsStay(db.records, tx.change.value.0, tx.change.value.1, other.job.key);
    }
  }

  lemma CommitKeepsUndo(db: Db, tx: Tx, other: Tx)
    requires TxOk(db, tx) && AtCommit(tx) && other.job.Undo? && UndoOk(db, other) && Apart(tx, other) && Apart(other, tx)
    ensures UndoOk(Committed(db, tx), other)
  {
    hide Aggregate;
    if other.pc == 4 {
      var key := KeyOf(db.records[other.job.id]);
      if key in tx.writes && other.writes == map[] {
        assert tx.lock != Some(key);
        assert tx.job.Discover?;
      }
    }
  }

  /** What a commit leaves of another open transaction's view. */
  lemma CommitKeepsOther(w: World, t: nat, tx: Tx, u: nat)
    requires Inv(w) && t in w.txs && w.txs[t] == tx && AtCommit(tx) && u in w.txs && u != t
    ensures TxOk(Committed(w.db, tx), w.txs[u])
  {
    hide Healthy, Aggregate;
    var other := w.txs[u];
    assert TxOk(w.db, tx) && TxOk(w.db, other) && Apart(tx, other) && Apart(other, tx);
    if other.job.Repair? {
      CommitKeepsRepair(w.db, tx, other);
    } else if other.job.Undo? {
      CommitKeepsUndo(w.db, tx, other);
    }
  }

  lemma CommitKeeps(w: World, t: nat, tx: Tx)
    requires Inv(w) && t in w.txs && w.txs[t] == tx && AtCommit(tx)
    ensures Inv(Commit(w, t, tx))
  {
    hide Healthy, Aggregate;
    CommitKeepsHealth(w, t, tx);
    assert TxOk(w.db, tx);
    var w' := Commit(w, t, tx);
    forall u | u in w'.txs ensures TxOk(w'.db, w'.txs[u]) {
      CommitKeepsOther(w, t, tx, u);
    }
  }

  // ----------------------------------------------------------------------- steps

  lemma InsertShape(w: World, t: nat, tx: Tx)
    requires t in w.txs && w.txs[t] == tx && tx.job.Insert? && tx.pc < 4
    ensures
      var w' := InsertStep(w, t, tx);
      w'.db == w.db && w.nextRecord <= w'.nextRecord &&
      (if t in w'.txs then w'.txs == w.txs[t := w'.txs[t]] && w'.txs[t].job == tx.job else w'.txs == w.txs - {t})
  {
  }

  lemma InsertStepOk(w: World, t: nat, tx: Tx)
    requires t in w.txs && w.txs[t] == tx && tx.job.Insert? && tx.pc < 4 && InsertOk(w.db, tx) && RecordsOk(w)
    ensures
      var w' := InsertStep(w, t, tx);
      t in w'.txs ==> w'.txs[t].job == tx.job && InsertOk(w.db, w'.txs[t]) &&
                      (w'.txs[t].change.Some? ==> w'.txs[t].change.value.0 < w'.nextRecord)
  {
  }

  lemma InsertStepApart(w: World, t: nat, tx: Tx, u: nat)
    requires t in w.txs && w.txs[t] == tx && tx.job.Insert? && tx.pc < 4 && InsertOk(w.db, tx) && RecordsOk(w)
    requires u in w.txs && u != t && Apart(tx, w.txs[u]) && Apart(w.txs[u], tx)
    ensures
      var w' := InsertStep(w, t, tx);
      t in w'.txs ==> Apart(w'.txs[t], w.txs[u]) && Apart(w.txs[u], w'.txs[t])
  {
  }

  lemma InsertKeeps(w: World, t: nat, tx: Tx)
    requires Inv(w) && t in w.txs && w.txs[t] == tx && tx.job.Insert?
    ensures Inv(InsertStep(w, t, tx))
  {
    hide InsertOk, Apart, Healthy, InsertStep;
    assert TxOk(w.db, tx);
    var w' := InsertStep(w, t, tx);
    if tx.pc >= 4 {
      InsertIsCommit(w, t, tx);
      CommitKeeps(w, t, tx);
    } else {
      InsertShape(w, t, tx);
      InsertStepOk(w, t, tx);
      if t in w'.txs {
        forall u | u in w.txs && u != t ensures Apart(w'.txs[t], w.txs[u]) && Apart(w.txs[u], w'.txs[t]) {
          InsertStepApart(w, t, tx, u);
        }
        PutKeeps(w, w', t, w'.txs[t]);
      } else {
        DropKeeps(w, w', t);
      }
    }
  }

  lemma InsertIsCommit(w: World, t: nat, tx: Tx)
    requires tx.job.Insert? && tx.pc >= 4
    ensures InsertStep(w, t, tx) == Commit(w, t, tx)
  {
  }

  lemma UndoShape(w: World, t: nat, tx: Tx)
    requires t in w.txs && w.txs[t] == tx && tx.job.Undo? && tx.pc < 4
    ensures
      var w' := UndoStep(w, t, tx);
      w'.db == w.db && w.nextRecord <= w'.nextRecord &&
      (if t in w'.txs then w'.txs == w.txs[t := w'.txs[t]] && w'.txs[t].job == tx.job else w'.txs == w.txs - {t})
  {
  }

  lemma UndoStepOk(w: World, t: nat, tx: Tx)
    requires t in w.txs && w.txs[t] == tx && tx.job.Undo? && tx.pc < 4 && UndoOk(w.db, tx) && RecordsOk(w)
    ensures
      var w' := UndoStep(w, t, tx);
      t in w'.txs ==> w'.txs[t].job == tx.job && UndoOk(w.db, w'.txs[t]) &&
                      (w'.txs[t].change.Some? ==> w'.txs[t].change.value.0 < w'.nextRecord)
  {
  }

  lemma UndoStepApart(w: World, t: nat, tx: Tx, u: nat)
    requires t in w.txs && w.txs[t] == tx && tx.job.Undo? && tx.pc < 4 && UndoOk(w.db, tx) && RecordsOk(w)
    requires u in w.txs && u != t && Apart(tx, w.txs[u]) && Apart(w.txs[u], tx)
    ensures
      var w' := UndoStep(w, t, tx);
      t in w'.txs ==> Apart(w'.txs[t], w.txs[u]) && Apart(w.txs[u], w'.txs[t])
  {
  }

  lemma UndoKeeps(w: World, t: nat, tx: Tx)
    requires Inv(w) && t in w.txs && w.txs[t] == tx && tx.job.Undo?
    ensures Inv(UndoStep(w, t, tx))
  {
    hide UndoOk, Apart, Healthy, UndoStep;
    assert TxOk(w.db, tx);
    var w' := UndoStep(w, t, tx);
    if tx.pc >= 4 {
      UndoIsCommit(w, t, tx);
      CommitKeeps(w, t, tx);
    } else {
      UndoShape(w, t, tx);
      UndoStepOk(w, t, tx);
      if t in w'.txs {
        forall u | u in w.txs && u != t ensures Apart(w'.txs[t], w.txs[u]) && Apart(w.txs[u], w'.txs[t]) {
          UndoStepApart(w, t, tx, u);
        }
        PutKeeps(w, w', t, w'.txs[t]);
      } else {
        DropKeeps(w, w', t);
      }
    }
  }

  lemma UndoIsCommit(w: World, t: nat, tx: Tx)
    requires tx.job.Undo? && tx.pc >= 4
    ensures UndoStep(w, t, tx) == Commit(w, t, tx)
  {
  }

  lemma RepairKeeps(w: World, t: nat, tx: Tx)
    requires Inv(w) && t in w.txs && w.txs[t] == tx && tx.job.Repair?
    ensures Inv(RepairStep(w, t, tx))
  {
    hide SumOver, Healthy, InsertOk, UndoOk, DiscoverOk;
    assert TxOk(w.db, tx);
    var w' := RepairStep(w, t, tx);
    if tx.pc == 3 {
      CommitKeeps(w, t, tx);
    } else {
      PutKeeps(w, w', t, w'.txs[t]);
    }
  }

  lemma DiscoverKeeps(w: World, t: nat, tx: Tx)
    requires Inv(w) && t in w.txs && w.txs[t] == tx && tx.job.Discover?
    ensures Inv(DiscoverStep(w, t, tx))
  {
    hide SumOver, Healthy, InsertOk, UndoOk, RepairOk;
    assert TxOk(w.db, tx);
    var w' := DiscoverStep(w, t, tx);
    if tx.pc == 3 {
      CommitKeeps(w, t, tx);
    } else {
      PutKeeps(w, w', t, w'.txs[t]);
    }
  }

  lemma StepKeeps(w: World, e: Event)
    requires Inv(w)
    ensures Inv(Apply(w, e))
  {
    var w' := Apply(w, e);
    if e.Abort? {
      DropKeeps(w, w', e.t);
    } else if e.t in w.txs {
      if e.Step? {
        var tx := w.txs[e.t];
        match tx.job {
          case Insert(_, _) => InsertKeeps(w, e.t, tx);
          case Undo(_, _, _, _, _) => UndoKeeps(w, e.t, tx);
          case Repair(_) => RepairKeeps(w, e.t, tx);
          case Discover(_, _) => DiscoverKeeps(w, e.t, tx);
        }
      }
    } else if w' != w {
      PutKeeps(w, w', e.t, w'.txs[e.t]);
    }
  }

  lemma {:induction false} RunKeeps(events: seq<Event>)
    ensures Inv(Run(events))
  {
    if events != [] {
      RunKeeps(events[..|events| - 1]);
      StepKeeps(Run(events[..|events| - 1]), events[|events| - 1]);
    }
  }

  /** In every reachable committed state, whatever is open, a summary served
      without recomputation is the aggregate over the undeleted records. */
  lemma ServedSummaryIsAggregate(events: seq<Event>, key: Key)
    requires Clean(Run(events).db.summaries, key)
    ensures Run(events).db.summaries[key].totals == Aggregate(Run(events).db.records, key)
  {
    RunKeeps(events);
  }
}

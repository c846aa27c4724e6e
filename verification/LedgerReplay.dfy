/**
 * Replaying an insert or an undo never doubles its effect: over any
 * interleaving there is one record, one deletion and one pair of returned ids
 * per dedupe key.
 */
module LedgerReplay {
  import opened Options
  import opened LedgerTables
  import opened LedgerRuns
  import opened LedgerHealth

  function DedupeOf(r: Result): Option<string> {
    match r
    case Inserted(dedupe, _, _, _) => Some(dedupe)
    case Deleted(dedupe, _, _, _) => dedupe
  }

  ghost predicate ReceiptOk(db: Db, tx: Tx) {
    && (tx.job.Insert? ==> (tx.receipt.Some? <==> tx.pc >= 2))
    && (tx.job.Undo? ==> (tx.receipt.Some? <==> tx.pc >= 1 && tx.job.undoSpec.Some?))
    && (tx.job.Repair? || tx.job.Discover? ==> tx.receipt.None?)
    && (tx.receipt.Some? ==>
          && tx.receipt.value.0 !in db.receipts
          && (tx.job.Undo? ==> tx.receipt.value.1.refId == tx.job.id))
  }

  /** Result `i` is the run that created receipt `dedupe`. */
  ghost predicate FirstFor(results: seq<Result>, i: int, dedupe: string) {
    0 <= i < |results| && results[i].first && DedupeOf(results[i]) == Some(dedupe)
  }

  ghost predicate Matches(db: Db, r: Result) {
    DedupeOf(r).Some? ==>
      && DedupeOf(r).value in db.receipts
      && db.receipts[DedupeOf(r).value].id == r.receiptId
      && db.receipts[DedupeOf(r).value].refId == r.recordId
  }

  /** Two effective runs differ in their dedupe key and in what they changed. */
  ghost predicate Unrelated(a: Result, b: Result) {
    && (DedupeOf(a).Some? ==> DedupeOf(a) != DedupeOf(b))
    && (a.Inserted? == b.Inserted? ==> a.recordId != b.recordId)
  }

  ghost predicate InsertedBy(results: seq<Result>, i: int, id: int) {
    0 <= i < |results| && results[i].Inserted? && results[i].first && results[i].recordId == id
  }

  ghost predicate DeletedBy(results: seq<Result>, i: int, id: int) {
    0 <= i < |results| && results[i].Deleted? && results[i].first && results[i].recordId == id
  }

  ghost predicate ResultsOk(w: World) {
    && (forall i :: 0 <= i < |w.results| ==> Matches(w.db, w.results[i]))
    && (forall i, j :: 0 <= i < j < |w.results| && w.results[i].first && w.results[j].first ==>
          Unrelated(w.results[i], w.results[j]))
    && (forall d :: d in w.db.receipts ==> exists i :: FirstFor(w.results, i, d))
  }

  ghost predicate EffectsOk(w: World) {
    && (forall id :: id in w.db.records ==> exists i :: InsertedBy(w.results, i, id))
    && (forall i, id :: InsertedBy(w.results, i, id) ==> id in w.db.records)
    && (forall id :: id in w.db.records && w.db.records[id].deleted ==> exists i :: DeletedBy(w.results, i, id))
    && (forall i, id :: DeletedBy(w.results, i, id) ==> id in w.db.records && w.db.records[id].deleted)
  }

  ghost predicate ReplayInv(w: World) {
    && ResultsOk(w) && EffectsOk(w)
    && (forall t :: t in w.txs ==> ReceiptOk(w.db, w.txs[t]))
    && (forall t, u :: t in w.txs && u in w.txs && t != u && w.txs[t].receipt.Some? && w.txs[u].receipt.Some?
          ==> w.txs[t].receipt.value.0 != w.txs[u].receipt.value.0)
  }

  /** Steps that end nothing and change no table keep the results as they are. */
  lemma SilentKeeps(w: World, w': World, t: nat)
    requires ReplayInv(w) && w'.db == w.db && w'.results == w.results
    requires w'.txs == w.txs - {t} ||
      (t in w'.txs && w'.txs == w.txs[t := w'.txs[t]] && ReceiptOk(w.db, w'.txs[t]) &&
       (w'.txs[t].receipt.Some? ==> DedupeFree(w, t, w'.txs[t].receipt.value.0)))
    ensures ReplayInv(w')
  {
  }

  lemma ReplayMatches(w: World, t: nat, tx: Tx, spec: ReceiptSpec, undone: Option<int>)
    requires ReplayInv(w) && t in w.txs && spec.dedupe in w.db.receipts
    requires Reserve(w, t, tx, spec, undone).results != w.results
    ensures ResultsOk(Reserve(w, t, tx, spec, undone))
  {
    hide EffectsOk;
    var w', n := Reserve(w, t, tx, spec, undone), |w.results|;
    assert forall i :: 0 <= i < n ==> w'.results[i] == w.results[i];
    assert Matches(w.db, w'.results[n]) && !w'.results[n].first;
    forall d | d in w.db.receipts ensures exists i :: FirstFor(w'.results, i, d) {
      var i :| FirstFor(w.results, i, d);
      assert FirstFor(w'.results, i, d);
    }
  }

  /** A replay returns the ids of the first run and changes nothing. */
  lemma ReplayKeeps(w: World, t: nat, tx: Tx, spec: ReceiptSpec, undone: Option<int>)
    requires ReplayInv(w) && t in w.txs && spec.dedupe in w.db.receipts
    ensures ReplayInv(Reserve(w, t, tx, spec, undone))
    ensures Reserve(w, t, tx, spec, undone).db == w.db
  {
    hide ResultsOk, EffectsOk;
    var w' := Reserve(w, t, tx, spec, undone);
    if w'.results == w.results {
      SilentKeeps(w, w', t);
    } else {
      ReplayMatches(w, t, tx, spec, undone);
      EffectsCarryOver(w, w');
    }
  }

  lemma EffectsCarryOver(w: World, w': World)
    requires EffectsOk(w) && w'.db.records == w.db.records
    requires w.results <= w'.results && forall i :: |w.results| <= i < |w'.results| ==> !w'.results[i].first
    ensures EffectsOk(w')
  {
    forall id | id in w.db.records ensures exists i :: InsertedBy(w'.results, i, id) {
      var i :| InsertedBy(w.results, i, id);
      assert InsertedBy(w'.results, i, id);
    }
    forall id | id in w.db.records && w.db.records[id].deleted ensures exists i :: DeletedBy(w'.results, i, id) {
      var i :| DeletedBy(w.results, i, id);
      assert DeletedBy(w'.results, i, id);
    }
    forall i, id | InsertedBy(w'.results, i, id) ensures id in w.db.records {
      assert InsertedBy(w.results, i, id);
    }
    forall i, id | DeletedBy(w'.results, i, id) ensures id in w.db.records && w.db.records[id].deleted {
      assert DeletedBy(w.results, i, id);
    }
  }

  lemma CommitMatches(w: World, t: nat, tx: Tx)
    requires Inv(w) && ReplayInv(w) && t in w.txs && w.txs[t] == tx && AtCommit(tx)
    ensures
      var w' := Commit(w, t, tx);
      w.results <= w'.results && forall i :: 0 <= i < |w'.results| ==> Matches(w'.db, w'.results[i])
  {
    hide Healthy, Aggregate, EffectsOk, FirstFor, Unrelated;
    assert TxOk(w.db, tx) && ReceiptOk(w.db, tx);
    var w', n := Commit(w, t, tx), |w.results|;
    forall i | 0 <= i < |w'.results| ensures Matches(w'.db, w'.results[i]) {
      if i < n { assert w'.results[i] == w.results[i] && Matches(w.db, w.results[i]); }
    }
  }

  lemma CommitIsNew(w: World, t: nat, tx: Tx, i: int)
    requires Inv(w) && ReplayInv(w) && t in w.txs && w.txs[t] == tx && AtCommit(tx)
    requires 0 <= i < |w.results| && w.results[i].first && |w.results| < |Commit(w, t, tx).results|
    ensures Unrelated(w.results[i], Commit(w, t, tx).results[|w.results|])
  {
    hide Healthy, Aggregate, FirstFor;
    assert TxOk(w.db, tx) && ReceiptOk(w.db, tx);
    assert Matches(w.db, w.results[i]);
    assert w.results[i].Inserted? ==> InsertedBy(w.results, i, w.results[i].recordId);
    assert w.results[i].Deleted? ==> DeletedBy(w.results, i, w.results[i].recordId);
  }

  lemma CommitHasFirst(w: World, t: nat, tx: Tx, d: string)
    requires Inv(w) && ReplayInv(w) && t in w.txs && w.txs[t] == tx && AtCommit(tx) && d in Commit(w, t, tx).db.receipts
    ensures exists i :: FirstFor(Commit(w, t, tx).results, i, d)
  {
    hide Healthy, Aggregate, EffectsOk, Unrelated;
    assert TxOk(w.db, tx) && ReceiptOk(w.db, tx);
    var w', n := Commit(w, t, tx), |w.results|;
    if d in w.db.receipts {
      var i :| FirstFor(w.results, i, d);
      assert w'.results[i] == w.results[i];
      assert FirstFor(w'.results, i, d);
    } else {
      assert FirstFor(w'.results, n, d);
    }
  }

  lemma CommitResults(w: World, t: nat, tx: Tx)
    requires Inv(w) && ReplayInv(w) && t in w.txs && w.txs[t] == tx && AtCommit(tx)
    ensures ResultsOk(Commit(w, t, tx))
  {
    hide Inv, EffectsOk, FirstFor, Unrelated, Matches;
    var w', n := Commit(w, t, tx), |w.results|;
    CommitMatches(w, t, tx);
    forall i | 0 <= i < n && n < |w'.results| && w'.results[i].first ensures Unrelated(w'.results[i], w'.results[n]) {
      CommitIsNew(w, t, tx, i);
    }
    forall d | d in w'.db.receipts ensures exists i :: FirstFor(w'.results, i, d) {
      CommitHasFirst(w, t, tx, d);
    }
  }

  lemma CommitExplained(w: World, t: nat, tx: Tx, id: int)
    requires Inv(w) && ReplayInv(w) && t in w.txs && w.txs[t] == tx && AtCommit(tx) && id in Commit(w, t, tx).db.records
    ensures exists i :: InsertedBy(Commit(w, t, tx).results, i, id)
    ensures Commit(w, t, tx).db.records[id].deleted ==> exists i :: DeletedBy(Commit(w, t, tx).results, i, id)
  {
    hide Healthy, Aggregate, ResultsOk;
    assert TxOk(w.db, tx) && ReceiptOk(w.db, tx);
    var w', n := Commit(w, t, tx), |w.results|;
    if id in w.db.records {
      var i :| InsertedBy(w.results, i, id);
      assert InsertedBy(w'.results, i, id);
    } else {
      assert InsertedBy(w'.results, n, id);
    }
    if w'.db.records[id].deleted {
      if id in w.db.records && w.db.records[id].deleted {
        var i :| DeletedBy(w.results, i, id);
        assert DeletedBy(w'.results, i, id);
      } else {
        assert DeletedBy(w'.results, n, id);
      }
    }
  }

  lemma CommitEffects(w: World, t: nat, tx: Tx)
    requires Inv(w) && ReplayInv(w) && t in w.txs && w.txs[t] == tx && AtCommit(tx)
    ensures EffectsOk(Commit(w, t, tx))
  {
    hide Healthy, Aggregate, ResultsOk;
    assert TxOk(w.db, tx) && ReceiptOk(w.db, tx);
    var w', n := Commit(w, t, tx), |w.results|;
    assert forall i :: 0 <= i < n ==> w'.results[i] == w.results[i];
    forall id | id in w'.db.records
      ensures exists i :: InsertedBy(w'.results, i, id)
      ensures w'.db.records[id].deleted ==> exists i :: DeletedBy(w'.results, i, id)
    {
      CommitExplained(w, t, tx, id);
    }
    forall i, id | InsertedBy(w'.results, i, id) ensures id in w'.db.records {
      if i < n { assert InsertedBy(w.results, i, id); }
    }
    forall i, id | DeletedBy(w'.results, i, id) ensures id in w'.db.records && w'.db.records[id].deleted {
      if i < n { assert DeletedBy(w.results, i, id); }
    }
  }

  lemma CommitKeepsReplay(w: World, t: nat, tx: Tx)
    requires Inv(w) && ReplayInv(w) && t in w.txs && w.txs[t] == tx && AtCommit(tx)
    ensures ReplayInv(Commit(w, t, tx))
  {
    CommitResults(w, t, tx);
    CommitEffects(w, t, tx);
    var w' := Commit(w, t, tx);
    forall u | u in w'.txs ensures ReceiptOk(w'.db, w'.txs[u]) {
      assert ReceiptOk(w.db, w.txs[u]) && ReceiptOk(w.db, tx);
    }
  }

  lemma InsertKeepsReplay(w: World, t: nat, tx: Tx)
    requires Inv(w) && ReplayInv(w) && t in w.txs && w.txs[t] == tx && tx.job.Insert? && !AtCommit(tx)
    ensures ReplayInv(InsertStep(w, t, tx))
  {
    assert TxOk(w.db, tx) && ReceiptOk(w.db, tx);
    hide Healthy, Aggregate, ResultsOk, EffectsOk;
    var w' := InsertStep(w, t, tx);
    if tx.pc == 1 && tx.job.spec.dedupe in w.db.receipts {
      ReplayKeeps(w, t, tx, tx.job.spec, None);
    } else if w' != w {
      SilentKeeps(w, w', t);
    }
  }

  lemma UndoKeepsReplay(w: World, t: nat, tx: Tx)
    requires Inv(w) && ReplayInv(w) && t in w.txs && w.txs[t] == tx && tx.job.Undo? && !AtCommit(tx)
    ensures ReplayInv(UndoStep(w, t, tx))
  {
    hide Healthy, Aggregate, ResultsOk, EffectsOk, Apart, RecordsOk, InsertOk, RepairOk, DiscoverOk;
    assert TxOk(w.db, tx) && ReceiptOk(w.db, tx);
    var w' := UndoStep(w, t, tx);
    if tx.pc == 0 && tx.job.undoSpec.Some? && tx.job.undoSpec.value.dedupe in w.db.receipts {
      ReplayKeeps(w, t, tx, tx.job.undoSpec.value, Some(tx.job.id));
    } else if w' != w {
      SilentKeeps(w, w', t);
    }
  }

  lemma RepairKeepsReplay(w: World, t: nat, tx: Tx)
    requires Inv(w) && ReplayInv(w) && t in w.txs && w.txs[t] == tx && tx.job.Repair? && !AtCommit(tx)
    ensures ReplayInv(RepairStep(w, t, tx))
  {
    assert TxOk(w.db, tx) && ReceiptOk(w.db, tx);
    hide Healthy, Aggregate, ResultsOk, EffectsOk;
    var w' := RepairStep(w, t, tx);
    if w' != w { SilentKeeps(w, w', t); }
  }

  lemma DiscoverKeepsReplay(w: World, t: nat, tx: Tx)
    requires Inv(w) && ReplayInv(w) && t in w.txs && w.txs[t] == tx && tx.job.Discover? && !AtCommit(tx)
    ensures ReplayInv(DiscoverStep(w, t, tx))
  {
    assert TxOk(w.db, tx) && ReceiptOk(w.db, tx);
    hide Healthy, Aggregate, ResultsOk, EffectsOk;
    var w' := DiscoverStep(w, t, tx);
    if w' != w { SilentKeeps(w, w', t); }
  }

  lemma StepKeepsReplay(w: World, e: Event)
    requires Inv(w) && ReplayInv(w)
    ensures ReplayInv(Apply(w, e))
  {
    hide InsertStep, UndoStep, RepairStep, DiscoverStep, Healthy, ResultsOk, EffectsOk;
    var w' := Apply(w, e);
    if e.Step? && e.t in w.txs {
      var tx := w.txs[e.t];
      assert TxOk(w.db, tx);
      if AtCommit(tx) {
        StepIsCommit(w, e.t, tx);
        CommitKeepsReplay(w, e.t, tx);
      } else if tx.job.Insert? {
        InsertKeepsReplay(w, e.t, tx);
      } else if tx.job.Undo? {
        UndoKeepsReplay(w, e.t, tx);
      } else if tx.job.Repair? {
        RepairKeepsReplay(w, e.t, tx);
      } else {
        DiscoverKeepsReplay(w, e.t, tx);
      }
    } else if w' != w {
      SilentKeeps(w, w', e.t);
    }
  }

  lemma StepIsCommit(w: World, t: nat, tx: Tx)
    requires t in w.txs && w.txs[t] == tx && AtCommit(tx)
    ensures Apply(w, Step(t)) == Commit(w, t, tx)
  {
  }

  lemma {:induction false} RunKeepsReplay(events: seq<Event>)
    ensures Inv(Run(events)) && ReplayInv(Run(events))
  {
    RunKeeps(events);
    if events != [] {
      RunKeepsReplay(events[..|events| - 1]);
      StepKeepsReplay(Run(events[..|events| - 1]), events[|events| - 1]);
    }
  }

  // -------------------------------------------------------------- main theorems

  /** Of all runs with one dedupe key exactly one had an effect, and every run
      returned that one's record and receipt ids. */
  lemma ReplaysReturnTheFirstRun(events: seq<Event>, i: int, dedupe: string) returns (first: int)
    requires 0 <= i < |Run(events).results| && DedupeOf(Run(events).results[i]) == Some(dedupe)
    ensures FirstFor(Run(events).results, first, dedupe)
    ensures Run(events).results[first].recordId == Run(events).results[i].recordId
    ensures Run(events).results[first].receiptId == Run(events).results[i].receiptId
    ensures forall j :: FirstFor(Run(events).results, j, dedupe) ==> j == first
  {
    RunKeepsReplay(events);
    var w := Run(events);
    assert Matches(w.db, w.results[i]);
    first :| FirstFor(w.results, first, dedupe);
    assert Matches(w.db, w.results[first]);
    forall j, k | 0 <= j < k < |w.results| && w.results[j].first && w.results[k].first
      ensures !(FirstFor(w.results, j, dedupe) && FirstFor(w.results, k, dedupe))
    {
      assert Unrelated(w.results[j], w.results[k]);
    }
  }

  /** Every record was inserted by exactly one effective run, and it is deleted
      if and only if exactly one effective undo removed it. */
  lemma OneEffectPerRecord(events: seq<Event>, id: int)
    ensures id in Run(events).db.records <==> exists i :: InsertedBy(Run(events).results, i, id)
    ensures id in Run(events).db.records && Run(events).db.records[id].deleted <==> exists i :: DeletedBy(Run(events).results, i, id)
    ensures forall i, j :: InsertedBy(Run(events).results, i, id) && InsertedBy(Run(events).results, j, id) ==> i == j
    ensures forall i, j :: DeletedBy(Run(events).results, i, id) && DeletedBy(Run(events).results, j, id) ==> i == j
  {
    RunKeepsReplay(events);
    var w := Run(events);
    forall i, j | 0 <= i < j < |w.results| && w.results[i].first && w.results[j].first
      ensures !(InsertedBy(w.results, i, id) && InsertedBy(w.results, j, id))
      ensures !(DeletedBy(w.results, i, id) && DeletedBy(w.results, j, id))
    {
      assert Unrelated(w.results[i], w.results[j]);
    }
  }
}

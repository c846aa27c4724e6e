/**
 * Ledger transactions interleaved statement by statement.
 *
 * Inserts, undos, repairs and key discovery run as open transactions at READ
 * COMMITTED: a statement reads committed tables only, what a transaction
 * writes stays its own until it commits, and it may abort at any point. The
 * advisory lock of a period, the row lock of a summary or a record and the
 * unique index on dedupe keys each belong to at most one open transaction; a
 * statement that has to wait for one of them simply does not happen yet.
 */
module LedgerRuns {
  import opened Options
  import opened Sets
  import opened LedgerTables

  /** A row of `notification_outbox`, as far as replays depend on it. */
  datatype Receipt = Receipt(id: int, chat: int, kind: string, refKind: string, refId: int)

  datatype ReceiptSpec = ReceiptSpec(dedupe: string, chat: int, kind: string, refKind: string)

  datatype Db = Db(records: Records, summaries: Summaries, receipts: map<string, Receipt>, cursor: int)

  datatype Job =
    | Insert(record: Record, spec: ReceiptSpec)
    | Undo(chat: int, id: int, kind: Option<Kind>, periodStart: int, undoSpec: Option<ReceiptSpec>)
    | Repair(key: Key)
    | Discover(limit: nat, active: map<int, (string, int)>)

  datatype Tx = Tx(
    job: Job, pc: nat,
    lock: Option<Key>,
    receipt: Option<(string, Receipt)>,
    change: Option<(int, Record)>,
    writes: Summaries,
    seen: Totals, batchLast: int)

  /** What a finished insert or undo returned, and whether it changed anything. */
  datatype Result =
    | Inserted(dedupe: string, recordId: int, receiptId: int, first: bool)
    | Deleted(key: Option<string>, recordId: int, receiptId: int, first: bool)

  datatype World = World(db: Db, txs: map<nat, Tx>, nextRecord: int, nextReceipt: int, results: seq<Result>)

  datatype Event = Begin(t: nat, job: Job) | Step(t: nat) | Abort(t: nat)

  // ---------------------------------------------------------------------- locks

  predicate LockFree(w: World, t: nat, key: Key) {
    forall u :: u in w.txs && u != t ==> w.txs[u].lock != Some(key)
  }

  predicate RowFree(w: World, t: nat, key: Key) {
    forall u :: u in w.txs && u != t ==> key !in w.txs[u].writes
  }

  predicate RecordFree(w: World, t: nat, id: int) {
    forall u :: u in w.txs && u != t && w.txs[u].change.Some? ==> w.txs[u].change.value.0 != id
  }

  predicate DedupeFree(w: World, t: nat, dedupe: string) {
    forall u :: u in w.txs && u != t && w.txs[u].receipt.Some? ==> w.txs[u].receipt.value.0 != dedupe
  }

  predicate CursorFree(w: World, t: nat) {
    forall u :: u in w.txs && u != t && w.txs[u].job.Discover? ==> w.txs[u].pc == 0
  }

  // ----------------------------------------------------------------- statements

  function Put(w: World, t: nat, tx: Tx): World { w.(txs := w.txs[t := tx]) }

  function Drop(w: World, t: nat): World { w.(txs := w.txs - {t}) }

  function Next(tx: Tx): Tx { tx.(pc := tx.pc + 1) }

  /** `pg_advisory_xact_lock` */
  function TakeLock(w: World, t: nat, tx: Tx, key: Key): World {
    if LockFree(w, t, key) then Put(w, t, Next(tx).(lock := Some(key))) else w
  }

  predicate SameReceipt(r: Receipt, spec: ReceiptSpec) {
    r.refId > 0 && r.chat == spec.chat && r.kind == spec.kind && r.refKind == spec.refKind
  }

  /** `INSERT INTO notification_outbox … ON CONFLICT DO NOTHING` and the replay
      branch behind it. `undone` is the undo target whose id the receipt refers to. */
  function Reserve(w: World, t: nat, tx: Tx, spec: ReceiptSpec, undone: Option<int>): World {
    if spec.dedupe in w.db.receipts then
      var r := w.db.receipts[spec.dedupe];
      if !SameReceipt(r, spec) || (undone.Some? && r.refId !in w.db.records) then Drop(w, t)
      else
        var result := if undone.None? then Inserted(spec.dedupe, r.refId, r.id, false)
                      else Deleted(Some(spec.dedupe), r.refId, r.id, false);
        Drop(w, t).(results := w.results + [result])
    else if DedupeFree(w, t, spec.dedupe) then
      var r := Receipt(w.nextReceipt, spec.chat, spec.kind, spec.refKind, if undone.Some? then undone.value else 0);
      Put(w, t, Next(tx).(receipt := Some((spec.dedupe, r)))).(nextReceipt := w.nextReceipt + 1)
    else w
  }

  function InsertStep(w: World, t: nat, tx: Tx): World
    requires tx.job.Insert?
  {
    var r := tx.job.record;
    match tx.pc
    case 0 => TakeLock(w, t, tx, KeyOf(r))
    case 1 => Reserve(w, t, tx, tx.job.spec, None)
    case 2 => Put(w, t, Next(tx).(change := Some((w.nextRecord, r)))).(nextRecord := w.nextRecord + 1)
    case 3 =>
      if RowFree(w, t, KeyOf(r)) && tx.change.Some?
      then Put(w, t, Next(tx).(writes := map[KeyOf(r) := Increased(w.db.summaries, r, tx.change.value.0)])) else w
    case _ => Commit(w, t, tx)
  }

  predicate UndoTarget(db: Db, job: Job)
    requires job.Undo?
  {
    job.id in db.records && !db.records[job.id].deleted && db.records[job.id].chat == job.chat &&
    (job.kind.Some? ==> db.records[job.id].kind == job.kind.value)
  }

  function UndoStep(w: World, t: nat, tx: Tx): World
    requires tx.job.Undo?
  {
    match tx.pc
    case 0 => if tx.job.undoSpec.Some? then Reserve(w, t, tx, tx.job.undoSpec.value, Some(tx.job.id)) else Put(w, t, Next(tx))
    case 1 =>
      if !RecordFree(w, t, tx.job.id) then w
      else if !UndoTarget(w.db, tx.job) then Drop(w, t)
      else Put(w, t, Next(tx).(change := Some((tx.job.id, Rekeyed(w.db.records[tx.job.id], tx.job.periodStart).(deleted := true)))))
    case 2 =>
      if tx.change.Some? && tx.change.value.1.period > EPOCH then TakeLock(w, t, tx, KeyOf(tx.change.value.1))
      else Put(w, t, tx.(pc := 4))
    case 3 =>
      if tx.change.None? || KeyOf(tx.change.value.1) !in w.db.summaries then Put(w, t, Next(tx))
      else
        var r := tx.change.value.1;
        if RowFree(w, t, KeyOf(r)) then Put(w, t, Next(tx).(writes := map[KeyOf(r) := Decreased(w.db.summaries[KeyOf(r)], r)]))
        else w
    case _ => Commit(w, t, tx)
  }

  /** `SELECT MAX(id)` over the records of a period, deleted or not. */
  ghost function HighWatermark(records: Records, key: Key): int {
    if exists id :: IsHigh(records, key, id) then
      var id :| IsHigh(records, key, id);
      id
    else 0
  }

  ghost predicate IsHigh(records: Records, key: Key, id: int) {
    id in records && Counts(records[id], key) && forall k :: k in records && Counts(records[k], key) ==> k <= id
  }

  ghost function RepairStep(w: World, t: nat, tx: Tx): World
    requires tx.job.Repair?
  {
    var key := tx.job.key;
    match tx.pc
    case 0 => TakeLock(w, t, tx, key)
    case 1 => Put(w, t, Next(tx).(seen := Aggregate(w.db.records, key)))
    case 2 =>
      if RowFree(w, t, key)
      then Put(w, t, Next(tx).(writes := map[key := Rebuilt(tx.seen, HighWatermark(w.db.records, key))])) else w
    case _ => Commit(w, t, tx)
  }

  /** The period a record is filed under during discovery. */
  function Normalized(r: Record, active: map<int, (string, int)>): Key {
    if r.period > EPOCH then KeyOf(r)
    else if r.chat in active && active[r.chat].0 == r.day && active[r.chat].1 > EPOCH && r.createdAt >= active[r.chat].1
    then Key(r.chat, r.day, active[r.chat].1)
    else Key(r.chat, r.day, EPOCH)
  }

  ghost function BatchAfter(db: Db, limit: nat): set<int> {
    Lowest((set id | id in db.records && id > db.cursor), limit)
  }

  ghost predicate IsMax(s: set<int>, m: int) { m in s && forall x :: x in s ==> x <= m }

  ghost function MaxOr(s: set<int>, default: int): int {
    if exists m :: IsMax(s, m) then
      var m :| IsMax(s, m);
      m
    else default
  }

  ghost function BatchKeys(db: Db, batch: set<int>, active: map<int, (string, int)>): set<Key> {
    set id | id in batch && id in db.records :: Normalized(db.records[id], active)
  }

  /** The records of the batch that belong to the period. */
  ghost function Filed(db: Db, batch: set<int>, active: map<int, (string, int)>, key: Key): set<int> {
    set id | id in batch && id in db.records && Normalized(db.records[id], active) == key
  }

  ghost function DiscoverWrites(db: Db, job: Job): Summaries
    requires job.Discover?
  {
    var batch := BatchAfter(db, job.limit);
    map key | key in BatchKeys(db, batch, job.active) ::
      Flagged(db.summaries, key,
              MaxOr(Filed(db, batch, job.active, key), 0))
  }

  ghost function DiscoverStep(w: World, t: nat, tx: Tx): World
    requires tx.job.Discover?
  {
    match tx.pc
    case 0 => if CursorFree(w, t) then Put(w, t, Next(tx)) else w
    case 1 => Put(w, t, Next(tx).(batchLast := MaxOr(BatchAfter(w.db, tx.job.limit), 0)))
    case 2 =>
      var writes := DiscoverWrites(w.db, tx.job);
      if forall key :: key in writes ==> RowFree(w, t, key) then Put(w, t, Next(tx).(writes := writes)) else w
    case _ => Commit(w, t, tx)
  }

  function Committed(db: Db, tx: Tx): Db {
    Db(if tx.change.Some? then db.records[tx.change.value.0 := tx.change.value.1] else db.records,
       db.summaries + tx.writes,
       if tx.receipt.Some? then db.receipts[tx.receipt.value.0 := FinalReceipt(tx)] else db.receipts,
       if tx.job.Discover? && db.cursor < tx.batchLast then tx.batchLast else db.cursor)
  }

  /** The receipt with the id of the record it stands for. */
  function FinalReceipt(tx: Tx): Receipt
    requires tx.receipt.Some?
  {
    if tx.job.Insert? && tx.change.Some? then tx.receipt.value.1.(refId := tx.change.value.0) else tx.receipt.value.1
  }

  function ResultsOf(tx: Tx): seq<Result> {
    if tx.change.None? then []
    else if tx.job.Insert? then
      if tx.receipt.Some? then [Inserted(tx.receipt.value.0, tx.change.value.0, tx.receipt.value.1.id, true)] else []
    else if tx.receipt.Some? then [Deleted(Some(tx.receipt.value.0), tx.change.value.0, tx.receipt.value.1.id, true)]
    else [Deleted(None, tx.change.value.0, 0, true)]
  }

  function Commit(w: World, t: nat, tx: Tx): World {
    Drop(w, t).(db := Committed(w.db, tx), results := w.results + ResultsOf(tx))
  }

  /** Records carry a period of their own; `LedgerTables` shows why legacy ones
      are excluded here. */
  predicate Accepted(job: Job) {
    (job.Insert? ==> job.record.period > EPOCH && !job.record.deleted && job.spec.dedupe != "" && job.spec.kind != "") &&
    (job.Undo? && job.undoSpec.Some? ==> job.undoSpec.value.dedupe != "" && job.undoSpec.value.kind != "")
  }

  ghost function Apply(w: World, e: Event): World {
    match e
    case Begin(t, job) =>
      if t in w.txs || !Accepted(job) then w
      else Put(w, t, Tx(job, 0, None, None, None, map[], ZERO, 0))
    case Abort(t) => Drop(w, t)
    case Step(t) =>
      if t !in w.txs then w
      else
        var tx := w.txs[t];
        match tx.job
        case Insert(_, _) => InsertStep(w, t, tx)
        case Undo(_, _, _, _, _) => UndoStep(w, t, tx)
        case Repair(_) => RepairStep(w, t, tx)
        case Discover(_, _) => DiscoverStep(w, t, tx)
  }

  const START := World(Db(map[], map[], map[], 0), map[], 1, 1, [])

  ghost function Run(events: seq<Event>): World {
    if events == [] then START else Apply(Run(events[..|events| - 1]), events[|events| - 1])
  }
}

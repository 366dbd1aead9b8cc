/** What every statement, commit and abort of the registry protocol keeps. */
module RegistryInvariant {
  import opened Options
  import opened JsonValues
  import opened Classifier
  import opened Registry

  // ---------------------------------------------------------------- the committed tables

  /** The i-th row of an endpoint, in commit order: version i+1, pointing one back, current only when last. */
  ghost predicate RowAt(db: Db, e: Endpoint, i: nat)
    requires i < |OrderOf(db, e)|
  {
    var ids := OrderOf(db, e);
    && ids[i] in db.versions
    && var row := db.versions[ids[i]];
       && row.endpoint == e && row.version == i + 1 && row.current == (i == |ids| - 1)
       && row.previous == if i == 0 then None else Some(ids[i - 1])
  }

  /** A row stands at its version's place in the order of its endpoint. */
  ghost predicate Placed(db: Db, id: nat)
    requires id in db.versions
  {
    var row := db.versions[id];
    && id < db.nextId
    && 1 <= row.version <= |OrderOf(db, row.endpoint)|
    && OrderOf(db, row.endpoint)[row.version - 1] == id
  }

  ghost predicate TablesOk(db: Db) {
    && (forall e, i | 0 <= i < |OrderOf(db, e)| :: RowAt(db, e, i))
    && (forall id | id in db.versions :: Placed(db, id))
    && (forall e | e !in db.endpoints :: OrderOf(db, e) == [])
  }

  // ---------------------------------------------------------------- the tables and the ledger

  ghost predicate RowHolds(h: Hashes, row: Version, payloads: seq<Json>, i: nat)
    requires i < |payloads|
  {
    && row.schema == Canonicalize(payloads[i])
    && row.fingerprint == PrintAt(h, payloads[i])
    && row.classification == StoredVerdict(h, payloads, i)
  }

  /** The rows of an endpoint hold the payloads of its ledger, each with the verdict against the one before. */
  ghost predicate Holds(h: Hashes, db: Db, e: Endpoint, payloads: seq<Json>) {
    && |OrderOf(db, e)| == |payloads|
    && forall i | 0 <= i < |payloads| ::
         OrderOf(db, e)[i] in db.versions && RowHolds(h, db.versions[OrderOf(db, e)[i]], payloads, i)
  }

  ghost predicate DistinctPrints(h: Hashes, payloads: seq<Json>) {
    forall i, j | 0 <= i < j < |payloads| :: PrintAt(h, payloads[i]) != PrintAt(h, payloads[j])
  }

  ghost predicate LedgerOk(h: Hashes, db: Db) {
    var ledger := Replay(h, db.log);
    && (forall e :: Holds(h, db, e, Listed(ledger, e)) && DistinctPrints(h, Listed(ledger, e)))
    && Serial(h, db.log)
  }

  // ---------------------------------------------------------------- one open transaction

  /** What the transaction read under the lock is still the newest row of its endpoint. */
  ghost predicate SnapshotOk(db: Db, tx: Tx) {
    var ids := OrderOf(db, tx.endpoint);
    if ids == [] then tx.current == None
    else ids[|ids| - 1] in db.versions && tx.current == Some(Found(ids[|ids| - 1], db.versions[ids[|ids| - 1]]))
  }

  ghost predicate NoPrint(h: Hashes, db: Db, tx: Tx) {
    forall id | id in db.versions :: !Prints(db.versions[id], tx.endpoint, PrintOf(h, tx))
  }

  ghost predicate Clean(tx: Tx) {
    tx.cleared == None && tx.pending == None
  }

  /** About to insert: alone on the endpoint, with a fresh fingerprint. */
  ghost predicate Ready(h: Hashes, db: Db, tx: Tx) {
    tx.locked && SnapshotOk(db, tx) && NoPrint(h, db, tx)
  }

  ghost predicate Clears(tx: Tx) {
    tx.cleared == if tx.current == None then None else Some(tx.current.value.id)
  }

  ghost predicate Writing(h: Hashes, db: Db, tx: Tx) {
    && Ready(h, db, tx) && Clears(tx) && tx.pending.Some?
    && tx.pending.value.row.(classification := SAFE) == NewRow(h, tx)
    && tx.pending.value.id !in db.versions && tx.pending.value.id < db.nextId
  }

  function OwnVerdict(h: Hashes, tx: Tx): Compatibility {
    if tx.current == None then SAFE else Summarize(DiffAndClassify(h.show, tx.current.value.row.schema, Schema(tx)))
  }

  /** The answer names a committed version that has the fingerprint. */
  ghost predicate Answers(h: Hashes, db: Db, tx: Tx, a: Answer) {
    var ids := OrderOf(db, tx.endpoint);
    && !a.inserted && a.classification == SAFE && 1 <= a.version <= |ids|
    && ids[a.version - 1] in db.versions && db.versions[ids[a.version - 1]].fingerprint == PrintOf(h, tx)
  }

  ghost predicate StageOk(h: Hashes, db: Db, tx: Tx) {
    match tx.pc
    case Ensure => !tx.locked && Clean(tx) && !tx.creates
    case FastLookup => !tx.locked && Clean(tx)
    case TakeLock => !tx.locked && Clean(tx)
    case ReadCurrent => tx.locked && Clean(tx)
    case LookupAgain => tx.locked && Clean(tx) && SnapshotOk(db, tx)
    case ClearCurrent => Clean(tx) && Ready(h, db, tx) && tx.current.Some?
    case Insert => tx.pending == None && Ready(h, db, tx) && Clears(tx)
    case ReadPrior => Writing(h, db, tx) && tx.current.Some?
    case Reclassify(prior) => Writing(h, db, tx) && tx.current.Some? && prior == tx.current.value.row.schema
    case Returned(a) =>
      if a.inserted then
        && Writing(h, db, tx) && a.version == NewRow(h, tx).version
        && a.classification == OwnVerdict(h, tx) && tx.pending.value.row.classification == OwnVerdict(h, tx)
      else Clean(tx) && Answers(h, db, tx, a)
    case Rejected => false
  }

  ghost predicate TxOk(h: Hashes, db: Db, t: nat, tx: Tx) {
    && (tx.pc != Ensure ==> tx.creates || tx.endpoint in db.endpoints)
    && (tx.creates ==> tx.endpoint !in db.endpoints)
    && (tx.locked ==> h.lockId(tx.endpoint) in db.locks && db.locks[h.lockId(tx.endpoint)] == t)
    && StageOk(h, db, tx)
  }

  ghost predicate TxsOk(h: Hashes, w: World) {
    forall t | t in w.txs :: TxOk(h, w.db, t, w.txs[t])
  }

  ghost predicate OneCreator(w: World) {
    forall t, u | t in w.txs && u in w.txs && w.txs[t].creates && w.txs[u].creates ::
      w.txs[t].endpoint == w.txs[u].endpoint ==> t == u
  }

  ghost predicate OwnIds(w: World) {
    forall t, u | t in w.txs && u in w.txs && w.txs[t].pending.Some? && w.txs[u].pending.Some? ::
      w.txs[t].pending.value.id == w.txs[u].pending.value.id ==> t == u
  }

  ghost predicate Inv(h: Hashes, w: World) {
    TablesOk(w.db) && LedgerOk(h, w.db) && TxsOk(h, w) && OneCreator(w) && OwnIds(w)
  }

  // ---------------------------------------------------------------- reads

  lemma {:induction false} FindPrintFinds(vs: map<nat, Version>, e: Endpoint, fp: string, n: nat)
    ensures match FindPrint(vs, e, fp, n)
            case Some(f) => f.id in vs && f.row == vs[f.id] && Prints(f.row, e, fp)
            case None => forall id | id in vs && id < n :: !Prints(vs[id], e, fp)
  {
    if n > 0 {
      FindPrintFinds(vs, e, fp, n - 1);
    }
  }

  lemma {:induction false} FindCurrentFinds(vs: map<nat, Version>, e: Endpoint, n: nat)
    ensures match FindCurrent(vs, e, n)
            case Some(f) => f.id in vs && f.row == vs[f.id] && f.row.endpoint == e && f.row.current
            case None => forall id | id in vs && id < n :: !(vs[id].endpoint == e && vs[id].current)
  {
    if n > 0 {
      FindCurrentFinds(vs, e, n - 1);
    }
  }

  /** The flagged row is the newest one, so the read under the lock takes the right snapshot. */
  lemma CurrentIsNewest(db: Db, tx: Tx)
    requires TablesOk(db)
    ensures SnapshotOk(db, CurrentRead(db, tx))
  {
    var e, ids := tx.endpoint, OrderOf(db, tx.endpoint);
    FindCurrentFinds(db.versions, e, db.nextId);
    hide FindCurrent, OrderOf;
    forall id | id in db.versions && db.versions[id].endpoint == e ensures ids != [] {
      assert Placed(db, id);
    }
    if ids != [] {
      assert RowAt(db, e, |ids| - 1);
      assert Placed(db, ids[|ids| - 1]);
      var f := FindCurrent(db.versions, e, db.nextId).value;
      assert Placed(db, f.id);
      assert RowAt(db, e, f.row.version - 1);
    }
  }

  lemma FoundAnswers(h: Hashes, db: Db, tx: Tx)
    requires TablesOk(db)
    ensures match FindPrint(db.versions, tx.endpoint, PrintOf(h, tx), db.nextId)
            case Some(f) => Answers(h, db, tx, Existing(f.row).answer)
            case None => NoPrint(h, db, tx)
  {
    FindPrintFinds(db.versions, tx.endpoint, PrintOf(h, tx), db.nextId);
    hide FindPrint, OrderOf, PrintOf;
    match FindPrint(db.versions, tx.endpoint, PrintOf(h, tx), db.nextId)
    case Some(f) =>
      assert Placed(db, f.id);
    case None =>
      forall id | id in db.versions ensures !Prints(db.versions[id], tx.endpoint, PrintOf(h, tx)) {
        assert Placed(db, id);
      }
  }

  // ---------------------------------------------------------------- statements that only change their transaction

  lemma KeptBySet(h: Hashes, w: World, t: nat, tx: Tx)
    requires Inv(h, w) && t in w.txs && TxOk(h, w.db, t, tx) && tx.endpoint == w.txs[t].endpoint
    requires tx.creates ==> w.txs[t].creates || !EndpointPending(w, t, tx.endpoint)
    requires tx.pending.Some? ==> w.txs[t].pending.Some? && tx.pending.value.id == w.txs[t].pending.value.id
    ensures Inv(h, SetTx(w, t, tx))
  {
    hide TablesOk, LedgerOk, TxOk;
  }

  lemma EnsureKeeps(h: Hashes, w: World, t: nat)
    requires Inv(h, w) && t in w.txs && w.txs[t].pc == Ensure
    ensures Inv(h, EnsureEndpoint(w, t, w.txs[t]))
  {
    hide TablesOk, LedgerOk, OneCreator, OwnIds;
    var tx := w.txs[t];
    if tx.endpoint in w.db.endpoints {
      KeptBySet(h, w, t, tx.(pc := FastLookup));
    } else if !EndpointPending(w, t, tx.endpoint) {
      KeptBySet(h, w, t, tx.(pc := FastLookup, creates := true));
    }
  }

  lemma LookupKeeps(h: Hashes, w: World, t: nat, otherwise: Pc)
    requires Inv(h, w) && t in w.txs
    requires
      var tx := w.txs[t];
      || (tx.pc == FastLookup && otherwise == TakeLock)
      || (tx.pc == LookupAgain && otherwise == if tx.current == None then Insert else ClearCurrent)
    ensures Inv(h, SetTx(w, t, LookedUp(h, w.db, w.txs[t], otherwise)))
  {
    hide TablesOk, LedgerOk, OneCreator, OwnIds, FindPrint, NoPrint, SnapshotOk, Answers;
    var tx := w.txs[t];
    var looked := LookedUp(h, w.db, tx, otherwise);
    FoundAnswers(h, w.db, tx);
    assert TxOk(h, w.db, t, tx);
    SameStage(h, w.db, tx, looked.pc);
    KeptBySet(h, w, t, looked);
  }

  /** What a transaction knows does not depend on where it stands. */
  lemma SameStage(h: Hashes, db: Db, tx: Tx, pc: Pc)
    ensures NoPrint(h, db, tx.(pc := pc)) == NoPrint(h, db, tx)
    ensures SnapshotOk(db, tx.(pc := pc)) == SnapshotOk(db, tx)
    ensures forall a :: Answers(h, db, tx.(pc := pc), a) == Answers(h, db, tx, a)
  {
  }

  lemma CurrentKeeps(h: Hashes, w: World, t: nat)
    requires Inv(h, w) && t in w.txs && w.txs[t].pc == ReadCurrent
    ensures Inv(h, SetTx(w, t, CurrentRead(w.db, w.txs[t])))
  {
    hide TablesOk, LedgerOk, OneCreator, OwnIds, FindCurrent, NoPrint, SnapshotOk, Answers;
    assert TxOk(h, w.db, t, w.txs[t]);
    CurrentIsNewest(w.db, w.txs[t]);
    KeptBySet(h, w, t, CurrentRead(w.db, w.txs[t]));
  }

  lemma ClearOk(h: Hashes, db: Db, t: nat, tx: Tx)
    requires TxOk(h, db, t, tx) && tx.pc == ClearCurrent
    ensures tx.current.Some? && TxOk(h, db, t, tx.(pc := Insert, cleared := Some(tx.current.value.id)))
  {
    hide NoPrint, SnapshotOk, Answers, NewRow, PrintOf, Canonicalize, Summarize, DiffAndClassify;
    SameReads(h, db, tx, tx.(pc := Insert, cleared := Some(tx.current.value.id)));
  }

  lemma ClearKeeps(h: Hashes, w: World, t: nat)
    requires Inv(h, w) && t in w.txs && w.txs[t].pc == ClearCurrent
    ensures w.txs[t].current.Some?
    ensures Inv(h, SetTx(w, t, w.txs[t].(pc := Insert, cleared := Some(w.txs[t].current.value.id))))
  {
    hide TablesOk, LedgerOk, OneCreator, OwnIds, TxOk, SetTx;
    var tx := w.txs[t];
    ClearOk(h, w.db, t, tx);
    KeptBySet(h, w, t, tx.(pc := Insert, cleared := Some(tx.current.value.id)));
  }

  /** What a transaction knows depends on its request and its snapshot only. */
  lemma SameReads(h: Hashes, db: Db, tx: Tx, other: Tx)
    requires other.endpoint == tx.endpoint && other.payload == tx.payload && other.current == tx.current
    ensures NoPrint(h, db, other) == NoPrint(h, db, tx) && SnapshotOk(db, other) == SnapshotOk(db, tx)
    ensures NewRow(h, other) == NewRow(h, tx) && OwnVerdict(h, other) == OwnVerdict(h, tx)
  {
    hide Canonicalize, Summarize, DiffAndClassify;
  }

  /** Moving on leaves a transaction that writes as it is. */
  lemma StillWriting(h: Hashes, db: Db, tx: Tx, pc: Pc)
    requires Writing(h, db, tx)
    ensures Writing(h, db, tx.(pc := pc))
  {
    var other := tx.(pc := pc);
    SameReads(h, db, tx, other);
    hide SnapshotOk, NoPrint, NewRow;
  }

  lemma PriorKeeps(h: Hashes, w: World, t: nat)
    requires Inv(h, w) && t in w.txs && w.txs[t].pc == ReadPrior
    ensures w.txs[t].pending.Some? && Inv(h, SetTx(w, t, PriorRead(w.db, w.txs[t])))
  {
    var tx := w.txs[t];
    assert TxOk(h, w.db, t, tx);
    var pc := Reclassify(tx.current.value.row.schema);
    StillWriting(h, w.db, tx, pc);
    hide TablesOk, LedgerOk, OneCreator, OwnIds, Writing, PriorRead, TxsOk;
    KeptBySet(h, w, t, tx.(pc := pc));
  }

  lemma ReclassifyKeeps(h: Hashes, w: World, t: nat)
    requires Inv(h, w) && t in w.txs && w.txs[t].pc.Reclassify?
    ensures w.txs[t].pending.Some? && Inv(h, SetTx(w, t, Reclassified(h, w.txs[t], w.txs[t].pc.prior)))
  {
    hide TablesOk, LedgerOk, OneCreator, OwnIds, NoPrint, SnapshotOk, Answers, Canonicalize, Summarize, DiffAndClassify;
    var tx := w.txs[t];
    assert TxOk(h, w.db, t, tx);
    var done := Reclassified(h, tx, tx.pc.prior);
    SameReads(h, w.db, tx, done);
    KeptBySet(h, w, t, done);
  }

  // ---------------------------------------------------------------- statements that touch locks or ids

  lemma TablesMove(db: Db, locks: map<int, nat>, nextId: nat)
    requires TablesOk(db) && db.nextId <= nextId
    ensures TablesOk(db.(locks := locks, nextId := nextId))
  {
    var db' := db.(locks := locks, nextId := nextId);
    assert forall e :: OrderOf(db', e) == OrderOf(db, e);
    hide OrderOf;
    forall e, i | 0 <= i < |OrderOf(db', e)| ensures RowAt(db', e, i) {
      assert RowAt(db, e, i);
    }
    forall id | id in db'.versions ensures Placed(db', id) {
      assert Placed(db, id);
    }
  }

  lemma HoldsMoves(h: Hashes, db: Db, db': Db, e: Endpoint, payloads: seq<Json>)
    requires Holds(h, db, e, payloads) && db'.versions == db.versions && db'.order == db.order
    ensures Holds(h, db', e, payloads)
  {
    assert OrderOf(db', e) == OrderOf(db, e);
    hide OrderOf, RowHolds;
  }

  lemma LedgerMoves(h: Hashes, db: Db, locks: map<int, nat>, nextId: nat)
    requires LedgerOk(h, db)
    ensures LedgerOk(h, db.(locks := locks, nextId := nextId))
  {
    hide Holds, Replay, Serial, Listed, DistinctPrints;
    var db' := db.(locks := locks, nextId := nextId);
    var ledger := Replay(h, db.log);
    forall e ensures Holds(h, db', e, Listed(ledger, e)) {
      HoldsMoves(h, db, db', e, Listed(ledger, e));
    }
  }

  lemma DbMoves(h: Hashes, db: Db, locks: map<int, nat>, nextId: nat)
    requires TablesOk(db) && LedgerOk(h, db) && db.nextId <= nextId
    ensures TablesOk(db.(locks := locks, nextId := nextId)) && LedgerOk(h, db.(locks := locks, nextId := nextId))
  {
    hide TablesOk, LedgerOk;
    TablesMove(db, locks, nextId);
    LedgerMoves(h, db, locks, nextId);
  }

  /** What an open transaction relies on looks at the rows of the table and their order, not at locks, ids or the log. */
  lemma SameTables(h: Hashes, db: Db, db': Db, tx: Tx)
    requires db'.versions == db.versions && db'.order == db.order
    ensures SnapshotOk(db', tx) <==> SnapshotOk(db, tx)
    ensures NoPrint(h, db', tx) <==> NoPrint(h, db, tx)
    ensures forall a :: Answers(h, db', tx, a) <==> Answers(h, db, tx, a)
  {
    hide PrintOf;
    assert OrderOf(db', tx.endpoint) == OrderOf(db, tx.endpoint);
    hide OrderOf;
  }

  lemma TxLooksAt(h: Hashes, db: Db, db': Db, t: nat, tx: Tx)
    requires TxOk(h, db, t, tx) && db'.endpoints == db.endpoints && db'.versions == db.versions && db'.order == db.order
    requires db.nextId <= db'.nextId
    requires tx.locked ==> h.lockId(tx.endpoint) in db'.locks && db'.locks[h.lockId(tx.endpoint)] == t
    ensures TxOk(h, db', t, tx)
  {
    hide SnapshotOk, NoPrint, Answers, NewRow, OwnVerdict;
    SameTables(h, db, db', tx);
  }

  lemma TxMoves(h: Hashes, db: Db, locks: map<int, nat>, nextId: nat, t: nat, tx: Tx)
    requires TxOk(h, db, t, tx) && db.nextId <= nextId
    requires tx.locked ==> h.lockId(tx.endpoint) in locks && locks[h.lockId(tx.endpoint)] == t
    ensures TxOk(h, db.(locks := locks, nextId := nextId), t, tx)
  {
    hide TxOk;
    TxLooksAt(h, db, db.(locks := locks, nextId := nextId), t, tx);
  }

  lemma AcquireKeeps(h: Hashes, w: World, t: nat)
    requires Inv(h, w) && t in w.txs && w.txs[t].pc == TakeLock
    ensures Inv(h, AcquireLock(h, w, t, w.txs[t]))
  {
    hide TablesOk, LedgerOk, StageOk;
    var tx, lock := w.txs[t], h.lockId(w.txs[t].endpoint);
    if lock !in w.db.locks {
      var locks := w.db.locks[lock := t];
      assert w.db.(locks := locks) == w.db.(locks := locks, nextId := w.db.nextId);
      DbMoves(h, w.db, locks, w.db.nextId);
      var w' := AcquireLock(h, w, t, tx);
      forall u | u in w'.txs ensures TxOk(h, w'.db, u, w'.txs[u]) {
        if u != t {
          TxMoves(h, w.db, locks, w.db.nextId, u, w.txs[u]);
        } else {
          Locked(h, w.db, w'.db, t, tx);
        }
      }
    }
  }

  lemma Locked(h: Hashes, db: Db, db': Db, t: nat, tx: Tx)
    requires TxOk(h, db, t, tx) && tx.pc == TakeLock
    requires db' == db.(locks := db.locks[h.lockId(tx.endpoint) := t])
    ensures TxOk(h, db', t, tx.(pc := ReadCurrent, locked := true))
  {
  }

  // ---------------------------------------------------------------- the insert is never rejected

  lemma SameEndpointSameTx(h: Hashes, w: World, t: nat, u: nat)
    requires TxsOk(h, w) && t in w.txs && u in w.txs
    requires w.txs[t].locked && w.txs[u].locked && w.txs[t].endpoint == w.txs[u].endpoint
    ensures t == u
  {
    hide StageOk;
    assert TxOk(h, w.db, t, w.txs[t]) && TxOk(h, w.db, u, w.txs[u]);
  }

  lemma PendingIsLocked(h: Hashes, db: Db, t: nat, tx: Tx)
    requires TxOk(h, db, t, tx) && tx.pending.Some?
    ensures tx.locked && tx.pending.value.row.endpoint == tx.endpoint
    ensures tx.pending.value.id < db.nextId && tx.pending.value.id !in db.versions
  {
    hide NoPrint, SnapshotOk, Canonicalize, Summarize, DiffAndClassify;
  }

  /** No UNIQUE constraint is ever in the way of an insert: not a committed row, not another open transaction. */
  lemma InsertNeverRejected(h: Hashes, w: World, t: nat)
    requires Inv(h, w) && t in w.txs && w.txs[t].pc == Insert
    ensures !Violates(w, t, NewRow(h, w.txs[t]))
  {
    hide TablesOk, LedgerOk, OwnIds, OneCreator, Canonicalize, Summarize, DiffAndClassify, StageOk;
    var tx := w.txs[t];
    var row := NewRow(h, tx);
    assert TxOk(h, w.db, t, tx);
    StageInsert(h, w.db, tx);
    forall id | id in w.db.versions ensures !Clash(w.db.versions[id], row) {
      NoCommittedClash(h, w.db, tx, id);
    }
    forall u | u in w.txs && u != t && w.txs[u].pending.Some? ensures !Clash(w.txs[u].pending.value.row, row) {
      PendingIsLocked(h, w.db, u, w.txs[u]);
      if w.txs[u].endpoint == tx.endpoint {
        SameEndpointSameTx(h, w, t, u);
      }
    }
  }

  lemma StageInsert(h: Hashes, db: Db, tx: Tx)
    requires StageOk(h, db, tx) && tx.pc == Insert
    ensures Ready(h, db, tx) && tx.locked && tx.pending == None && Clears(tx)
  {
  }

  lemma NoCommittedClash(h: Hashes, db: Db, tx: Tx, id: nat)
    requires TablesOk(db) && Ready(h, db, tx) && id in db.versions
    ensures !Clash(db.versions[id], NewRow(h, tx))
  {
    assert Placed(db, id);
    assert !Prints(db.versions[id], tx.endpoint, PrintOf(h, tx));
    NewRowExtends(h, db, tx);
    hide OrderOf, PrintOf, NoPrint, Canonicalize;
  }

  lemma NewRowExtends(h: Hashes, db: Db, tx: Tx)
    requires TablesOk(db) && SnapshotOk(db, tx)
    ensures var ids := OrderOf(db, tx.endpoint);
            && NewRow(h, tx).version == |ids| + 1
            && NewRow(h, tx).previous == if ids == [] then None else Some(ids[|ids| - 1])
  {
    var ids := OrderOf(db, tx.endpoint);
    hide OrderOf, PrintOf, Canonicalize;
    if ids != [] {
      assert RowAt(db, tx.endpoint, |ids| - 1);
    }
  }

  lemma LocksHeld(h: Hashes, db: Db, t: nat, tx: Tx)
    requires TxOk(h, db, t, tx)
    ensures tx.locked ==> h.lockId(tx.endpoint) in db.locks && db.locks[h.lockId(tx.endpoint)] == t
  {
    hide StageOk;
  }

  lemma NextIsFree(db: Db)
    requires TablesOk(db)
    ensures db.nextId !in db.versions
  {
    forall id | id in db.versions ensures id < db.nextId {
      assert Placed(db, id);
    }
  }

  lemma ReadyLater(h: Hashes, db: Db, tx: Tx)
    requires Ready(h, db, tx)
    ensures Ready(h, db.(nextId := db.nextId + 1), tx)
  {
    var db' := db.(nextId := db.nextId + 1);
    assert OrderOf(db', tx.endpoint) == OrderOf(db, tx.endpoint);
    hide PrintOf;
  }

  lemma NowWriting(h: Hashes, db: Db, tx: Tx)
    requires Ready(h, db, tx) && Clears(tx) && tx.pending == None && db.nextId !in db.versions
    ensures Writing(h, db.(nextId := db.nextId + 1), Inserted(h, db, tx))
  {
    hide NoPrint, SnapshotOk, NewRow, Inserted;
    ReadyLater(h, db, tx);
    InsertedFields(h, db, tx);
    SameReads(h, db.(nextId := db.nextId + 1), tx, Inserted(h, db, tx));
  }

  lemma InsertedFields(h: Hashes, db: Db, tx: Tx)
    ensures var done := Inserted(h, db, tx);
            && done.pending == Some(Found(db.nextId, NewRow(h, tx)))
            && done == tx.(pc := done.pc, pending := done.pending)
            && done.pc == (if tx.current == None then Returned(Answer(NewRow(h, tx).version, true, SAFE)) else ReadPrior)
            && NewRow(h, tx).classification == SAFE
  {
    hide Canonicalize, PrintOf;
  }

  lemma RowInserted(h: Hashes, db: Db, t: nat, tx: Tx)
    requires TablesOk(db) && TxOk(h, db, t, tx) && tx.pc == Insert
    ensures TxOk(h, db.(nextId := db.nextId + 1), t, Inserted(h, db, tx))
  {
    hide TablesOk, Writing, Ready, Clears, SnapshotOk, NoPrint, Inserted, NewRow, Schema, PrintOf, Summarize, DiffAndClassify;
    NextIsFree(db);
    StageInsert(h, db, tx);
    NowWriting(h, db, tx);
    InsertedFields(h, db, tx);
    SameReads(h, db, tx, Inserted(h, db, tx));
  }

  lemma OthersPastInsert(h: Hashes, db: Db, t: nat, tx: Tx)
    requires TxOk(h, db, t, tx)
    ensures TxOk(h, db.(nextId := db.nextId + 1), t, tx)
    ensures tx.pending.Some? ==> tx.pending.value.id < db.nextId
  {
    hide TxOk;
    LocksHeld(h, db, t, tx);
    assert db.(nextId := db.nextId + 1) == db.(locks := db.locks, nextId := db.nextId + 1);
    TxMoves(h, db, db.locks, db.nextId + 1, t, tx);
    if tx.pending.Some? {
      PendingIsLocked(h, db, t, tx);
    }
  }

  lemma InsertKeeps(h: Hashes, w: World, t: nat)
    requires Inv(h, w) && t in w.txs && w.txs[t].pc == Insert
    ensures Inv(h, InsertRow(h, w, t, w.txs[t]))
  {
    hide TablesOk, LedgerOk, TxOk, Violates, OneCreator, OwnIds, Inserted, NewRow, SetTx;
    InsertNeverRejected(h, w, t);
    var tx, db, n := w.txs[t], w.db, w.db.nextId;
    var db' := db.(nextId := n + 1);
    assert db' == db.(locks := db.locks, nextId := n + 1);
    DbMoves(h, db, db.locks, n + 1);
    var done := Inserted(h, db, tx);
    forall u | u in w.txs
      ensures TxOk(h, db', u, w.txs[u]) && (w.txs[u].pending.Some? ==> w.txs[u].pending.value.id < n)
    {
      OthersPastInsert(h, db, u, w.txs[u]);
    }
    RowInserted(h, db, t, tx);
    InsertedFields(h, db, tx);
    IdsStay(w, t, done, db');
    CreatorsStay(w, t, done, db');
    Assemble(h, w, t, done, db');
  }

  lemma Assemble(h: Hashes, w: World, t: nat, tx: Tx, db: Db)
    requires t in w.txs && TablesOk(db) && LedgerOk(h, db) && TxOk(h, db, t, tx)
    requires forall u | u in w.txs :: TxOk(h, db, u, w.txs[u])
    requires OneCreator(World(db, w.txs[t := tx])) && OwnIds(World(db, w.txs[t := tx]))
    ensures Inv(h, World(db, w.txs[t := tx]))
  {
    hide TablesOk, LedgerOk, TxOk, OneCreator, OwnIds;
  }

  lemma IdsStay(w: World, t: nat, tx: Tx, db: Db)
    requires OwnIds(w) && t in w.txs
    requires tx.pending.Some? ==> forall u | u in w.txs && w.txs[u].pending.Some? :: w.txs[u].pending.value.id != tx.pending.value.id
    ensures OwnIds(World(db, w.txs[t := tx]))
  {
  }

  lemma CreatorsStay(w: World, t: nat, tx: Tx, db: Db)
    requires OneCreator(w) && t in w.txs && tx.endpoint == w.txs[t].endpoint && tx.creates == w.txs[t].creates
    ensures OneCreator(World(db, w.txs[t := tx]))
  {
  }
}

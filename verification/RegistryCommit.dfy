/** Commits and aborts: how the tables, the ledger and the other open transactions come out of them. */
module RegistryCommit {
  import opened Options
  import opened JsonValues
  import opened Classifier
  import opened CompatibilityChain
  import opened Registry
  import opened RegistryInvariant

  // ---------------------------------------------------------------- begin and abort

  lemma BeginKeeps(h: Hashes, w: World, t: nat, e: Endpoint, payload: Json)
    requires Inv(h, w) && t !in w.txs
    ensures Inv(h, SetTx(w, t, Fresh(e, payload)))
  {
    hide TablesOk, LedgerOk, SnapshotOk, NoPrint, Ready, Writing, Answers;
    var tx := Fresh(e, payload);
    assert TxOk(h, w.db, t, tx);
  }

  lemma ReleaseKeepsOthers(h: Hashes, w: World, t: nat, u: nat)
    requires TxsOk(h, w) && u in w.txs && u != t
    ensures TxOk(h, w.db.(locks := Release(w.db.locks, t)), u, w.txs[u])
    ensures w.txs[u].locked ==>
              var lock, locks := h.lockId(w.txs[u].endpoint), Release(w.db.locks, t); lock in locks && locks[lock] == u
  {
    hide TxOk;
    var tx := w.txs[u];
    LocksHeld(h, w.db, u, tx);
    TxMoves(h, w.db, Release(w.db.locks, t), w.db.nextId, u, tx);
    assert w.db.(locks := Release(w.db.locks, t)) == w.db.(locks := Release(w.db.locks, t), nextId := w.db.nextId);
  }

  lemma AbortKeeps(h: Hashes, w: World, t: nat)
    requires Inv(h, w) && t in w.txs
    ensures Inv(h, AbortStep(w, t))
  {
    hide TablesOk, LedgerOk, TxOk, Release;
    var locks := Release(w.db.locks, t);
    DbMoves(h, w.db, locks, w.db.nextId);
    assert w.db.(locks := locks) == w.db.(locks := locks, nextId := w.db.nextId);
    forall u | u in w.txs && u != t ensures TxOk(h, w.db.(locks := locks), u, w.txs[u]) {
      ReleaseKeepsOthers(h, w, t, u);
    }
  }

  // ---------------------------------------------------------------- what another transaction needs to stay

  ghost predicate SameRows(db: Db, db': Db, e: Endpoint) {
    && OrderOf(db', e) == OrderOf(db, e)
    && (forall id | id in db.versions && db.versions[id].endpoint == e :: id in db'.versions && db'.versions[id] == db.versions[id])
    && (forall id | id in db'.versions && db'.versions[id].endpoint == e :: id in db.versions && db.versions[id] == db'.versions[id])
  }

  /** The rows that were there are still in place, with their fingerprints. */
  ghost predicate Extends(db: Db, db': Db, e: Endpoint) {
    && OrderOf(db, e) <= OrderOf(db', e)
    && forall id | id in db.versions :: id in db'.versions && db'.versions[id].fingerprint == db.versions[id].fingerprint
  }

  lemma SnapshotFrames(db: Db, db': Db, tx: Tx)
    requires SameRows(db, db', tx.endpoint) && TablesOk(db) && SnapshotOk(db, tx)
    ensures SnapshotOk(db', tx)
  {
    hide OrderOf;
    var ids := OrderOf(db, tx.endpoint);
    if ids != [] {
      assert RowAt(db, tx.endpoint, |ids| - 1);
    }
  }

  lemma NoPrintFrames(h: Hashes, db: Db, db': Db, tx: Tx)
    requires SameRows(db, db', tx.endpoint) && NoPrint(h, db, tx)
    ensures NoPrint(h, db', tx)
  {
    hide OrderOf, PrintOf;
  }

  lemma AnswersFrames(h: Hashes, db: Db, db': Db, tx: Tx, a: Answer)
    requires Extends(db, db', tx.endpoint) && Answers(h, db, tx, a)
    ensures Answers(h, db', tx, a)
  {
    hide OrderOf, PrintOf;
  }

  lemma StageFrames(h: Hashes, db: Db, db': Db, tx: Tx)
    requires StageOk(h, db, tx) && TablesOk(db) && db.nextId <= db'.nextId && Extends(db, db', tx.endpoint)
    requires tx.locked ==> SameRows(db, db', tx.endpoint)
    requires tx.pending.Some? ==> tx.pending.value.id !in db'.versions
    ensures StageOk(h, db', tx)
  {
    hide SnapshotOk, NoPrint, Answers, SameRows, Extends, TablesOk, NewRow, OwnVerdict;
    if tx.locked && SnapshotOk(db, tx) {
      SnapshotFrames(db, db', tx);
    }
    if tx.locked && NoPrint(h, db, tx) {
      NoPrintFrames(h, db, db', tx);
    }
    if tx.pc.Returned? && Answers(h, db, tx, tx.pc.answer) {
      AnswersFrames(h, db, db', tx, tx.pc.answer);
    }
  }

  lemma TxFrames(h: Hashes, db: Db, db': Db, t: nat, tx: Tx)
    requires TxOk(h, db, t, tx) && TablesOk(db) && db.nextId <= db'.nextId && Extends(db, db', tx.endpoint)
    requires db.endpoints <= db'.endpoints && (tx.creates ==> tx.endpoint !in db'.endpoints)
    requires tx.locked ==> SameRows(db, db', tx.endpoint)
    requires tx.locked ==> h.lockId(tx.endpoint) in db'.locks && db'.locks[h.lockId(tx.endpoint)] == t
    requires tx.pending.Some? ==> tx.pending.value.id !in db'.versions
    ensures TxOk(h, db', t, tx)
  {
    hide StageOk, SameRows, Extends, TablesOk;
    StageFrames(h, db, db', tx);
  }

  // ---------------------------------------------------------------- a commit that only read

  lemma ReaderFacts(h: Hashes, db: Db, t: nat, tx: Tx)
    requires TablesOk(db) && TxOk(h, db, t, tx) && tx.pc.Returned? && !tx.pc.answer.inserted
    ensures Clean(tx) && !tx.creates && Answers(h, db, tx, tx.pc.answer)
    ensures Committed(db, t, tx, tx.pc.answer)
            == db.(locks := Release(db.locks, t), log := db.log + [Commit(tx.endpoint, tx.payload, tx.pc.answer)])
  {
    hide Release, PrintOf;
  }

  lemma {:induction false} PositionFound(h: Hashes, payloads: seq<Json>, fp: string, i: nat)
    requires DistinctPrints(h, payloads) && i < |payloads| && PrintAt(h, payloads[i]) == fp
    ensures Position(h, payloads, fp) == i
  {
    hide PrintAt;
    if i > 0 {
      assert PrintAt(h, payloads[0]) != PrintAt(h, payloads[i]);
      assert DistinctPrints(h, payloads[1..]) by {
        forall j, k | 0 <= j < k < |payloads[1..]| ensures PrintAt(h, payloads[1..][j]) != PrintAt(h, payloads[1..][k]) {
          assert payloads[1..][j] == payloads[j + 1] && payloads[1..][k] == payloads[k + 1];
        }
      }
      PositionFound(h, payloads[1..], fp, i - 1);
    }
  }

  lemma {:induction false} PositionMissing(h: Hashes, payloads: seq<Json>, fp: string)
    requires forall i | 0 <= i < |payloads| :: PrintAt(h, payloads[i]) != fp
    ensures Position(h, payloads, fp) == |payloads|
  {
    hide PrintAt;
    if payloads != [] {
      assert forall i | 0 <= i < |payloads[1..]| :: payloads[1..][i] == payloads[i + 1];
      PositionMissing(h, payloads[1..], fp);
    }
  }

  lemma SnocReplay(h: Hashes, log: seq<Commit>, c: Commit)
    ensures Replay(h, log + [c]) == Register(h, Replay(h, log), c.endpoint, c.payload)
    ensures Serial(h, log + [c]) <==> Serial(h, log) && c.answer == Reply(h, Replay(h, log), c.endpoint, c.payload)
  {
    hide Register, Reply;
    assert (log + [c])[..|log|] == log;
  }

  /** A call that found its fingerprint answers what the sequential registry would, and leaves it as it was. */
  lemma ReaderReplies(h: Hashes, db: Db, tx: Tx, a: Answer)
    requires LedgerOk(h, db) && Answers(h, db, tx, a)
    ensures a == Reply(h, Replay(h, db.log), tx.endpoint, tx.payload)
    ensures Register(h, Replay(h, db.log), tx.endpoint, tx.payload) == Replay(h, db.log)
  {
    hide Replay, Serial, Listed, Canonicalize, VerdictBetween, Position, DistinctPrints, StoredVerdict, OrderOf;
    var payloads := Listed(Replay(h, db.log), tx.endpoint);
    assert Holds(h, db, tx.endpoint, payloads) && DistinctPrints(h, payloads);
    assert RowHolds(h, db.versions[OrderOf(db, tx.endpoint)[a.version - 1]], payloads, a.version - 1);
    PositionFound(h, payloads, PrintAt(h, tx.payload), a.version - 1);
  }

  lemma ReaderLedger(h: Hashes, db: Db, locks: map<int, nat>, tx: Tx, a: Answer)
    requires LedgerOk(h, db) && Answers(h, db, tx, a)
    ensures LedgerOk(h, db.(locks := locks, log := db.log + [Commit(tx.endpoint, tx.payload, a)]))
  {
    hide Holds, Replay, Serial, Listed, DistinctPrints, Register, Reply, Answers;
    var c := Commit(tx.endpoint, tx.payload, a);
    var db' := db.(locks := locks, log := db.log + [c]);
    ReaderReplies(h, db, tx, a);
    SnocReplay(h, db.log, c);
    var ledger := Replay(h, db.log);
    forall e ensures Holds(h, db', e, Listed(ledger, e)) {
      HoldsMoves(h, db, db', e, Listed(ledger, e));
    }
  }

  lemma LogFrames(h: Hashes, db: Db, log: seq<Commit>, t: nat, tx: Tx)
    requires TxOk(h, db, t, tx)
    ensures TxOk(h, db.(log := log), t, tx)
  {
    LocksHeld(h, db, t, tx);
    hide TxOk;
    TxLooksAt(h, db, db.(log := log), t, tx);
  }

  lemma ReadCommitKeeps(h: Hashes, w: World, t: nat)
    requires Inv(h, w) && t in w.txs && w.txs[t].pc.Returned? && !w.txs[t].pc.answer.inserted
    ensures Inv(h, CommitStep(w, t))
  {
    hide TablesOk, LedgerOk, TxOk, Release, Answers, Committed;
    var tx, locks := w.txs[t], Release(w.db.locks, t);
    var log := w.db.log + [Commit(tx.endpoint, tx.payload, tx.pc.answer)];
    var db' := w.db.(locks := locks, log := log);
    ReaderFacts(h, w.db, t, tx);
    ReaderLedger(h, w.db, locks, tx, tx.pc.answer);
    LogTables(w.db, locks, log);
    forall u | u in w.txs && u != t ensures TxOk(h, db', u, w.txs[u]) {
      ReleaseKeepsOthers(h, w, t, u);
      LogFrames(h, w.db.(locks := locks), log, u, w.txs[u]);
      assert w.db.(locks := locks).(log := log) == db';
    }
  }

  lemma LogTables(db: Db, locks: map<int, nat>, log: seq<Commit>)
    requires TablesOk(db)
    ensures TablesOk(db.(locks := locks, log := log))
  {
    var db' := db.(locks := locks, log := log);
    assert forall e :: OrderOf(db', e) == OrderOf(db, e);
    hide OrderOf;
    forall e, i | 0 <= i < |OrderOf(db', e)| ensures RowAt(db', e, i) {
      assert RowAt(db, e, i);
    }
    forall id | id in db'.versions ensures Placed(db', id) {
      assert Placed(db, id);
    }
  }

  // ---------------------------------------------------------------- a commit that writes

  lemma WriterFacts(h: Hashes, db: Db, t: nat, tx: Tx)
    requires TxOk(h, db, t, tx) && tx.pc.Returned? && tx.pc.answer.inserted
    ensures Writing(h, db, tx) && tx.pending.Some?
    ensures tx.pc.answer == Answer(NewRow(h, tx).version, true, OwnVerdict(h, tx))
    ensures tx.pending.value.row == NewRow(h, tx).(classification := OwnVerdict(h, tx))
  {
    hide NoPrint, SnapshotOk, Schema, PrintOf, Summarize, DiffAndClassify;
  }

  /** What the tables are after the commit of a writer, row by row. */
  ghost predicate Grown(db: Db, db': Db, e: Endpoint, id: nat, row: Version) {
    && id !in db.versions && id < db.nextId && row.endpoint == e && db'.nextId == db.nextId
    && db'.versions.Keys == db.versions.Keys + {id} && db'.versions[id] == row
    && OrderOf(db', e) == OrderOf(db, e) + [id]
    && (forall other | other != e :: OrderOf(db', other) == OrderOf(db, other))
    && (forall j | j in db.versions ::
          db'.versions[j] == db.versions[j].(current := db.versions[j].current && db.versions[j].endpoint != e))
  }

  lemma CurrentOnly(db: Db, e: Endpoint, j: nat)
    requires TablesOk(db) && j in db.versions && db.versions[j].endpoint == e && db.versions[j].current
    ensures OrderOf(db, e) != [] && j == OrderOf(db, e)[|OrderOf(db, e)| - 1]
  {
    hide OrderOf;
    assert Placed(db, j);
    assert RowAt(db, e, db.versions[j].version - 1);
  }

  lemma ClearedTable(h: Hashes, db: Db, tx: Tx, j: nat)
    requires TablesOk(db) && Writing(h, db, tx) && j in db.versions
    ensures j in Written(db.versions, tx)
    ensures Written(db.versions, tx)[j]
            == db.versions[j].(current := db.versions[j].current && db.versions[j].endpoint != tx.endpoint)
  {
    hide NoPrint, NewRow, OrderOf;
    var e, ids := tx.endpoint, OrderOf(db, tx.endpoint);
    if db.versions[j].endpoint == e && db.versions[j].current {
      CurrentOnly(db, e, j);
    }
    if ids != [] {
      assert RowAt(db, e, |ids| - 1);
    }
  }

  lemma WrittenKeys(h: Hashes, db: Db, tx: Tx)
    requires Writing(h, db, tx)
    ensures Written(db.versions, tx).Keys == db.versions.Keys + {tx.pending.value.id}
    ensures Written(db.versions, tx)[tx.pending.value.id] == tx.pending.value.row
  {
    hide NoPrint, NewRow, OrderOf, SnapshotOk;
  }

  lemma NewRowEndpoint(h: Hashes, db: Db, tx: Tx)
    requires Writing(h, db, tx)
    ensures tx.pending.Some? && tx.pending.value.row.endpoint == tx.endpoint && tx.pending.value.id !in db.versions
    ensures tx.pending.value.id < db.nextId && tx.locked && SnapshotOk(db, tx) && NoPrint(h, db, tx)
  {
    hide NoPrint, OrderOf, SnapshotOk, PrintOf, Schema;
    assert tx.pending.value.row.endpoint == NewRow(h, tx).endpoint;
  }

  lemma WriterGrows(h: Hashes, db: Db, t: nat, tx: Tx, a: Answer)
    requires TablesOk(db) && Writing(h, db, tx)
    ensures Grown(db, Committed(db, t, tx, a), tx.endpoint, tx.pending.value.id, tx.pending.value.row)
  {
    hide NoPrint, NewRow, SnapshotOk, Written, Release, TablesOk, Writing;
    NewRowEndpoint(h, db, tx);
    WrittenKeys(h, db, tx);
    forall j | j in db.versions
      ensures Written(db.versions, tx)[j]
              == db.versions[j].(current := db.versions[j].current && db.versions[j].endpoint != tx.endpoint)
    {
      ClearedTable(h, db, tx, j);
    }
  }

  lemma GrownRow(db: Db, db': Db, e: Endpoint, id: nat, row: Version, other: Endpoint, i: nat)
    requires TablesOk(db) && Grown(db, db', e, id, row) && i < |OrderOf(db', other)|
    requires row.version == |OrderOf(db, e)| + 1 && row.current
    requires row.previous == if OrderOf(db, e) == [] then None else Some(OrderOf(db, e)[|OrderOf(db, e)| - 1])
    ensures RowAt(db', other, i)
  {
    hide OrderOf;
    if other != e {
      assert RowAt(db, other, i);
    } else if i < |OrderOf(db, e)| {
      assert RowAt(db, e, i);
    }
  }

  lemma GrownPlace(db: Db, db': Db, e: Endpoint, id: nat, row: Version, j: nat)
    requires TablesOk(db) && Grown(db, db', e, id, row) && j in db'.versions
    requires row.version == |OrderOf(db, e)| + 1
    ensures Placed(db', j)
  {
    hide OrderOf;
    if j != id {
      assert j in db.versions;
      assert Placed(db, j);
    }
  }

  lemma GrownTables(db: Db, db': Db, e: Endpoint, id: nat, row: Version)
    requires TablesOk(db) && Grown(db, db', e, id, row) && e in db'.endpoints && db.endpoints <= db'.endpoints
    requires row.version == |OrderOf(db, e)| + 1 && row.current
    requires row.previous == if OrderOf(db, e) == [] then None else Some(OrderOf(db, e)[|OrderOf(db, e)| - 1])
    ensures TablesOk(db')
  {
    hide OrderOf, RowAt, Placed;
    forall other, i | 0 <= i < |OrderOf(db', other)| ensures RowAt(db', other, i) {
      GrownRow(db, db', e, id, row, other, i);
    }
    forall j | j in db'.versions ensures Placed(db', j) {
      GrownPlace(db, db', e, id, row, j);
    }
    forall other | other !in db'.endpoints ensures OrderOf(db', other) == [] {
      assert other !in db.endpoints && other != e;
    }
  }

  // ---------------------------------------------------------------- the ledger of a commit that writes

  lemma FreshPosition(h: Hashes, db: Db, tx: Tx, payloads: seq<Json>)
    requires Holds(h, db, tx.endpoint, payloads) && TablesOk(db) && NoPrint(h, db, tx)
    ensures forall i | 0 <= i < |payloads| :: PrintAt(h, payloads[i]) != PrintAt(h, tx.payload)
  {
    hide OrderOf, Canonicalize, StoredVerdict;
    var ids := OrderOf(db, tx.endpoint);
    forall i | 0 <= i < |payloads| ensures PrintAt(h, payloads[i]) != PrintAt(h, tx.payload) {
      assert RowAt(db, tx.endpoint, i);
      assert RowHolds(h, db.versions[ids[i]], payloads, i);
      assert !Prints(db.versions[ids[i]], tx.endpoint, PrintOf(h, tx));
    }
  }

  /** The verdict the transaction stored is the one against the newest payload of the ledger. */
  lemma OwnVerdictStored(h: Hashes, db: Db, tx: Tx, payloads: seq<Json>)
    requires Holds(h, db, tx.endpoint, payloads) && SnapshotOk(db, tx)
    ensures OwnVerdict(h, tx) == StoredVerdict(h, payloads + [tx.payload], |payloads|)
  {
    hide OrderOf, Canonicalize, Summarize, DiffAndClassify, PrintAt;
    var ids, n := OrderOf(db, tx.endpoint), |payloads|;
    if n > 0 {
      assert ids[n - 1] in db.versions && RowHolds(h, db.versions[ids[n - 1]], payloads, n - 1);
      assert (payloads + [tx.payload])[n - 1] == payloads[n - 1];
    }
  }

  lemma RowSchema(h: Hashes, tx: Tx)
    ensures NewRow(h, tx).schema == Canonicalize(tx.payload) && NewRow(h, tx).fingerprint == PrintAt(h, tx.payload)
    ensures NewRow(h, tx).current && NewRow(h, tx).endpoint == tx.endpoint
  {
    hide Canonicalize;
  }

  lemma RowHoldsLonger(h: Hashes, row: Version, row': Version, payloads: seq<Json>, payload: Json, i: nat)
    requires i < |payloads| && RowHolds(h, row, payloads, i) && row'.(current := row.current) == row
    ensures RowHolds(h, row', payloads + [payload], i)
  {
    hide Canonicalize, PrintAt, VerdictBetween;
    var longer := payloads + [payload];
    assert longer[i] == payloads[i];
    if i > 0 {
      assert longer[i - 1] == payloads[i - 1];
    }
  }

  lemma HoldsOthers(h: Hashes, db: Db, db': Db, e: Endpoint, id: nat, row: Version, other: Endpoint, payloads: seq<Json>)
    requires Grown(db, db', e, id, row) && Holds(h, db, other, payloads) && other != e
    ensures Holds(h, db', other, payloads)
  {
    hide OrderOf, StoredVerdict, PrintAt, Canonicalize;
    forall i | 0 <= i < |payloads|
      ensures OrderOf(db', other)[i] in db'.versions && RowHolds(h, db'.versions[OrderOf(db', other)[i]], payloads, i)
    {
      assert RowHolds(h, db.versions[OrderOf(db, other)[i]], payloads, i);
    }
  }

  lemma HoldsGrown(h: Hashes, db: Db, db': Db, e: Endpoint, id: nat, row: Version, payloads: seq<Json>, payload: Json)
    requires Grown(db, db', e, id, row) && Holds(h, db, e, payloads)
    requires RowHolds(h, row, payloads + [payload], |payloads|)
    ensures Holds(h, db', e, payloads + [payload])
  {
    hide OrderOf, RowHolds;
    var longer, ids := payloads + [payload], OrderOf(db, e);
    forall i | 0 <= i < |longer|
      ensures OrderOf(db', e)[i] in db'.versions && RowHolds(h, db'.versions[OrderOf(db', e)[i]], longer, i)
    {
      if i < |payloads| {
        assert RowHolds(h, db.versions[ids[i]], payloads, i);
        RowHoldsLonger(h, db.versions[ids[i]], db'.versions[ids[i]], payloads, payload, i);
      }
    }
  }

  lemma WriterHolds(h: Hashes, db: Db, tx: Tx, payloads: seq<Json>, row: Version)
    requires TablesOk(db) && Holds(h, db, tx.endpoint, payloads) && DistinctPrints(h, payloads)
    requires SnapshotOk(db, tx) && NoPrint(h, db, tx) && row == NewRow(h, tx).(classification := OwnVerdict(h, tx))
    ensures RowHolds(h, row, payloads + [tx.payload], |payloads|)
    ensures DistinctPrints(h, payloads + [tx.payload])
    ensures Position(h, payloads, PrintAt(h, tx.payload)) == |payloads|
    ensures OwnVerdict(h, tx) == StoredVerdict(h, payloads + [tx.payload], |payloads|)
    ensures NewRow(h, tx).version == |payloads| + 1
  {
    hide Holds, NoPrint, SnapshotOk, NewRow, OwnVerdict, StoredVerdict, PrintAt, Canonicalize;
    FreshPosition(h, db, tx, payloads);
    PositionMissing(h, payloads, PrintAt(h, tx.payload));
    OwnVerdictStored(h, db, tx, payloads);
    RowSchema(h, tx);
    NewRowExtends(h, db, tx);
    assert |OrderOf(db, tx.endpoint)| == |payloads| by {
      HoldsLength(h, db, tx.endpoint, payloads);
    }
  }

  lemma HoldsLength(h: Hashes, db: Db, e: Endpoint, payloads: seq<Json>)
    requires Holds(h, db, e, payloads)
    ensures |OrderOf(db, e)| == |payloads|
  {
  }

  lemma WriterLedger(h: Hashes, db: Db, db': Db, tx: Tx, id: nat, row: Version, a: Answer)
    requires TablesOk(db) && LedgerOk(h, db) && Grown(db, db', tx.endpoint, id, row)
    requires SnapshotOk(db, tx) && NoPrint(h, db, tx) && row == NewRow(h, tx).(classification := OwnVerdict(h, tx))
    requires a == Answer(NewRow(h, tx).version, true, OwnVerdict(h, tx))
    requires db'.log == db.log + [Commit(tx.endpoint, tx.payload, a)]
    ensures LedgerOk(h, db')
  {
    hide TablesOk, Grown, Holds, DistinctPrints, SnapshotOk, NoPrint, NewRow, OwnVerdict, StoredVerdict, Replay, Serial,
      Position, PrintAt, RowHolds;
    var e := tx.endpoint;
    var ledger := Replay(h, db.log);
    var payloads := Listed(ledger, e);
    assert Holds(h, db, e, payloads) && DistinctPrints(h, payloads);
    WriterHolds(h, db, tx, payloads, row);
    SnocReplay(h, db.log, Commit(e, tx.payload, a));
    HoldsGrown(h, db, db', e, id, row, payloads, tx.payload);
    var longer := ledger[e := payloads + [tx.payload]];
    assert Replay(h, db'.log) == longer;
    forall other ensures Holds(h, db', other, Listed(longer, other)) && DistinctPrints(h, Listed(longer, other)) {
      if other != e {
        assert Holds(h, db, other, Listed(ledger, other)) && DistinctPrints(h, Listed(ledger, other));
        HoldsOthers(h, db, db', e, id, row, other, Listed(ledger, other));
      }
    }
  }

  // ---------------------------------------------------------------- the other transactions

  lemma GrownFrames(db: Db, db': Db, e: Endpoint, id: nat, row: Version, other: Endpoint)
    requires Grown(db, db', e, id, row)
    ensures Extends(db, db', other)
    ensures other != e ==> SameRows(db, db', other)
  {
    hide OrderOf;
  }

  lemma CommittedFields(db: Db, t: nat, tx: Tx, a: Answer)
    ensures var db' := Committed(db, t, tx, a);
            && db'.endpoints == (if tx.creates then db.endpoints + {tx.endpoint} else db.endpoints)
            && db'.locks == Release(db.locks, t) && db'.nextId == db.nextId
            && db'.log == db.log + [Commit(tx.endpoint, tx.payload, a)]
  {
  }

  lemma TxBasics(h: Hashes, db: Db, t: nat, tx: Tx)
    requires TxOk(h, db, t, tx)
    ensures tx.creates ==> tx.endpoint !in db.endpoints
    ensures tx.pc != Ensure ==> tx.creates || tx.endpoint in db.endpoints
  {
    hide StageOk;
  }

  lemma OtherKept(h: Hashes, w: World, db': Db, t: nat, id: nat, row: Version, u: nat)
    requires Inv(h, w) && t in w.txs && u in w.txs && u != t && w.txs[t].locked
    requires w.txs[t].pending.Some? && w.txs[t].pending.value.id == id
    requires Grown(w.db, db', w.txs[t].endpoint, id, row)
    requires db'.locks == Release(w.db.locks, t)
    requires db'.endpoints == if w.txs[t].creates then w.db.endpoints + {w.txs[t].endpoint} else w.db.endpoints
    ensures TxOk(h, db', u, w.txs[u])
  {
    hide TablesOk, LedgerOk, TxOk, StageOk, SameRows, Extends, Release;
    var other, e := w.txs[u], w.txs[t].endpoint;
    GrownFrames(w.db, db', e, id, row, other.endpoint);
    ReleaseKeepsOthers(h, w, t, u);
    TxBasics(h, w.db, u, other);
    if other.locked && other.endpoint == e {
      SameEndpointSameTx(h, w, t, u);
    }
    if other.pending.Some? {
      PendingIsLocked(h, w.db, u, other);
    }
    TxFrames(h, w.db, db', u, other);
  }

  lemma WriteCommitKeeps(h: Hashes, w: World, t: nat)
    requires Inv(h, w) && t in w.txs && w.txs[t].pc.Returned? && w.txs[t].pc.answer.inserted
    ensures Inv(h, CommitStep(w, t))
  {
    hide TablesOk, LedgerOk, TxOk, Writing, Grown, Committed, NewRow, OwnVerdict, SnapshotOk, NoPrint, Release;
    var tx := w.txs[t];
    var a := tx.pc.answer;
    var db' := Committed(w.db, t, tx, a);
    WriterFacts(h, w.db, t, tx);
    var id, row := tx.pending.value.id, tx.pending.value.row;
    WriterGrows(h, w.db, t, tx, a);
    NewRowEndpoint(h, w.db, tx);
    CommittedFields(w.db, t, tx, a);
    WriterLedger(h, w.db, db', tx, id, row, a);
    NewRowExtends(h, w.db, tx);
    RowSchema(h, tx);
    TxBasics(h, w.db, t, tx);
    GrownTables(w.db, db', tx.endpoint, id, row);
    forall u | u in w.txs && u != t ensures TxOk(h, db', u, w.txs[u]) {
      OtherKept(h, w, db', t, id, row, u);
    }
  }

  // ---------------------------------------------------------------- every step

  lemma AdvanceKeeps(h: Hashes, w: World, t: nat)
    requires Inv(h, w) && t in w.txs
    ensures Inv(h, AdvanceTx(h, w, t))
  {
    hide Inv, EnsureEndpoint, SetTx, LookedUp, AcquireLock, CurrentRead, InsertRow, PriorRead, Reclassified;
    var tx := w.txs[t];
    match tx.pc
    case Ensure => EnsureKeeps(h, w, t);
    case FastLookup => LookupKeeps(h, w, t, TakeLock);
    case TakeLock => AcquireKeeps(h, w, t);
    case ReadCurrent => CurrentKeeps(h, w, t);
    case LookupAgain => LookupKeeps(h, w, t, if tx.current == None then Insert else ClearCurrent);
    case ClearCurrent => ClearKeeps(h, w, t);
    case Insert => InsertKeeps(h, w, t);
    case ReadPrior => PriorKeeps(h, w, t);
    case Reclassify(_) => ReclassifyKeeps(h, w, t);
    case Returned(_) =>
    case Rejected =>
  }

  lemma CommitKeeps(h: Hashes, w: World, t: nat)
    requires Inv(h, w) && t in w.txs
    ensures Inv(h, CommitStep(w, t))
  {
    hide Inv, Committed;
    if w.txs[t].pc.Returned? {
      if w.txs[t].pc.answer.inserted {
        WriteCommitKeeps(h, w, t);
      } else {
        ReadCommitKeeps(h, w, t);
      }
    }
  }

  lemma StepKeeps(h: Hashes, w: World, m: Move)
    requires Inv(h, w)
    ensures Inv(h, Step(h, w, m))
  {
    hide Inv, AdvanceTx, CommitStep, AbortStep, SetTx, Fresh;
    match m
    case Begin(t, e, payload) => if t !in w.txs { BeginKeeps(h, w, t, e, payload); }
    case Advance(t) => if t in w.txs { AdvanceKeeps(h, w, t); }
    case CommitTx(t) => if t in w.txs { CommitKeeps(h, w, t); }
    case Abort(t) => if t in w.txs { AbortKeeps(h, w, t); }
  }

  lemma EmptyInv(h: Hashes)
    ensures Inv(h, EMPTY)
  {
  }

  lemma {:induction false} RunInv(h: Hashes, moves: seq<Move>)
    ensures Inv(h, Run(h, EMPTY, moves))
  {
    hide Inv, Step;
    if moves == [] {
      EmptyInv(h);
    } else {
      var n := |moves| - 1;
      RunInv(h, moves[..n]);
      StepKeeps(h, Run(h, EMPTY, moves[..n]), moves[n]);
    }
  }
}

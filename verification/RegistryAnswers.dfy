/** What the answers of committed calls mean: each names a row of its own fingerprint, and its verdict is read off payloads. */
module RegistryAnswers {
  import opened JsonValues
  import opened Classifier
  import opened CompatibilityChain
  import opened Registry
  import opened RegistryInvariant
  import opened RegistryCommit
  import opened RegistryTheorems
  import PayloadKinds
  import FlattenLossless

  // ---------------------------------------------------------------- each answer names a row

  /** The row a call is told about: its endpoint and fingerprint, its version, and if inserted its schema and verdict. */
  ghost predicate AnswerNames(h: Hashes, db: Db, c: Commit, id: nat) {
    && id in db.versions
    && db.versions[id].endpoint == c.endpoint
    && db.versions[id].fingerprint == h.fingerprint(Canonicalize(c.payload))
    && db.versions[id].version == c.answer.version
    && c.answer.classification == (if c.answer.inserted then db.versions[id].classification else SAFE)
    && (c.answer.inserted ==> db.versions[id].schema == Canonicalize(c.payload))
    && (c.answer.version == 1 ==> c.answer.classification == SAFE)
  }

  lemma PositionHolds(h: Hashes, payloads: seq<Json>, fp: string)
    requires Position(h, payloads, fp) < |payloads|
    ensures PrintAt(h, payloads[Position(h, payloads, fp)]) == fp
  {
    hide PrintAt;
    if payloads != [] && PrintAt(h, payloads[0]) != fp {
      PositionHolds(h, payloads[1..], fp);
    }
  }

  /** The ledger only grows at its end. */
  lemma {:induction false} LedgerGrows(h: Hashes, log: seq<Commit>, i: nat, e: Endpoint)
    requires i <= |log|
    ensures Listed(Replay(h, log[..i]), e) <= Listed(Replay(h, log), e)
  {
    hide PrintAt, Position;
    if i == |log| {
      assert log[..i] == log;
    } else {
      var n := |log| - 1;
      LedgerGrows(h, log[..n], i, e);
      assert log[..n][..i] == log[..i];
      assert log == log[..n] + [log[n]];
      SnocReplay(h, log[..n], log[n]);
    }
  }

  lemma SerialReply(h: Hashes, log: seq<Commit>, i: nat)
    requires Serial(h, log) && i < |log|
    ensures log[i].answer == Reply(h, Replay(h, log[..i]), log[i].endpoint, log[i].payload)
  {
    hide Reply, Replay;
    PrefixSerial(h, log, i + 1);
    assert log[..i + 1][..i] == log[..i];
  }

  lemma RegisterNew(h: Hashes, ledger: Ledger, e: Endpoint, payload: Json)
    requires Reply(h, ledger, e, payload).inserted
    ensures var before := Listed(ledger, e); var reply := Reply(h, ledger, e, payload);
            && reply.version == |before| + 1 && reply.classification == StoredVerdict(h, before + [payload], |before|)
            && Listed(Register(h, ledger, e, payload), e) == before + [payload]
  {
    hide PrintAt, Position, StoredVerdict;
  }

  /** A new payload goes to the end of its endpoint's ledger. */
  lemma NewListed(h: Hashes, log: seq<Commit>, i: nat)
    requires Serial(h, log) && i < |log| && log[i].answer.inserted
    ensures var before := Listed(Replay(h, log[..i]), log[i].endpoint);
            && log[i].answer.version == |before| + 1
            && log[i].answer.classification == StoredVerdict(h, before + [log[i].payload], |before|)
            && before + [log[i].payload] <= Listed(Replay(h, log), log[i].endpoint)
  {
    hide PrintAt, Position, StoredVerdict, Replay, Serial, Reply, Register, Listed;
    SerialReply(h, log, i);
    LedgerGrows(h, log, i + 1, log[i].endpoint);
    assert log[..i + 1] == log[..i] + [log[i]];
    SnocReplay(h, log[..i], log[i]);
    RegisterNew(h, Replay(h, log[..i]), log[i].endpoint, log[i].payload);
  }

  lemma SameVerdict(h: Hashes, a: seq<Json>, b: seq<Json>, i: nat)
    requires a <= b && i < |a|
    ensures StoredVerdict(h, a, i) == StoredVerdict(h, b, i)
  {
    hide VerdictBetween;
  }

  lemma KnownAnswer(h: Hashes, log: seq<Commit>, i: nat)
    requires Serial(h, log) && i < |log|
    ensures !log[i].answer.inserted ==> log[i].answer.classification == SAFE
  {
    hide PrintAt, Position, StoredVerdict;
    SerialReply(h, log, i);
  }

  lemma InsertedClass(h: Hashes, log: seq<Commit>, i: nat)
    requires Serial(h, log) && i < |log| && log[i].answer.inserted
    ensures var all := Listed(Replay(h, log), log[i].endpoint);
            && 1 <= log[i].answer.version <= |all|
            && log[i].answer.classification == StoredVerdict(h, all, log[i].answer.version - 1)
            && all[log[i].answer.version - 1] == log[i].payload
  {
    hide Replay, StoredVerdict, Serial;
    NewListed(h, log, i);
    var before := Listed(Replay(h, log[..i]), log[i].endpoint);
    SameVerdict(h, before + [log[i].payload], Listed(Replay(h, log), log[i].endpoint), |before|);
  }

  lemma AnswerPlace(h: Hashes, log: seq<Commit>, i: nat)
    requires Serial(h, log) && i < |log|
    ensures var all := Listed(Replay(h, log), log[i].endpoint);
            && 1 <= log[i].answer.version <= |all|
            && PrintAt(h, all[log[i].answer.version - 1]) == PrintAt(h, log[i].payload)
  {
    hide PrintAt, Replay, Serial, Position;
    var e, fp := log[i].endpoint, PrintAt(h, log[i].payload);
    Placement(h, log, e, fp);
    assert Brings(h, log[i], e, fp);
    PositionHolds(h, Listed(Replay(h, log), e), fp);
  }

  lemma LedgerSerial(h: Hashes, db: Db)
    requires LedgerOk(h, db)
    ensures Serial(h, db.log)
  {
    hide Replay, Serial, Holds, DistinctPrints;
  }

  lemma HeldRow(h: Hashes, row: Version, payloads: seq<Json>, i: nat)
    requires i < |payloads| && RowHolds(h, row, payloads, i)
    ensures row.fingerprint == h.fingerprint(Canonicalize(payloads[i])) && row.classification == StoredVerdict(h, payloads, i)
    ensures row.schema == Canonicalize(payloads[i])
  {
    hide StoredVerdict, Canonicalize;
  }

  lemma ClassTold(h: Hashes, log: seq<Commit>, i: nat, row: Version)
    requires Serial(h, log) && i < |log|
    requires var all := Listed(Replay(h, log), log[i].endpoint);
             1 <= row.version <= |all| && row.version == log[i].answer.version
             && row.classification == StoredVerdict(h, all, row.version - 1)
             && row.schema == Canonicalize(all[row.version - 1])
    ensures log[i].answer.classification == if log[i].answer.inserted then row.classification else SAFE
    ensures log[i].answer.inserted ==> row.schema == Canonicalize(log[i].payload)
    ensures log[i].answer.version == 1 ==> log[i].answer.classification == SAFE
  {
    hide Replay, Serial, Listed, Canonicalize, VerdictBetween;
    if log[i].answer.inserted {
      InsertedClass(h, log, i);
    } else {
      KnownAnswer(h, log, i);
    }
  }

  lemma NamedRow(h: Hashes, db: Db, i: nat, id: nat)
    requires TablesOk(db) && LedgerOk(h, db) && i < |db.log|
    requires RowOf(db, db.log[i].endpoint, id) && db.versions[id].version == db.log[i].answer.version
    ensures AnswerNames(h, db, db.log[i], id)
  {
    hide TablesOk, LedgerOk, Replay, Serial, Listed, StoredVerdict, PrintAt, RowHolds, DistinctPrints, RowAt, OrderOf;
    var c := db.log[i];
    LedgerSerial(h, db);
    RowIs(h, db, c.endpoint, id);
    AnswerPlace(h, db.log, i);
    PrintIs(h, c.payload);
    PrintIs(h, Payloads(h, db, c.endpoint)[c.answer.version - 1]);
    HeldRow(h, db.versions[id], Payloads(h, db, c.endpoint), c.answer.version - 1);
    ClassTold(h, db.log, i, db.versions[id]);
  }

  /** In every run, each committed answer names a row with the call's fingerprint. */
  lemma AnswersMean(h: Hashes, moves: seq<Move>, i: nat)
    requires i < |Run(h, EMPTY, moves).db.log|
    ensures var db := Run(h, EMPTY, moves).db; exists id :: AnswerNames(h, db, db.log[i], id)
  {
    hide Run, TablesOk, LedgerOk, TxsOk, OneCreator, OwnIds, PrintAt, Replay, Serial, Listed, AnswerNames;
    RunInv(h, moves);
    var db := Run(h, EMPTY, moves).db;
    var c := db.log[i];
    LedgerSerial(h, db);
    AnswerPlace(h, db.log, i);
    VersionThere(h, db, c.endpoint, c.answer.version);
    var id :| RowOf(db, c.endpoint, id) && db.versions[id].version == c.answer.version;
    NamedRow(h, db, i, id);
  }

  lemma PrintIs(h: Hashes, payload: Json)
    ensures PrintAt(h, payload) == h.fingerprint(Canonicalize(payload))
  {
  }

  // ---------------------------------------------------------------- the verdict of an inserted version

  /** Every place of the ledger was filled by one inserting call. */
  lemma {:induction false} PlaceFilled(h: Hashes, log: seq<Commit>, e: Endpoint, k: nat) returns (j: nat)
    requires Serial(h, log) && k < |Listed(Replay(h, log), e)|
    ensures j < |log| && log[j].endpoint == e && log[j].answer.inserted && log[j].answer.version == k + 1
    ensures log[j].payload == Listed(Replay(h, log), e)[k]
  {
    hide PrintAt, Position, StoredVerdict;
    var n := |log| - 1;
    assert log == log[..n] + [log[n]];
    SnocReplay(h, log[..n], log[n]);
    if k < |Listed(Replay(h, log[..n]), e)| {
      j := PlaceFilled(h, log[..n], e, k);
      LedgerGrows(h, log, n, e);
    } else {
      j := n;
    }
  }

  /**
    * The verdict told with an inserted version, read off the payload of the version before it: SAFE when every
    * value kept its kind, RISKY when otherwise only integers met floats, BREAKING in all other cases.
    */
  lemma InsertedVerdict(h: Hashes, moves: seq<Move>, i: nat)
    requires var log := Run(h, EMPTY, moves).db.log;
             && i < |log| && log[i].answer.inserted && log[i].answer.version > 1
             && forall c | c in log :: FlattenLossless.Clean(c.payload)
    ensures var log := Run(h, EMPTY, moves).db.log;
            exists j :: 0 <= j < i && log[j].endpoint == log[i].endpoint && log[j].answer.inserted
                        && log[j].answer.version == log[i].answer.version - 1
                        && log[i].answer.classification ==
                           if PayloadKinds.KindsKept(log[j].payload, log[i].payload) then SAFE
                           else if PayloadKinds.KindsWidened(log[j].payload, log[i].payload) then RISKY else BREAKING
  {
    hide Run, TablesOk, TxsOk, OneCreator, OwnIds, PrintAt, Position, Replay, Serial, Listed, FlattenLossless.Clean,
      PayloadKinds.KindsKept, PayloadKinds.KindsWidened, VerdictBetween;
    RunInv(h, moves);
    var log := Run(h, EMPTY, moves).db.log;
    var e := log[i].endpoint;
    NewListed(h, log, i);
    PrefixSerial(h, log, i);
    var k := log[i].answer.version - 2;
    var j := PlaceFilled(h, log[..i], e, k);
    assert log[..i][j] == log[j];
    assert log[j] in log && log[i] in log;
    PayloadKinds.VerdictOnPayloads(h.show, log[j].payload, log[i].payload);
  }
}

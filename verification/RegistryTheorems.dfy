/** What holds of the registry after any interleaving of any transactions, with aborts anywhere. */
module RegistryTheorems {
  import opened Options
  import opened JsonValues
  import opened Classifier
  import opened CompatibilityChain
  import opened Registry
  import opened RegistryInvariant
  import opened RegistryCommit

  // ---------------------------------------------------------------- the committed rows

  predicate RowOf(db: Db, e: Endpoint, id: nat) {
    id in db.versions && db.versions[id].endpoint == e
  }

  ghost predicate HasVersion(db: Db, e: Endpoint, v: nat) {
    exists id :: RowOf(db, e, id) && db.versions[id].version == v
  }

  /** The versions of an endpoint are exactly 1..n, each once; fingerprints never repeat; each row points one back; n is current. */
  ghost predicate WellNumbered(db: Db, e: Endpoint, n: nat) {
    && (forall v | 1 <= v <= n :: HasVersion(db, e, v))
    && (forall id | RowOf(db, e, id) :: 1 <= db.versions[id].version <= n)
    && (forall id, j | RowOf(db, e, id) && RowOf(db, e, j) ::
          (db.versions[id].version == db.versions[j].version || db.versions[id].fingerprint == db.versions[j].fingerprint)
          ==> id == j)
    && (forall id | RowOf(db, e, id) :: db.versions[id].current == (db.versions[id].version == n))
    && (forall id | RowOf(db, e, id) :: PointsBack(db, e, db.versions[id]))
  }

  predicate PointsBack(db: Db, e: Endpoint, row: Version) {
    if row.version <= 1 then row.previous == None
    else row.previous.Some? && RowOf(db, e, row.previous.value)
         && db.versions[row.previous.value].version == row.version - 1
  }

  function Payloads(h: Hashes, db: Db, e: Endpoint): seq<Json> {
    Listed(Replay(h, db.log), e)
  }

  /** Row `id` is the one its version number says, and holds that payload of the ledger. */
  lemma RowIs(h: Hashes, db: Db, e: Endpoint, id: nat)
    requires TablesOk(db) && LedgerOk(h, db) && RowOf(db, e, id)
    ensures var row, n := db.versions[id], |Payloads(h, db, e)|;
            && 1 <= row.version <= n && |OrderOf(db, e)| == n && OrderOf(db, e)[row.version - 1] == id
            && RowAt(db, e, row.version - 1) && RowHolds(h, row, Payloads(h, db, e), row.version - 1)
            && DistinctPrints(h, Payloads(h, db, e))
  {
    hide OrderOf, Listed, Replay, Serial, RowHolds, RowAt, DistinctPrints;
    var row := db.versions[id];
    assert Placed(db, id);
    assert RowAt(db, e, row.version - 1);
    assert Holds(h, db, e, Payloads(h, db, e)) && DistinctPrints(h, Payloads(h, db, e));
  }

  lemma VersionThere(h: Hashes, db: Db, e: Endpoint, v: nat)
    requires TablesOk(db) && LedgerOk(h, db) && 1 <= v <= |Payloads(h, db, e)|
    ensures HasVersion(db, e, v)
  {
    hide OrderOf, Listed, Replay, Serial, RowHolds, DistinctPrints;
    assert Holds(h, db, e, Payloads(h, db, e));
    assert RowAt(db, e, v - 1);
    assert RowOf(db, e, OrderOf(db, e)[v - 1]);
  }

  lemma SameRow(h: Hashes, db: Db, e: Endpoint, id: nat, j: nat)
    requires TablesOk(db) && LedgerOk(h, db) && RowOf(db, e, id) && RowOf(db, e, j)
    requires db.versions[id].version == db.versions[j].version || db.versions[id].fingerprint == db.versions[j].fingerprint
    ensures id == j
  {
    hide TablesOk, LedgerOk, RowAt, OrderOf, Payloads, PrintAt, Canonicalize, StoredVerdict;
    RowIs(h, db, e, id);
    RowIs(h, db, e, j);
  }

  lemma RowPoints(h: Hashes, db: Db, e: Endpoint, id: nat)
    requires TablesOk(db) && LedgerOk(h, db) && RowOf(db, e, id)
    ensures PointsBack(db, e, db.versions[id])
    ensures db.versions[id].current == (db.versions[id].version == |Payloads(h, db, e)|)
  {
    hide LedgerOk, OrderOf, Payloads, RowHolds, DistinctPrints;
    RowIs(h, db, e, id);
    var row := db.versions[id];
    if row.version > 1 {
      assert RowAt(db, e, row.version - 2);
    }
  }

  lemma Numbered(h: Hashes, db: Db, e: Endpoint)
    requires TablesOk(db) && LedgerOk(h, db)
    ensures WellNumbered(db, e, |Payloads(h, db, e)|)
  {
    hide TablesOk, LedgerOk, RowAt, OrderOf, Payloads, RowHolds, DistinctPrints, PointsBack, HasVersion;
    var n := |Payloads(h, db, e)|;
    forall v | 1 <= v <= n ensures HasVersion(db, e, v) {
      VersionThere(h, db, e, v);
    }
    forall id | RowOf(db, e, id)
      ensures 1 <= db.versions[id].version <= n && db.versions[id].current == (db.versions[id].version == n)
      ensures PointsBack(db, e, db.versions[id])
    {
      RowIs(h, db, e, id);
      RowPoints(h, db, e, id);
    }
    forall id, j | RowOf(db, e, id) && RowOf(db, e, j)
      && (db.versions[id].version == db.versions[j].version || db.versions[id].fingerprint == db.versions[j].fingerprint)
      ensures id == j
    {
      SameRow(h, db, e, id, j);
    }
  }

  lemma NoneRejected(h: Hashes, w: World, t: nat)
    requires Inv(h, w) && t in w.txs
    ensures w.txs[t].pc != Rejected
    ensures w.txs[t].pc == Insert ==> !Violates(w, t, NewRow(h, w.txs[t]))
  {
    hide TablesOk, LedgerOk, OneCreator, OwnIds, SnapshotOk, NoPrint, Writing, Ready, Answers, Violates, NewRow;
    assert TxOk(h, w.db, t, w.txs[t]);
    if w.txs[t].pc == Insert {
      InsertNeverRejected(h, w, t);
    }
  }

  /**
    * In every interleaving: each endpoint's versions are 1..n with one current row, and no insert meets a
    * UNIQUE violation.
    */
  lemma RegistrySafety(h: Hashes, moves: seq<Move>)
    ensures var w := Run(h, EMPTY, moves);
            && (forall e :: WellNumbered(w.db, e, |Payloads(h, w.db, e)|))
            && (forall t | t in w.txs :: w.txs[t].pc != Rejected)
            && (forall t | t in w.txs && w.txs[t].pc == Insert :: !Violates(w, t, NewRow(h, w.txs[t])))
  {
    hide Run, TablesOk, LedgerOk, TxsOk, OneCreator, OwnIds, WellNumbered, Payloads, Violates, NewRow;
    var w := Run(h, EMPTY, moves);
    RunInv(h, moves);
    forall e ensures WellNumbered(w.db, e, |Payloads(h, w.db, e)|) {
      Numbered(h, w.db, e);
    }
    forall t | t in w.txs
      ensures w.txs[t].pc != Rejected && (w.txs[t].pc == Insert ==> !Violates(w, t, NewRow(h, w.txs[t])))
    {
      NoneRejected(h, w, t);
    }
  }

  // ---------------------------------------------------------------- refinement

  /** The rows of every endpoint are its ledger: the payload, fingerprint and verdict of each version. */
  ghost predicate Refines(h: Hashes, db: Db) {
    forall e, id | RowOf(db, e, id) ::
      1 <= db.versions[id].version <= |Payloads(h, db, e)|
      && RowHolds(h, db.versions[id], Payloads(h, db, e), db.versions[id].version - 1)
  }

  /** Every concurrent run is a serial one: same answers, same tables, in commit order. */
  lemma RegistryRefinesLedger(h: Hashes, moves: seq<Move>)
    ensures var db := Run(h, EMPTY, moves).db;
            Serial(h, db.log) && Refines(h, db) && forall e :: DistinctPrints(h, Payloads(h, db, e))
  {
    hide Run, TablesOk, TxsOk, OneCreator, OwnIds, RowHolds, Replay, Listed, DistinctPrints, OrderOf, RowAt, Serial;
    var db := Run(h, EMPTY, moves).db;
    RunInv(h, moves);
    assert LedgerOk(h, db);
    forall e ensures DistinctPrints(h, Payloads(h, db, e)) {
      assert DistinctPrints(h, Listed(Replay(h, db.log), e));
    }
    forall e, id | RowOf(db, e, id)
      ensures 1 <= db.versions[id].version <= |Payloads(h, db, e)|
      ensures RowHolds(h, db.versions[id], Payloads(h, db, e), db.versions[id].version - 1)
    {
      RowIs(h, db, e, id);
    }
  }

  /** The payloads of the calls on `e` that were told `inserted`, in commit order. */
  function InsertedPayloads(log: seq<Commit>, e: Endpoint): seq<Json> {
    if log == [] then [] else
      var n := |log| - 1;
      InsertedPayloads(log[..n], e) + if log[n].endpoint == e && log[n].answer.inserted then [log[n].payload] else []
  }

  lemma {:induction false} LedgerIsInserted(h: Hashes, log: seq<Commit>, e: Endpoint)
    requires Serial(h, log)
    ensures Listed(Replay(h, log), e) == InsertedPayloads(log, e)
  {
    hide PrintAt, StoredVerdict, Position;
    if log != [] {
      LedgerIsInserted(h, log[..|log| - 1], e);
    }
  }

  predicate SameCall(h: Hashes, a: Commit, b: Commit) {
    a.endpoint == b.endpoint && PrintAt(h, a.payload) == PrintAt(h, b.payload)
  }

  /** The first call on an endpoint with a fingerprint, and no other, is told `inserted`. */
  ghost predicate FirstOnlyInserted(h: Hashes, log: seq<Commit>) {
    forall i | 0 <= i < |log| ::
      log[i].answer.inserted == (forall j | 0 <= j < i :: !SameCall(h, log[j], log[i]))
  }

  /** Calls with the same fingerprint are all told the same version. */
  ghost predicate StableVersions(h: Hashes, log: seq<Commit>) {
    forall i, j | 0 <= i < |log| && 0 <= j < |log| && SameCall(h, log[i], log[j]) ::
      log[i].answer.version == log[j].answer.version
  }

  lemma {:induction false} PositionAppend(h: Hashes, payloads: seq<Json>, payload: Json, fp: string)
    ensures Position(h, payloads + [payload], fp) ==
            if Position(h, payloads, fp) < |payloads| then Position(h, payloads, fp)
            else if PrintAt(h, payload) == fp then |payloads| else |payloads| + 1
  {
    hide PrintAt;
    if payloads != [] {
      assert (payloads + [payload])[1..] == payloads[1..] + [payload];
      PositionAppend(h, payloads[1..], payload, fp);
    }
  }

  function PositionIn(h: Hashes, log: seq<Commit>, e: Endpoint, fp: string): nat {
    Position(h, Listed(Replay(h, log), e), fp)
  }

  function CountIn(h: Hashes, log: seq<Commit>, e: Endpoint): nat {
    |Listed(Replay(h, log), e)|
  }

  /** One call more: where each fingerprint stands afterwards. */
  lemma StepPositions(h: Hashes, log: seq<Commit>, c: Commit, e: Endpoint, fp: string)
    ensures var new_ := e == c.endpoint && PositionIn(h, log, e, PrintAt(h, c.payload)) == CountIn(h, log, e);
            && CountIn(h, log + [c], e) == CountIn(h, log, e) + (if new_ then 1 else 0)
            && PositionIn(h, log + [c], e, fp) ==
               if PositionIn(h, log, e, fp) < CountIn(h, log, e) then PositionIn(h, log, e, fp)
               else if new_ && PrintAt(h, c.payload) == fp then CountIn(h, log, e)
               else CountIn(h, log + [c], e)
  {
    hide PrintAt, Position;
    SnocReplay(h, log, c);
    hide Replay, Serial;
    PositionAppend(h, Listed(Replay(h, log), e), c.payload, fp);
  }

  predicate Brings(h: Hashes, c: Commit, e: Endpoint, fp: string) {
    c.endpoint == e && PrintAt(h, c.payload) == fp
  }

  predicate Known(h: Hashes, log: seq<Commit>, e: Endpoint, fp: string) {
    PositionIn(h, log, e, fp) < CountIn(h, log, e)
  }

  lemma PlacementStep(h: Hashes, log: seq<Commit>, c: Commit, e: Endpoint, fp: string)
    requires Serial(h, log + [c])
    ensures Known(h, log + [c], e, fp) <==> Known(h, log, e, fp) || Brings(h, c, e, fp)
    ensures Known(h, log, e, fp) ==> PositionIn(h, log + [c], e, fp) == PositionIn(h, log, e, fp)
    ensures Brings(h, c, e, fp) ==> c.answer.version == PositionIn(h, log + [c], e, fp) + 1
  {
    hide PositionIn, CountIn, Serial, PrintAt;
    StepPositions(h, log, c, e, fp);
    LastReply(h, log + [c]);
    assert (log + [c])[..|log|] == log;
  }

  lemma NothingKnown(h: Hashes, e: Endpoint, fp: string)
    ensures !Known(h, [], e, fp)
  {
  }

  /** A fingerprint has a place in the ledger exactly when some call brought it; and that place answers every such call. */
  lemma {:induction false} Placement(h: Hashes, log: seq<Commit>, e: Endpoint, fp: string)
    requires Serial(h, log)
    ensures Known(h, log, e, fp) <==> exists i :: 0 <= i < |log| && Brings(h, log[i], e, fp)
    ensures forall i | 0 <= i < |log| && Brings(h, log[i], e, fp) :: log[i].answer.version == PositionIn(h, log, e, fp) + 1
  {
    hide PositionIn, CountIn, Brings, Known, Reply, Replay;
    if log == [] {
      NothingKnown(h, e, fp);
    } else {
      var n := |log| - 1;
      var front, c := log[..n], log[n];
      assert log == front + [c];
      Placement(h, front, e, fp);
      PlacementStep(h, front, c, e, fp);
      forall i | 0 <= i < n ensures front[i] == log[i] {
      }
    }
  }

  lemma LastReply(h: Hashes, log: seq<Commit>)
    requires Serial(h, log) && log != []
    ensures var n := |log| - 1;
            var p := PositionIn(h, log[..n], log[n].endpoint, PrintAt(h, log[n].payload));
            && log[n].answer.inserted == (p == CountIn(h, log[..n], log[n].endpoint))
            && log[n].answer.version == p + 1
            && p <= CountIn(h, log[..n], log[n].endpoint)
            && Serial(h, log[..n])
  {
    hide PrintAt, StoredVerdict, Position, Replay;
  }

  lemma {:induction false} PrefixSerial(h: Hashes, log: seq<Commit>, i: nat)
    requires Serial(h, log) && i <= |log|
    ensures Serial(h, log[..i])
  {
    hide Reply, Replay;
    if i < |log| {
      PrefixSerial(h, log[..|log| - 1], i);
      assert log[..|log| - 1][..i] == log[..i];
    } else {
      assert log[..i] == log;
    }
  }

  lemma FirstInserted(h: Hashes, log: seq<Commit>, i: nat)
    requires Serial(h, log) && i < |log|
    ensures log[i].answer.inserted == (forall j | 0 <= j < i :: !SameCall(h, log[j], log[i]))
  {
    hide PrintAt, PositionIn, CountIn, Serial;
    PrefixSerial(h, log, i);
    PrefixSerial(h, log, i + 1);
    assert log[..i + 1][..i] == log[..i];
    LastReply(h, log[..i + 1]);
    Placement(h, log[..i], log[i].endpoint, PrintAt(h, log[i].payload));
  }

  /** One insertion per fingerprint, however the calls interleave, and one version for it. */
  lemma OneInsertPerFingerprint(h: Hashes, moves: seq<Move>)
    ensures FirstOnlyInserted(h, Run(h, EMPTY, moves).db.log)
    ensures StableVersions(h, Run(h, EMPTY, moves).db.log)
    ensures forall e :: Payloads(h, Run(h, EMPTY, moves).db, e) == InsertedPayloads(Run(h, EMPTY, moves).db.log, e)
  {
    hide Run, Refines, DistinctPrints, Replay, Listed, Serial, InsertedPayloads, PositionIn, CountIn, PrintAt;
    var db := Run(h, EMPTY, moves).db;
    var log := db.log;
    RegistryRefinesLedger(h, moves);
    forall i | 0 <= i < |log|
      ensures log[i].answer.inserted == (forall j | 0 <= j < i :: !SameCall(h, log[j], log[i]))
    {
      FirstInserted(h, log, i);
    }
    forall i, j | 0 <= i < |log| && 0 <= j < |log| && SameCall(h, log[i], log[j])
      ensures log[i].answer.version == log[j].answer.version
    {
      Placement(h, log, log[i].endpoint, PrintAt(h, log[i].payload));
    }
    forall e ensures Payloads(h, db, e) == InsertedPayloads(log, e) {
      LedgerIsInserted(h, log, e);
    }
  }

  // ---------------------------------------------------------------- the stored compatibility chain

  /** No payload that was ever committed has an object key `type`. */
  ghost predicate PlainLog(log: seq<Commit>) {
    forall c | c in log :: NoTypeKey(c.payload)
  }

  lemma {:induction false} InsertedFromLog(log: seq<Commit>, e: Endpoint)
    requires PlainLog(log)
    ensures forall p | p in InsertedPayloads(log, e) :: NoTypeKey(p)
  {
    hide NoTypeKey;
    if log != [] {
      InsertedFromLog(log[..|log| - 1], e);
      assert log[|log| - 1] in log;
    }
  }

  /** All stored verdicts of versions i+1..j rank at most `r`. */
  ghost predicate StoredWithin(db: Db, e: Endpoint, i: nat, j: nat, r: nat) {
    forall id | RowOf(db, e, id) && i < db.versions[id].version <= j :: Rank(db.versions[id].classification) <= r
  }

  lemma {:induction false} StoredBoundsSteps(h: Hashes, db: Db, e: Endpoint, i: nat, j: nat, r: nat)
    requires TablesOk(db) && LedgerOk(h, db) && 1 <= i < j <= |Payloads(h, db, e)| && StoredWithin(db, e, i, j, r)
    ensures WorstStep(h.show, Payloads(h, db, e), i - 1, j - 1) <= r
    decreases j
  {
    hide TablesOk, LedgerOk, Payloads, VerdictBetween, Rank, RowAt, OrderOf, DistinctPrints, Canonicalize, PrintAt;
    VersionThere(h, db, e, j);
    var id :| RowOf(db, e, id) && db.versions[id].version == j;
    RowIs(h, db, e, id);
    assert db.versions[id].classification == VerdictBetween(h.show, Payloads(h, db, e)[j - 2], Payloads(h, db, e)[j - 1]);
    if j > i + 1 {
      StoredBoundsSteps(h, db, e, i, j - 1, r);
    }
  }

  /** A stored verdict above version 1 is the classification of that version's own diff against its predecessor. */
  lemma StoredIsOwnDiff(h: Hashes, moves: seq<Move>, id: nat)
    requires var db := Run(h, EMPTY, moves).db; id in db.versions && db.versions[id].version > 1
    ensures var db := Run(h, EMPTY, moves).db;
            var row := db.versions[id];
            && row.previous.Some? && row.previous.value in db.versions
            && db.versions[row.previous.value].version == row.version - 1
            && row.classification == Summarize(DiffAndClassify(h.show, db.versions[row.previous.value].schema, row.schema))
  {
    hide Run, TablesOk, LedgerOk, TxsOk, OneCreator, OwnIds, Payloads, OrderOf, RowAt, DistinctPrints, Canonicalize,
      Summarize, DiffAndClassify, PrintAt;
    var db := Run(h, EMPTY, moves).db;
    RunInv(h, moves);
    var row := db.versions[id];
    RowIs(h, db, row.endpoint, id);
    RowPoints(h, db, row.endpoint, id);
    RowIs(h, db, row.endpoint, row.previous.value);
  }

  /**
    * The verdicts stored along the way bound the verdict between any two versions, and if all of them are SAFE
    * the newer schema still has every path of the older one, unchanged.
    */
  lemma StoredChainBound(h: Hashes, moves: seq<Move>, a: nat, b: nat, r: nat)
    requires var db := Run(h, EMPTY, moves).db;
             && PlainLog(db.log) && a in db.versions && b in db.versions
             && db.versions[a].endpoint == db.versions[b].endpoint && db.versions[a].version < db.versions[b].version
             && StoredWithin(db, db.versions[a].endpoint, db.versions[a].version, db.versions[b].version, r)
    ensures var db := Run(h, EMPTY, moves).db;
            && Rank(Summarize(DiffAndClassify(h.show, db.versions[a].schema, db.versions[b].schema))) <= r
            && (r == 0 ==> Unchanged(Flatten(db.versions[a].schema, ""), Flatten(db.versions[b].schema, "")))
  {
    hide Run, TablesOk, LedgerOk, TxsOk, OneCreator, OwnIds, OrderOf, RowAt, DistinctPrints, Canonicalize, PrintAt,
      Summarize, DiffAndClassify, StoredWithin, NoTypeKey, Flatten, WorstStep, StoredVerdict, Unchanged, Rank, Payloads;
    var db := Run(h, EMPTY, moves).db;
    RunInv(h, moves);
    var e := db.versions[a].endpoint;
    var ps := Payloads(h, db, e);
    RowIs(h, db, e, a);
    RowIs(h, db, e, b);
    var i, j := db.versions[a].version, db.versions[b].version;
    StoredBoundsSteps(h, db, e, i, j, r);
    PlainPayloads(h, moves, e);
    ChainBound(h.show, ps, i - 1, j - 1);
    if r == 0 {
      SafeChainOnlyGrows(h.show, ps, i - 1, j - 1);
    }
  }

  lemma PlainPayloads(h: Hashes, moves: seq<Move>, e: Endpoint)
    requires PlainLog(Run(h, EMPTY, moves).db.log)
    ensures forall p | p in Payloads(h, Run(h, EMPTY, moves).db, e) :: NoTypeKey(p)
  {
    hide Run, Payloads, InsertedPayloads, NoTypeKey, FirstOnlyInserted, StableVersions;
    OneInsertPerFingerprint(h, moves);
    InsertedFromLog(Run(h, EMPTY, moves).db.log, e);
  }

  // ---------------------------------------------------------------- waiting

  /** Every lock is held by an open transaction that took it for its endpoint. */
  ghost predicate LocksOwned(h: Hashes, w: World) {
    forall l | l in w.db.locks :: HoldsLock(h, w, w.db.locks[l], l)
  }

  predicate HoldsLock(h: Hashes, w: World, u: nat, l: int) {
    u in w.txs && w.txs[u].locked && h.lockId(w.txs[u].endpoint) == l
  }

  lemma AdvanceKeepsHolders(h: Hashes, w: World, t: nat, u: nat, l: int)
    requires t in w.txs && HoldsLock(h, w, u, l)
    ensures HoldsLock(h, AdvanceTx(h, w, t), u, l)
  {
    hide FindPrint, FindCurrent, NewRow, EndpointPending, Violates, PrintOf, Schema;
    hide DiffAndClassify, Summarize, Canonicalize;
  }

  lemma AdvanceLocks(h: Hashes, w: World, t: nat, l: int)
    requires t in w.txs && l in AdvanceTx(h, w, t).db.locks
    ensures var w' := AdvanceTx(h, w, t);
            if l in w.db.locks then w'.db.locks[l] == w.db.locks[l] else HoldsLock(h, w', w'.db.locks[l], l)
  {
    hide FindPrint, FindCurrent, NewRow, EndpointPending, Violates, PrintOf, Schema;
    hide DiffAndClassify, Summarize, Canonicalize;
  }

  lemma EndKeepsHolders(h: Hashes, w: World, t: nat, w': World)
    requires LocksOwned(h, w) && w'.txs == w.txs - {t} && w'.db.locks == Release(w.db.locks, t)
    ensures LocksOwned(h, w')
  {
    forall l | l in w'.db.locks ensures HoldsLock(h, w', w'.db.locks[l], l) {
      assert HoldsLock(h, w, w.db.locks[l], l);
    }
  }

  lemma LocksStayHeld(h: Hashes, w: World, m: Move)
    requires LocksOwned(h, w)
    ensures LocksOwned(h, Step(h, w, m))
  {
    var w' := Step(h, w, m);
    match m
    case Begin(t, e, payload) =>
      forall l | l in w'.db.locks ensures HoldsLock(h, w', w'.db.locks[l], l) {
        assert HoldsLock(h, w, w.db.locks[l], l);
      }
    case Advance(t) =>
      hide AdvanceTx, HoldsLock;
      if t in w.txs {
        forall l | l in w'.db.locks ensures HoldsLock(h, w', w'.db.locks[l], l) {
          AdvanceLocks(h, w, t, l);
          if l in w.db.locks {
            AdvanceKeepsHolders(h, w, t, w.db.locks[l], l);
          }
        }
      }
    case CommitTx(t) =>
      hide Written, Release, HoldsLock, LocksOwned;
      if t in w.txs && w.txs[t].pc.Returned? {
        EndKeepsHolders(h, w, t, w');
      }
    case Abort(t) =>
      hide Release, HoldsLock, LocksOwned;
      if t in w.txs {
        EndKeepsHolders(h, w, t, w');
      }
  }

  lemma {:induction false} LocksHeldInRun(h: Hashes, moves: seq<Move>)
    ensures LocksOwned(h, Run(h, EMPTY, moves))
  {
    hide Step;
    if moves != [] {
      var n := |moves| - 1;
      LocksHeldInRun(h, moves[..n]);
      LocksStayHeld(h, Run(h, EMPTY, moves[..n]), moves[n]);
    }
  }

  /** A transaction that holds a lock never waits. */
  lemma HolderRuns(h: Hashes, w: World, u: nat)
    requires Inv(h, w) && u in w.txs && w.txs[u].locked
    ensures !Blocked(h, w, u)
  {
    hide TablesOk, LedgerOk, OneCreator, OwnIds, SnapshotOk, NoPrint, Answers, NewRow, OwnVerdict, EndpointPending;
    assert TxOk(h, w.db, u, w.txs[u]);
  }

  /** Nor does one that waits for a row hold anything up: it has inserted no row of its own. */
  lemma CreatorPastEnsure(h: Hashes, w: World, u: nat)
    requires Inv(h, w) && u in w.txs && w.txs[u].creates
    ensures w.txs[u].pc != Ensure
  {
    hide TablesOk, LedgerOk, OneCreator, OwnIds, SnapshotOk, NoPrint, Answers, NewRow, OwnVerdict;
    assert TxOk(h, w.db, u, w.txs[u]);
  }

  /** No deadlock: in every reachable state, while transactions are open, one of them need not wait. */
  lemma NoDeadlock(h: Hashes, moves: seq<Move>, t: nat)
    requires t in Run(h, EMPTY, moves).txs
    ensures var w := Run(h, EMPTY, moves); exists u :: u in w.txs && !Blocked(h, w, u)
  {
    hide Run, Step, Inv, LocksOwned;
    var w := Run(h, EMPTY, moves);
    RunInv(h, moves);
    LocksHeldInRun(h, moves);
    if Blocked(h, w, t) {
      if w.txs[t].pc == Ensure {
        var u :| u in w.txs && u != t && w.txs[u].creates && w.txs[u].endpoint == w.txs[t].endpoint;
        CreatorPastEnsure(h, w, u);
        if Blocked(h, w, u) {
          LockWaitIsFor(h, w, u);
        }
      } else {
        LockWaitIsFor(h, w, t);
      }
    }
  }

  lemma LockWaitIsFor(h: Hashes, w: World, t: nat)
    requires Inv(h, w) && LocksOwned(h, w) && t in w.txs && Blocked(h, w, t) && w.txs[t].pc == TakeLock
    ensures exists u :: u in w.txs && !Blocked(h, w, u)
  {
    hide Inv;
    var l := h.lockId(w.txs[t].endpoint);
    var u := w.db.locks[l];
    assert HoldsLock(h, w, u, l);
    HolderRuns(h, w, u);
  }
}

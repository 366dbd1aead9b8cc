/**
  * The versioned contract registry as a concurrent protocol: every SQL statement of `upsert_schema_version`
  * (and of the reclassification that follows it) is one atomic step of one transaction, reads see committed
  * rows, and a transaction's own writes reach the tables only when it commits.
  */
module Registry {
  import opened Options
  import opened JsonValues
  import opened Classifier
  import opened CompatibilityChain

  datatype Endpoint = Endpoint(namespace: string, service: string, method_: string, route: string)

  /** The two hashes, and Python's `str` of containers; nothing is assumed of them, so hashes may collide. */
  datatype Hashes = Hashes(fingerprint: Json -> string, lockId: Endpoint -> int, show: Show)

  /** A row of `contract_schema_versions`. */
  datatype Version = Version(endpoint: Endpoint, version: nat, fingerprint: string, schema: Json,
                             classification: Compatibility, previous: Option<nat>, current: bool)

  datatype Found = Found(id: nat, row: Version)

  /** The next statement of a transaction. */
  datatype Pc =
    | Ensure
    | FastLookup
    | TakeLock
    | ReadCurrent
    | LookupAgain
    | ClearCurrent
    | Insert
    | ReadPrior
    | Reclassify(prior: Json)
    | Returned(answer: Answer)
    | Rejected

  /** What the caller is told. */
  datatype Answer = Answer(version: nat, inserted: bool, classification: Compatibility)

  /** One open transaction: its request, its next statement, what it has read, and its uncommitted writes. */
  datatype Tx = Tx(endpoint: Endpoint, payload: Json, pc: Pc, current: Option<Found>,
                   creates: bool, locked: bool, cleared: Option<nat>, pending: Option<Found>)

  datatype Commit = Commit(endpoint: Endpoint, payload: Json, answer: Answer)

  /**
    * The committed tables and the advisory locks. `log` and `order` are history: the committed calls in
    * commit order, and per endpoint the ids of its rows in commit order.
    */
  datatype Db = Db(endpoints: set<Endpoint>, versions: map<nat, Version>, locks: map<int, nat>, nextId: nat,
                   log: seq<Commit>, order: map<Endpoint, seq<nat>>)

  datatype World = World(db: Db, txs: map<nat, Tx>)

  const EMPTY := World(Db({}, map[], map[], 0, [], map[]), map[])

  datatype Move = Begin(tx: nat, endpoint: Endpoint, payload: Json) | Advance(tx: nat) | CommitTx(tx: nat) | Abort(tx: nat)

  // ---------------------------------------------------------------- reads

  predicate Prints(row: Version, e: Endpoint, fp: string) {
    row.endpoint == e && row.fingerprint == fp
  }

  /** `WHERE endpoint_id = .. AND fingerprint = .. LIMIT 1`, scanning the ids below `n`. */
  function FindPrint(versions: map<nat, Version>, e: Endpoint, fp: string, n: nat): Option<Found> {
    if n == 0 then None
    else if n - 1 in versions && Prints(versions[n - 1], e, fp) then Some(Found(n - 1, versions[n - 1]))
    else FindPrint(versions, e, fp, n - 1)
  }

  /** `WHERE endpoint_id = .. AND is_current ORDER BY version DESC LIMIT 1`, scanning the ids below `n`. */
  function FindCurrent(versions: map<nat, Version>, e: Endpoint, n: nat): Option<Found> {
    if n == 0 then None else
      var best := FindCurrent(versions, e, n - 1);
      if n - 1 in versions && versions[n - 1].endpoint == e && versions[n - 1].current
         && (best == None || versions[n - 1].version > best.value.row.version)
      then Some(Found(n - 1, versions[n - 1])) else best
  }

  // ---------------------------------------------------------------- statements

  function Schema(tx: Tx): Json {
    Canonicalize(tx.payload)
  }

  function PrintOf(h: Hashes, tx: Tx): string {
    h.fingerprint(Schema(tx))
  }

  function SetTx(w: World, t: nat, tx: Tx): World {
    w.(txs := w.txs[t := tx])
  }

  /** Another open transaction has inserted this endpoint and not yet committed: `ON CONFLICT` has to wait. */
  predicate EndpointPending(w: World, t: nat, e: Endpoint) {
    exists u :: u in w.txs && u != t && w.txs[u].creates && w.txs[u].endpoint == e
  }

  function EnsureEndpoint(w: World, t: nat, tx: Tx): World {
    if tx.endpoint in w.db.endpoints then SetTx(w, t, tx.(pc := FastLookup))
    else if EndpointPending(w, t, tx.endpoint) then w
    else SetTx(w, t, tx.(pc := FastLookup, creates := true))
  }

  function Existing(row: Version): Pc {
    Returned(Answer(row.version, false, SAFE))
  }

  function LookedUp(h: Hashes, db: Db, tx: Tx, otherwise: Pc): Tx {
    match FindPrint(db.versions, tx.endpoint, PrintOf(h, tx), db.nextId)
    case Some(found) => tx.(pc := Existing(found.row))
    case None => tx.(pc := otherwise)
  }

  function AcquireLock(h: Hashes, w: World, t: nat, tx: Tx): World {
    var lock := h.lockId(tx.endpoint);
    if lock in w.db.locks then w
    else World(w.db.(locks := w.db.locks[lock := t]), w.txs[t := tx.(pc := ReadCurrent, locked := true)])
  }

  function CurrentRead(db: Db, tx: Tx): Tx {
    tx.(pc := LookupAgain, current := FindCurrent(db.versions, tx.endpoint, db.nextId))
  }

  function NewRow(h: Hashes, tx: Tx): Version {
    Version(tx.endpoint,
            if tx.current == None then 1 else tx.current.value.row.version + 1,
            PrintOf(h, tx), Schema(tx), SAFE,
            if tx.current == None then None else Some(tx.current.value.id), true)
  }

  predicate Clash(a: Version, b: Version) {
    a.endpoint == b.endpoint && (a.version == b.version || a.fingerprint == b.fingerprint)
  }

  /** One of the UNIQUE constraints stands in the way, in a committed row or in another open transaction's. */
  predicate Violates(w: World, t: nat, row: Version) {
    || (exists id :: id in w.db.versions && Clash(w.db.versions[id], row))
    || (exists u :: u in w.txs && u != t && w.txs[u].pending.Some? && Clash(w.txs[u].pending.value.row, row))
  }

  function Inserted(h: Hashes, db: Db, tx: Tx): Tx {
    var row := NewRow(h, tx);
    tx.(pc := if row.previous == None then Returned(Answer(row.version, true, SAFE)) else ReadPrior,
        pending := Some(Found(db.nextId, row)))
  }

  function InsertRow(h: Hashes, w: World, t: nat, tx: Tx): World {
    if Violates(w, t, NewRow(h, tx)) then SetTx(w, t, tx.(pc := Rejected))
    else World(w.db.(nextId := w.db.nextId + 1), w.txs[t := Inserted(h, w.db, tx)])
  }

  /** `SELECT .. WHERE id = previous`, then `.one()`. */
  function PriorRead(db: Db, tx: Tx): Tx
    requires tx.pending.Some?
  {
    var previous := tx.pending.value.row.previous;
    if previous.Some? && previous.value in db.versions
    then tx.(pc := Reclassify(db.versions[previous.value].schema))
    else tx.(pc := Rejected)
  }

  function Reclassified(h: Hashes, tx: Tx, prior: Json): Tx
    requires tx.pending.Some?
  {
    var verdict := Summarize(DiffAndClassify(h.show, prior, Schema(tx)));
    var row := tx.pending.value.row;
    tx.(pc := Returned(Answer(row.version, true, verdict)),
        pending := Some(tx.pending.value.(row := row.(classification := verdict))))
  }

  /** The next statement of transaction `t`; a statement that has to wait leaves everything as it is. */
  function AdvanceTx(h: Hashes, w: World, t: nat): World
    requires t in w.txs
  {
    var tx := w.txs[t];
    match tx.pc
    case Ensure => EnsureEndpoint(w, t, tx)
    case FastLookup => SetTx(w, t, LookedUp(h, w.db, tx, TakeLock))
    case TakeLock => AcquireLock(h, w, t, tx)
    case ReadCurrent => SetTx(w, t, CurrentRead(w.db, tx))
    case LookupAgain => SetTx(w, t, LookedUp(h, w.db, tx, if tx.current == None then Insert else ClearCurrent))
    case ClearCurrent =>
      if tx.current.Some? then SetTx(w, t, tx.(pc := Insert, cleared := Some(tx.current.value.id))) else w
    case Insert => InsertRow(h, w, t, tx)
    case ReadPrior => if tx.pending.Some? then SetTx(w, t, PriorRead(w.db, tx)) else w
    case Reclassify(prior) => if tx.pending.Some? then SetTx(w, t, Reclassified(h, tx, prior)) else w
    case Returned(_) => w
    case Rejected => w
  }

  /** The next statement of `t` waits for another open transaction. */
  predicate Blocked(h: Hashes, w: World, t: nat)
    requires t in w.txs
  {
    var tx := w.txs[t];
    (tx.pc == Ensure && tx.endpoint !in w.db.endpoints && EndpointPending(w, t, tx.endpoint))
    || (tx.pc == TakeLock && h.lockId(tx.endpoint) in w.db.locks)
  }

  // ---------------------------------------------------------------- the end of a transaction

  function Release(locks: map<int, nat>, t: nat): map<int, nat> {
    map l | l in locks && locks[l] != t :: locks[l]
  }

  function AbortStep(w: World, t: nat): World {
    World(w.db.(locks := Release(w.db.locks, t)), w.txs - {t})
  }

  function ClearIn(versions: map<nat, Version>, cleared: Option<nat>): map<nat, Version> {
    if cleared.Some? && cleared.value in versions
    then versions[cleared.value := versions[cleared.value].(current := false)]
    else versions
  }

  /** The table once the writes of a transaction are in it. */
  function Written(versions: map<nat, Version>, tx: Tx): map<nat, Version> {
    var cleared := ClearIn(versions, tx.cleared);
    if tx.pending.Some? then cleared[tx.pending.value.id := tx.pending.value.row] else cleared
  }

  function OrderOf(db: Db, e: Endpoint): seq<nat> {
    if e in db.order then db.order[e] else []
  }

  function Committed(db: Db, t: nat, tx: Tx, answer: Answer): Db {
    Db(if tx.creates then db.endpoints + {tx.endpoint} else db.endpoints,
       Written(db.versions, tx), Release(db.locks, t), db.nextId,
       db.log + [Commit(tx.endpoint, tx.payload, answer)],
       if tx.pending.Some? then db.order[tx.endpoint := OrderOf(db, tx.endpoint) + [tx.pending.value.id]] else db.order)
  }

  /** `commit()`: the caller commits only once `track_contract` has returned. */
  function CommitStep(w: World, t: nat): World
    requires t in w.txs
  {
    var tx := w.txs[t];
    if tx.pc.Returned? then World(Committed(w.db, t, tx, tx.pc.answer), w.txs - {t}) else w
  }

  function Fresh(e: Endpoint, payload: Json): Tx {
    Tx(e, payload, Ensure, None, false, false, None, None)
  }

  /** Any transaction may move at any time; one that ends without a commit leaves no trace. */
  function Step(h: Hashes, w: World, m: Move): World {
    match m
    case Begin(t, e, payload) => if t in w.txs then w else SetTx(w, t, Fresh(e, payload))
    case Advance(t) => if t in w.txs then AdvanceTx(h, w, t) else w
    case CommitTx(t) => if t in w.txs then CommitStep(w, t) else w
    case Abort(t) => if t in w.txs then AbortStep(w, t) else w
  }

  function Run(h: Hashes, w: World, moves: seq<Move>): World {
    if moves == [] then w else
      var n := |moves| - 1;
      Step(h, Run(h, w, moves[..n]), moves[n])
  }

  // ---------------------------------------------------------------- the sequential registry

  /** What the registry is for: per endpoint, the payloads that brought a new fingerprint, oldest first. */
  type Ledger = map<Endpoint, seq<Json>>

  function Listed(ledger: Ledger, e: Endpoint): seq<Json> {
    if e in ledger then ledger[e] else []
  }

  function PrintAt(h: Hashes, payload: Json): string {
    h.fingerprint(Canonicalize(payload))
  }

  /** The position of the first payload with this fingerprint, or the length. */
  function Position(h: Hashes, payloads: seq<Json>, fp: string): (i: nat)
    ensures i <= |payloads|
  {
    if payloads == [] then 0
    else if PrintAt(h, payloads[0]) == fp then 0
    else 1 + Position(h, payloads[1..], fp)
  }

  /** The verdict stored with the i-th version. */
  function StoredVerdict(h: Hashes, payloads: seq<Json>, i: nat): Compatibility
    requires i < |payloads|
  {
    if i == 0 then SAFE else VerdictBetween(h.show, payloads[i - 1], payloads[i])
  }

  function Register(h: Hashes, ledger: Ledger, e: Endpoint, payload: Json): Ledger {
    var payloads := Listed(ledger, e);
    if Position(h, payloads, PrintAt(h, payload)) < |payloads| then ledger
    else ledger[e := payloads + [payload]]
  }

  /** What a caller is told when calls run one after the other. */
  function Reply(h: Hashes, ledger: Ledger, e: Endpoint, payload: Json): Answer {
    var payloads := Listed(ledger, e);
    var i := Position(h, payloads, PrintAt(h, payload));
    if i < |payloads| then Answer(i + 1, false, SAFE)
    else Answer(|payloads| + 1, true, StoredVerdict(h, payloads + [payload], |payloads|))
  }

  function Replay(h: Hashes, log: seq<Commit>): Ledger {
    if log == [] then map[] else
      var n := |log| - 1;
      Register(h, Replay(h, log[..n]), log[n].endpoint, log[n].payload)
  }

  /** Each committed call was answered as if it had run alone, in commit order. */
  predicate Serial(h: Hashes, log: seq<Commit>) {
    log == [] ||
    (var n := |log| - 1;
     Serial(h, log[..n]) && log[n].answer == Reply(h, Replay(h, log[..n]), log[n].endpoint, log[n].payload))
  }
}

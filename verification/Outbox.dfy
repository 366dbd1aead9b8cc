/**
  * The webhook outbox, its single worker and the dead letters: durable rows, the writes of the worker's open
  * transaction, and a crash allowed between any two of its statements.
  */
module Outbox {

  datatype Status = PENDING | DELIVERING | DELIVERED | FAILED

  /** What a dead letter is keyed by: `UNIQUE(event_id, consumer_id)`. */
  datatype Key = Key(event: string, consumer: string)

  /** A row of `webhook_outbox`. `delays` is history: the seconds of backoff scheduled so far. */
  datatype Row = Row(key: Key, status: Status, attempts: nat, maxAttempts: int, due: int, delays: nat)

  /** A row of `webhook_delivery_attempts`. */
  datatype Attempt = Attempt(key: Key, success: bool, count: nat)

  /** Committed tables; `dlq` holds the attempt count of each dead letter. Ids follow `created_at`. */
  datatype Db = Db(rows: map<nat, Row>, nextId: nat, attempts: seq<Attempt>, dlq: map<Key, nat>)

  /** What an `UPDATE webhook_outbox` sets. */
  datatype Change =
    | Claim
    | Drop
    | Deliver
    | Exhaust(attempts: nat)
    | Retry(attempts: nat, due: int, delay: nat)

  /** An uncommitted write of the worker. */
  datatype Write = Update(id: nat, change: Change) | Log(attempt: Attempt) | Upsert(key: Key, count: nat)

  /** A row as the poll fetched it. */
  datatype Item = Item(id: nat, key: Key, attempts: nat, maxAttempts: int)

  datatype Stage =
    | Claiming
    | Claimed
    | Reading
    | Posting
    | Logging(ok: bool)
    | Logged(ok: bool)
    | Settling(ok: bool)
    | Settled

  datatype Worker = Idle | Busy(items: seq<Item>, stage: Stage)

  datatype Post = Post(id: nat, ok: bool)

  /**
    * `gauge` is `DLQ_SIZE`. The rest is history: `posts`, `done` (rows whose processing finished), `crashes`, the
    * new letters `lost` with a transaction since the last restart, and the letters there `atRestart`.
    */
  datatype World = World(db: Db, pending: seq<Write>, worker: Worker, now: int, gauge: nat,
                         posts: seq<Post>, done: seq<nat>, crashes: nat, lost: nat, atRestart: nat)

  const EMPTY := World(Db(map[], 0, [], map[]), [], Idle, 0, 0, [], [], 0, 0, 0)

  datatype Subscription = Missing | Inactive | Active

  datatype Move =
    | Enqueue(key: Key, maxAttempts: int)
    | Tick(seconds: nat)
    | Poll
    | Work(subscription: Subscription, accepted: bool)
    | Replay(letter: Key, subscribed: Subscription, replayed: bool)
    | Crash(restart: bool)

  // ---------------------------------------------------------------- backoff

  function Pow2(n: nat): (p: nat)
    ensures p >= 1
  {
    if n == 0 then 1 else 2 * Pow2(n - 1)
  }

  /** `_backoff_seconds`. */
  function Backoff(attempts: nat): nat {
    var delay := Pow2(if attempts < 1 then 1 else attempts);
    if delay < 60 then delay else 60
  }

  /** The backoff scheduled by the first `attempts` failures. */
  function DelaySum(attempts: nat): nat {
    if attempts == 0 then 0 else DelaySum(attempts - 1) + Backoff(attempts)
  }

  // ---------------------------------------------------------------- writes

  function SetRow(db: Db, id: nat, row: Row): Db {
    db.(rows := db.rows[id := row])
  }

  function Larger(a: nat, b: nat): nat {
    if a < b then b else a
  }

  function Changed(row: Row, change: Change): Row {
    match change
    case Claim => row.(status := DELIVERING)
    case Drop => row.(status := FAILED)
    case Deliver => row.(status := DELIVERED, attempts := row.attempts + 1)
    case Exhaust(attempts) => row.(status := FAILED, attempts := attempts)
    case Retry(attempts, due, delay) => row.(status := PENDING, attempts := attempts, due := due, delays := row.delays + delay)
  }

  function Apply(db: Db, w: Write): Db {
    match w
    case Update(id, change) => if id in db.rows then SetRow(db, id, Changed(db.rows[id], change)) else db
    case Log(attempt) => db.(attempts := db.attempts + [attempt])
    case Upsert(key, count) => db.(dlq := db.dlq[key := if key in db.dlq then Larger(db.dlq[key], count) else count])
  }

  function ApplyAll(db: Db, ws: seq<Write>): Db
    decreases |ws|
  {
    if ws == [] then db else ApplyAll(Apply(db, ws[0]), ws[1..])
  }

  // ---------------------------------------------------------------- the worker

  const BATCH_SIZE := 50

  function ItemOf(id: nat, row: Row): Item {
    Item(id, row.key, row.attempts, row.maxAttempts)
  }

  /** The pending rows below id `n` whose retry time has come, oldest first. */
  function DueItems(rows: map<nat, Row>, now: int, n: nat): seq<Item> {
    if n == 0 then [] else
      DueItems(rows, now, n - 1)
      + if n - 1 in rows && rows[n - 1].status == PENDING && rows[n - 1].due <= now then [ItemOf(n - 1, rows[n - 1])] else []
  }

  function Fetch(db: Db, now: int): seq<Item> {
    var items := DueItems(db.rows, now, db.nextId);
    if |items| <= BATCH_SIZE then items else items[..BATCH_SIZE]
  }

  function PollStep(w: World): World {
    if w.worker != Idle then w else
      var items := Fetch(w.db, w.now);
      if items == [] then w else w.(worker := Busy(items, Claiming))
  }

  function CommitWork(w: World, worker: Worker): World {
    w.(db := ApplyAll(w.db, w.pending), pending := [], worker := worker)
  }

  function ReadSubscription(w: World, items: seq<Item>, item: Item, sub: Subscription): World {
    match sub
    case Missing => w.(pending := [Update(item.id, Drop)], worker := Busy(items, Settled))
    case Inactive => w.(worker := Busy(items, Settling(false)))
    case Active => w.(worker := Busy(items, Posting))
  }

  /** The update after the delivery: delivered, exhausted into the dead letters, or back to pending. */
  function Settle(w: World, items: seq<Item>, item: Item, ok: bool): World {
    var next := item.attempts + 1;
    if ok then w.(pending := [Update(item.id, Deliver)], worker := Busy(items, Settled))
    else if next >= item.maxAttempts then
      w.(pending := [Update(item.id, Exhaust(next)), Upsert(item.key, next)],
         gauge := if item.key in w.db.dlq then w.gauge else w.gauge + 1,
         worker := Busy(items, Settled))
    else
      w.(pending := [Update(item.id, Retry(next, w.now + Backoff(next), Backoff(next)))], worker := Busy(items, Settled))
  }

  function NextItem(items: seq<Item>): Worker
    requires items != []
  {
    if |items| == 1 then Idle else Busy(items[1..], Claiming)
  }

  /** One statement, commit or POST of the worker; the subscription read and the response are given. */
  function WorkStep(w: World, sub: Subscription, accepted: bool): World {
    match w.worker
    case Idle => w
    case Busy(items, stage) =>
      if items == [] then w else
        var item := items[0];
        match stage
        case Claiming => w.(pending := [Update(item.id, Claim)], worker := Busy(items, Claimed))
        case Claimed => CommitWork(w, Busy(items, Reading))
        case Reading => ReadSubscription(w, items, item, sub)
        case Posting => w.(posts := w.posts + [Post(item.id, accepted)], worker := Busy(items, Logging(accepted)))
        case Logging(ok) => w.(pending := [Log(Attempt(item.key, ok, 1))], worker := Busy(items, Logged(ok)))
        case Logged(ok) => CommitWork(w, Busy(items, Settling(ok)))
        case Settling(ok) => Settle(w, items, item, ok)
        case Settled => CommitWork(w, NextItem(items)).(done := w.done + [item.id])
  }

  /** `_enqueue_webhook_outbox` with inline delivery off: one pending row, due at once. */
  function EnqueueStep(w: World, key: Key, maxAttempts: int): World {
    var row := Row(key, PENDING, 0, maxAttempts, w.now, 0);
    w.(db := SetRow(w.db, w.db.nextId, row).(nextId := w.db.nextId + 1))
  }

  /** `replay_dlq_entry`: one delivery for a dead letter; the letter itself stays. */
  function ReplayStep(w: World, key: Key, sub: Subscription, ok: bool): World {
    if key in w.db.dlq && sub == Active then w.(db := w.db.(attempts := w.db.attempts + [Attempt(key, ok, 1)])) else w
  }

  /** The dead letters the open transaction would add: counted in the gauge, not yet committed. */
  function NewLetters(w: World): set<Key> {
    ApplyAll(w.db, w.pending).dlq.Keys - w.db.dlq.Keys
  }

  /** The open transaction is lost; a restart also loses the gauge. */
  function CrashStep(w: World, restart: bool): World {
    var down := w.(pending := [], worker := Idle, crashes := w.crashes + 1);
    if restart then down.(gauge := 0, lost := 0, atRestart := |w.db.dlq|) else down.(lost := w.lost + |NewLetters(w)|)
  }

  function Step(w: World, m: Move): World {
    match m
    case Enqueue(key, maxAttempts) => EnqueueStep(w, key, maxAttempts)
    case Tick(seconds) => w.(now := w.now + seconds)
    case Poll => PollStep(w)
    case Work(sub, accepted) => WorkStep(w, sub, accepted)
    case Replay(key, sub, ok) => ReplayStep(w, key, sub, ok)
    case Crash(restart) => CrashStep(w, restart)
  }

  function Run(w: World, moves: seq<Move>): World {
    if moves == [] then w else
      var n := |moves| - 1;
      Step(Run(w, moves[..n]), moves[n])
  }
}

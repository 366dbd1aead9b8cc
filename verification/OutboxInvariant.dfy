/** What every step of the outbox keeps: enqueues, polls, each statement of the worker, and crashes. */
module OutboxInvariant {
  import opened Collections
  import opened Outbox

  // ---------------------------------------------------------------- history

  function Posts(posts: seq<Post>, id: nat): nat {
    if posts == [] then 0 else
      var n := |posts| - 1;
      Posts(posts[..n], id) + if posts[n].id == id then 1 else 0
  }

  function Wins(posts: seq<Post>, id: nat): nat {
    if posts == [] then 0 else
      var n := |posts| - 1;
      Wins(posts[..n], id) + if posts[n] == Post(id, true) then 1 else 0
  }

  function Processings(done: seq<nat>, id: nat): nat {
    if done == [] then 0 else
      var n := |done| - 1;
      Processings(done[..n], id) + if done[n] == id then 1 else 0
  }

  lemma PostsSnoc(posts: seq<Post>, p: Post, id: nat)
    ensures Posts(posts + [p], id) == Posts(posts, id) + if p.id == id then 1 else 0
    ensures Wins(posts + [p], id) == Wins(posts, id) + if p == Post(id, true) then 1 else 0
  {
    assert (posts + [p])[..|posts|] == posts;
  }

  lemma ProcessingsSnoc(done: seq<nat>, d: nat, id: nat)
    ensures Processings(done + [d], id) == Processings(done, id) + if d == id then 1 else 0
  {
    assert (done + [d])[..|done|] == done;
  }

  lemma {:induction false} NoPosts(posts: seq<Post>, id: nat)
    requires forall p | p in posts :: p.id < id
    ensures Posts(posts, id) == 0 && Wins(posts, id) == 0
  {
    if posts != [] {
      var n := |posts| - 1;
      assert posts == posts[..n] + [posts[n]];
      NoPosts(posts[..n], id);
    }
  }

  lemma {:induction false} NoProcessings(done: seq<nat>, id: nat)
    requires forall d | d in done :: d < id
    ensures Processings(done, id) == 0
  {
    if done != [] {
      var n := |done| - 1;
      assert done[n] in done;
      forall d | d in done[..n] ensures d < id {
        var i :| 0 <= i < n && done[..n][i] == d;
        assert done[i] in done;
      }
      NoProcessings(done[..n], id);
    }
  }

  // ---------------------------------------------------------------- rows

  /** How often a row may be tried: its maximum, but at least once. */
  function Limit(row: Row): nat {
    if row.maxAttempts < 1 then 1 else row.maxAttempts
  }

  predicate Recorded(db: Db, key: Key) {
    Attempt(key, true, 1) in db.attempts
  }

  predicate Buried(db: Db, key: Key, count: nat) {
    key in db.dlq && db.dlq[key] >= count
  }

  /** The accounts of one row: attempts, POSTs, successes, finished processings and scheduled backoff. */
  ghost predicate Accounts(row: Row, posts: nat, wins: nat, runs: nat) {
    match row.status
    case PENDING =>
      row.attempts < Limit(row) && posts <= row.attempts && wins == 0 && runs == row.attempts
      && row.delays == DelaySum(row.attempts)
    case DELIVERING =>
      row.attempts < Limit(row) && posts <= row.attempts + 1 && wins <= 1 && runs == row.attempts
      && row.delays == DelaySum(row.attempts)
    case DELIVERED =>
      1 <= row.attempts <= Limit(row) && posts <= row.attempts && wins == 1 && runs == row.attempts
      && row.delays == DelaySum(runs - 1)
    case FAILED =>
      row.attempts <= Limit(row) && posts <= row.attempts && wins == 0 && row.attempts <= runs && 1 <= runs <= Limit(row)
      && row.delays == DelaySum(runs - 1)
  }

  ghost predicate RowOk(db: Db, posts: seq<Post>, done: seq<nat>, id: nat)
    requires id in db.rows
  {
    var row := db.rows[id];
    && id < db.nextId
    && Accounts(row, Posts(posts, id), Wins(posts, id), Processings(done, id))
    && (row.status == DELIVERED ==> Recorded(db, row.key))
    && (row.status == FAILED && row.attempts == Limit(row) ==> Buried(db, row.key, row.attempts))
  }

  ghost predicate RowsOk(w: World) {
    && (forall id | id in w.db.rows :: RowOk(w.db, w.posts, w.done, id))
    && (forall p | p in w.posts :: p.id < w.db.nextId)
    && (forall d | d in w.done :: d < w.db.nextId)
  }

  // ---------------------------------------------------------------- the worker

  predicate Waiting(db: Db, item: Item) {
    item.id in db.rows && db.rows[item.id].status == PENDING && item == ItemOf(item.id, db.rows[item.id])
  }

  predicate Held(db: Db, item: Item) {
    item.id in db.rows && db.rows[item.id].status == DELIVERING && item == ItemOf(item.id, db.rows[item.id])
  }

  ghost predicate Untried(w: World, item: Item) {
    Held(w.db, item) && Posts(w.posts, item.id) <= item.attempts && Wins(w.posts, item.id) == 0
  }

  ghost predicate Tried(w: World, item: Item, ok: bool) {
    Held(w.db, item) && Posts(w.posts, item.id) <= item.attempts + 1 && Wins(w.posts, item.id) == if ok then 1 else 0
  }

  /** The update that ends the processing of a row, with what is known when it is written. */
  ghost predicate Verdict(w: World, item: Item) {
    var next := item.attempts + 1;
    || (w.pending == [Update(item.id, Drop)] && Untried(w, item))
    || (w.pending == [Update(item.id, Deliver)] && Tried(w, item, true) && Recorded(w.db, item.key))
    || (w.pending == [Update(item.id, Exhaust(next)), Upsert(item.key, next)] && Tried(w, item, false) && next >= item.maxAttempts)
    || (|w.pending| == 1 && w.pending[0].Update? && w.pending[0].id == item.id && w.pending[0].change.Retry?
        && w.pending[0].change == Retry(next, w.pending[0].change.due, Backoff(next))
        && Tried(w, item, false) && next < item.maxAttempts)
  }

  ghost predicate StageOk(w: World, item: Item, stage: Stage) {
    match stage
    case Claiming => w.pending == [] && Waiting(w.db, item)
    case Claimed => w.pending == [Update(item.id, Claim)] && Waiting(w.db, item)
    case Reading => w.pending == [] && Untried(w, item)
    case Posting => w.pending == [] && Untried(w, item)
    case Logging(ok) => w.pending == [] && Tried(w, item, ok)
    case Logged(ok) => w.pending == [Log(Attempt(item.key, ok, 1))] && Tried(w, item, ok)
    case Settling(ok) => w.pending == [] && Tried(w, item, ok) && (ok ==> Recorded(w.db, item.key))
    case Settled => Verdict(w, item)
  }

  ghost predicate QueueOk(db: Db, items: seq<Item>) {
    && (forall i | 0 < i < |items| :: Waiting(db, items[i]))
    && (forall i, j | 0 <= i < j < |items| :: items[i].id != items[j].id)
  }

  ghost predicate WorkerOk(w: World) {
    match w.worker
    case Idle => w.pending == []
    case Busy(items, stage) => items != [] && QueueOk(w.db, items) && StageOk(w, items[0], stage)
  }

  // ---------------------------------------------------------------- stuck rows and the gauge

  function Stuck(rows: map<nat, Row>): set<nat> {
    set id | id in rows && rows[id].status == DELIVERING
  }

  function InHand(worker: Worker): nat {
    if worker.Busy? && worker.stage != Claiming && worker.stage != Claimed then 1 else 0
  }

  /** Only a crash leaves a row in DELIVERING; one more may be in the worker's hands. */
  ghost predicate StuckOk(w: World) {
    |Stuck(w.db.rows)| <= w.crashes + InHand(w.worker)
  }

  /** The gauge misses the letters of the last restart and still counts those lost since; it includes those being written. */
  ghost predicate GaugeOk(w: World) {
    && w.gauge + w.atRestart == |ApplyAll(w.db, w.pending).dlq| + w.lost
    && (w.crashes == 0 ==> w.lost == 0 && w.atRestart == 0)
  }

  ghost predicate Inv(w: World) {
    RowsOk(w) && WorkerOk(w) && StuckOk(w) && GaugeOk(w)
  }

  // ---------------------------------------------------------------- frames

  /** Attempts and dead letters only grow. */
  predicate Grows(db: Db, db': Db) {
    db.attempts <= db'.attempts && db.nextId <= db'.nextId
    && forall k | k in db.dlq :: k in db'.dlq && db.dlq[k] <= db'.dlq[k]
  }

  lemma RowFrames(db: Db, db': Db, posts: seq<Post>, posts': seq<Post>, done: seq<nat>, done': seq<nat>, id: nat)
    requires id in db.rows && id in db'.rows && db'.rows[id] == db.rows[id] && Grows(db, db')
    requires RowOk(db, posts, done, id)
    requires Posts(posts', id) == Posts(posts, id) && Wins(posts', id) == Wins(posts, id)
    requires Processings(done', id) == Processings(done, id)
    ensures RowOk(db', posts', done', id)
  {
    hide Posts, Wins, Processings, DelaySum;
    assert forall a | a in db.attempts :: a in db'.attempts;
  }

  /** Only row `id` changes. */
  ghost predicate Touches(w: World, w': World, id: nat) {
    && Grows(w.db, w'.db) && w'.db.nextId == w.db.nextId && id in w.db.rows && w'.db.rows.Keys == w.db.rows.Keys
    && (forall j | j in w.db.rows && j != id :: w'.db.rows[j] == w.db.rows[j])
    && (forall j | j != id :: Posts(w'.posts, j) == Posts(w.posts, j) && Wins(w'.posts, j) == Wins(w.posts, j)
                              && Processings(w'.done, j) == Processings(w.done, j))
    && (forall p | p in w'.posts :: p in w.posts || p.id == id)
    && (forall d | d in w'.done :: d in w.done || d == id)
  }

  lemma RowsTouched(w: World, w': World, id: nat)
    requires RowsOk(w) && Touches(w, w', id) && RowOk(w'.db, w'.posts, w'.done, id)
    ensures RowsOk(w')
  {
    hide Posts, Wins, Processings, RowOk;
    forall j | j in w'.db.rows ensures RowOk(w'.db, w'.posts, w'.done, j) {
      if j != id {
        RowFrames(w.db, w'.db, w.posts, w'.posts, w.done, w'.done, j);
      }
    }
    assert id < w.db.nextId by {
      IdBelow(w, id);
    }
  }

  lemma IdBelow(w: World, id: nat)
    requires RowsOk(w) && id in w.db.rows
    ensures id < w.db.nextId
  {
    hide Accounts, Posts, Wins, Processings;
    assert RowOk(w.db, w.posts, w.done, id);
  }

  lemma QueueFrames(db: Db, db': Db, items: seq<Item>)
    requires items != [] && QueueOk(db, items) && db'.rows.Keys == db.rows.Keys
    requires forall j | j in db.rows && j != items[0].id :: db'.rows[j] == db.rows[j]
    ensures QueueOk(db', items)
  {
    forall i | 0 < i < |items| ensures Waiting(db', items[i]) {
      assert Waiting(db, items[i]);
    }
  }

  // ---------------------------------------------------------------- enqueue, tick, poll, replay, crash

  lemma EnqueueRows(w: World, key: Key, maxAttempts: int)
    requires RowsOk(w)
    ensures RowsOk(EnqueueStep(w, key, maxAttempts)) && w.db.nextId !in w.db.rows
  {
    hide Posts, Wins, Processings, RowOk;
    var w' := EnqueueStep(w, key, maxAttempts);
    NextFree(w);
    NoPosts(w.posts, w.db.nextId);
    NoProcessings(w.done, w.db.nextId);
    forall id | id in w'.db.rows ensures RowOk(w'.db, w'.posts, w'.done, id) {
      if id == w.db.nextId {
        NewRowOk(w', id);
      } else {
        RowFrames(w.db, w'.db, w.posts, w.posts, w.done, w.done, id);
      }
    }
  }

  lemma NextFree(w: World)
    requires RowsOk(w)
    ensures w.db.nextId !in w.db.rows
  {
    hide RowOk, Posts, Wins, Processings;
    forall id | id in w.db.rows ensures id < w.db.nextId {
      IdBelow(w, id);
    }
  }

  lemma NewRowOk(w: World, id: nat)
    requires id in w.db.rows && id < w.db.nextId && w.db.rows[id].status == PENDING
    requires w.db.rows[id].attempts == 0 && w.db.rows[id].delays == 0
    requires Posts(w.posts, id) == 0 && Wins(w.posts, id) == 0 && Processings(w.done, id) == 0
    ensures RowOk(w.db, w.posts, w.done, id)
  {
    hide Posts, Wins, Processings;
  }

  lemma StageFrames(w: World, w': World, item: Item, stage: Stage)
    requires StageOk(w, item, stage) && w'.pending == w.pending && w'.posts == w.posts
    requires w.db.attempts <= w'.db.attempts
    requires item.id in w.db.rows ==> item.id in w'.db.rows && w'.db.rows[item.id] == w.db.rows[item.id]
    ensures StageOk(w', item, stage)
  {
    hide Posts, Wins, Processings;
    assert Recorded(w.db, item.key) ==> Recorded(w'.db, item.key);
    hide Recorded;
  }

  lemma SameStuck(rows: map<nat, Row>, rows': map<nat, Row>)
    requires forall id | id in rows' :: (id in rows && rows'[id].status == rows[id].status) || rows'[id].status != DELIVERING
    ensures |Stuck(rows')| <= |Stuck(rows)|
  {
    assert Stuck(rows') <= Stuck(rows);
    SubsetSize(Stuck(rows'), Stuck(rows));
  }

  lemma {:induction false} ApplyDlq(db: Db, db': Db, ws: seq<Write>)
    requires db'.dlq == db.dlq
    ensures ApplyAll(db', ws).dlq == ApplyAll(db, ws).dlq
    decreases |ws|
  {
    if ws != [] {
      ApplyDlq(Apply(db, ws[0]), Apply(db', ws[0]), ws[1..]);
    }
  }

  lemma EnqueueKeeps(w: World, key: Key, maxAttempts: int)
    requires Inv(w)
    ensures Inv(EnqueueStep(w, key, maxAttempts))
  {
    hide RowsOk, StageOk, ApplyAll, Stuck;
    var w' := EnqueueStep(w, key, maxAttempts);
    EnqueueRows(w, key, maxAttempts);
    SameStuck(w.db.rows, w'.db.rows);
    ApplyDlq(w.db, w'.db, w.pending);
    if w.worker.Busy? {
      StageFrames(w, w', w.worker.items[0], w.worker.stage);
      forall i | 0 < i < |w.worker.items| ensures Waiting(w'.db, w.worker.items[i]) {
        assert Waiting(w.db, w.worker.items[i]);
      }
    }
  }

  lemma {:induction false} DueAreWaiting(db: Db, now: int, n: nat)
    ensures forall item | item in DueItems(db.rows, now, n) :: Waiting(db, item) && item.id < n && db.rows[item.id].due <= now
    ensures forall i, j | 0 <= i < j < |DueItems(db.rows, now, n)| ::
      DueItems(db.rows, now, n)[i].id != DueItems(db.rows, now, n)[j].id
  {
    if n > 0 {
      DueAreWaiting(db, now, n - 1);
      var front := DueItems(db.rows, now, n - 1);
      assert forall i | 0 <= i < |front| :: front[i] in front;
    }
  }

  lemma FetchedWait(db: Db, now: int)
    ensures QueueOk(db, Fetch(db, now))
    ensures Fetch(db, now) != [] ==> Waiting(db, Fetch(db, now)[0])
  {
    hide Waiting, DueItems;
    var items := DueItems(db.rows, now, db.nextId);
    DueAreWaiting(db, now, db.nextId);
    assert forall i | 0 <= i < |items| :: items[i] in items;
  }

  lemma PollKeeps(w: World)
    requires Inv(w)
    ensures Inv(PollStep(w))
  {
    hide RowsOk, ApplyAll, Stuck, Fetch, QueueOk;
    FetchedWait(w.db, w.now);
    RowsSame(w, PollStep(w));
  }

  lemma RowsSame(w: World, w': World)
    requires RowsOk(w) && w'.db == w.db && w'.posts == w.posts && w'.done == w.done
    ensures RowsOk(w')
  {
    hide RowOk;
  }

  lemma TickKeeps(w: World, now: int)
    requires Inv(w)
    ensures Inv(w.(now := now))
  {
    hide RowsOk, ApplyAll, Stuck, QueueOk, StageOk;
    RowsSame(w, w.(now := now));
    if w.worker.Busy? {
      StageFrames(w, w.(now := now), w.worker.items[0], w.worker.stage);
    }
  }

  lemma RowsLogged(w: World, w': World)
    requires RowsOk(w) && w'.db.rows == w.db.rows && w'.posts == w.posts && w'.done == w.done && Grows(w.db, w'.db)
    ensures RowsOk(w')
  {
    hide RowOk, Posts, Wins, Processings;
    forall id | id in w'.db.rows ensures RowOk(w'.db, w'.posts, w'.done, id) {
      RowFrames(w.db, w'.db, w.posts, w'.posts, w.done, w'.done, id);
    }
  }

  lemma ReplayKeeps(w: World, key: Key, sub: Subscription, ok: bool)
    requires Inv(w)
    ensures Inv(ReplayStep(w, key, sub, ok))
  {
    hide RowsOk, ApplyAll, Stuck, QueueOk, StageOk;
    var w' := ReplayStep(w, key, sub, ok);
    RowsLogged(w, w');
    ApplyDlq(w.db, w'.db, w.pending);
    if w.worker.Busy? {
      QueueSame(w.db, w'.db, w.worker.items);
      StageFrames(w, w', w.worker.items[0], w.worker.stage);
    }
  }

  lemma QueueSame(db: Db, db': Db, items: seq<Item>)
    requires QueueOk(db, items) && db'.rows == db.rows
    ensures QueueOk(db', items)
  {
  }

  lemma {:induction false} LettersStay(db: Db, ws: seq<Write>)
    ensures db.dlq.Keys <= ApplyAll(db, ws).dlq.Keys
    decreases |ws|
  {
    if ws != [] {
      LettersStay(Apply(db, ws[0]), ws[1..]);
    }
  }

  lemma LettersAdded(w: World)
    ensures |ApplyAll(w.db, w.pending).dlq| == |w.db.dlq| + |NewLetters(w)|
  {
    hide ApplyAll;
    LettersStay(w.db, w.pending);
    var before, after := w.db.dlq.Keys, ApplyAll(w.db, w.pending).dlq.Keys;
    assert after == before + NewLetters(w);
    assert |before| == |w.db.dlq| && |after| == |ApplyAll(w.db, w.pending).dlq|;
  }

  lemma NothingToApply(db: Db)
    ensures ApplyAll(db, []) == db
  {
  }

  lemma CrashKeeps(w: World, restart: bool)
    requires Inv(w)
    ensures Inv(CrashStep(w, restart))
  {
    hide RowsOk, ApplyAll, Stuck, QueueOk, StageOk, NewLetters;
    RowsSame(w, CrashStep(w, restart));
    LettersAdded(w);
    NothingToApply(w.db);
  }
}

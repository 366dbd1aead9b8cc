/** The worker's own statements keep the invariant of the outbox; then every run does. */
module OutboxWork {
  import opened Outbox
  import opened OutboxInvariant

  // ---------------------------------------------------------------- statements that write nothing durable

  /** A new stage of the same item; the tables, and all history but perhaps its own POSTs, are as before. */
  lemma StageOnly(w: World, w': World, items: seq<Item>, stage: Stage)
    requires Inv(w) && w.worker.Busy? && w.worker.items == items && w'.worker == Busy(items, stage)
    requires w'.db == w.db && w'.posts == w.posts && w'.done == w.done && w'.crashes == w.crashes
    requires InHand(w'.worker) == InHand(w.worker)
    requires StageOk(w', items[0], stage) && GaugeOk(w')
    ensures Inv(w')
  {
    hide RowsOk, ApplyAll, Stuck, QueueOk, StageOk, GaugeOk;
    RowsSame(w, w');
  }

  lemma ApplyOne(db: Db, x: Write)
    ensures ApplyAll(db, [x]) == Apply(db, x) && ApplyAll(db, []) == db
  {
    hide Apply;
    assert [x][1..] == [];
    assert ApplyAll(Apply(db, x), []) == Apply(db, x);
  }

  lemma ApplyTwo(db: Db, x: Write, y: Write)
    ensures ApplyAll(db, [x, y]) == Apply(Apply(db, x), y)
  {
    hide Apply;
    assert [x, y][1..] == [y];
    ApplyOne(Apply(db, x), y);
  }

  lemma UpdateKeepsDlq(db: Db, id: nat, change: Change)
    ensures Apply(db, Update(id, change)).dlq == db.dlq && Apply(db, Update(id, change)).attempts == db.attempts
  {
    hide Changed;
  }

  lemma ClaimingKeeps(w: World, sub: Subscription, ok: bool)
    requires Inv(w) && w.worker.Busy? && w.worker.stage == Claiming
    ensures Inv(WorkStep(w, sub, ok))
  {
    hide RowsOk, Stuck, QueueOk, Apply, ApplyAll;
    var items := w.worker.items;
    var item := items[0];
    ApplyOne(w.db, Update(item.id, Claim));
    UpdateKeepsDlq(w.db, item.id, Claim);
    StageOnly(w, WorkStep(w, sub, ok), items, Claimed);
  }

  lemma ReadingKeeps(w: World, sub: Subscription, ok: bool)
    requires Inv(w) && w.worker.Busy? && w.worker.stage == Reading
    ensures Inv(WorkStep(w, sub, ok))
  {
    hide RowsOk, Stuck, QueueOk, Apply, ApplyAll, Posts, Wins, Recorded;
    var items := w.worker.items;
    var item := items[0];
    var w' := WorkStep(w, sub, ok);
    ApplyOne(w.db, Update(item.id, Drop));
    UpdateKeepsDlq(w.db, item.id, Drop);
    StageOnly(w, w', items, w'.worker.stage);
  }

  lemma LoggingKeeps(w: World, sub: Subscription, ok: bool)
    requires Inv(w) && w.worker.Busy? && w.worker.stage.Logging?
    ensures Inv(WorkStep(w, sub, ok))
  {
    hide RowsOk, Stuck, QueueOk, ApplyAll, Posts, Wins, Recorded;
    var items := w.worker.items;
    var posted := w.worker.stage.ok;
    ApplyOne(w.db, Log(Attempt(items[0].key, posted, 1)));
    StageOnly(w, WorkStep(w, sub, ok), items, Logged(posted));
  }

  // ---------------------------------------------------------------- settling

  lemma SettleDlq(db: Db, id: nat, next: nat, key: Key)
    ensures |ApplyAll(db, [Update(id, Exhaust(next)), Upsert(key, next)]).dlq| == |db.dlq| + if key in db.dlq then 0 else 1
  {
    ApplyTwo(db, Update(id, Exhaust(next)), Upsert(key, next));
    UpdateKeepsDlq(db, id, Exhaust(next));
    var mid := Apply(db, Update(id, Exhaust(next)));
  }

  lemma SettlingKeeps(w: World, sub: Subscription, ok: bool)
    requires Inv(w) && w.worker.Busy? && w.worker.stage.Settling?
    ensures Inv(WorkStep(w, sub, ok))
  {
    hide RowsOk, Stuck, QueueOk, Apply, ApplyAll, Posts, Wins, Recorded, Backoff;
    var items, posted := w.worker.items, w.worker.stage.ok;
    var item, next := items[0], items[0].attempts + 1;
    var w' := WorkStep(w, sub, ok);
    ApplyOne(w.db, Update(item.id, Deliver));
    UpdateKeepsDlq(w.db, item.id, Deliver);
    SettleDlq(w.db, item.id, next, item.key);
    var retry := Retry(next, w.now + Backoff(next), Backoff(next));
    ApplyOne(w.db, Update(item.id, retry));
    UpdateKeepsDlq(w.db, item.id, retry);
    StageOnly(w, w', items, Settled);
  }

  // ---------------------------------------------------------------- posting

  lemma PostingKeeps(w: World, sub: Subscription, ok: bool)
    requires Inv(w) && w.worker.Busy? && w.worker.stage == Posting
    ensures Inv(WorkStep(w, sub, ok))
  {
    hide RowsOk, Stuck, QueueOk, ApplyAll, Posts, Wins, RowOk, Recorded;
    var item := w.worker.items[0];
    var id := item.id;
    var w' := WorkStep(w, sub, ok);
    forall j ensures Posts(w'.posts, j) == Posts(w.posts, j) + (if j == id then 1 else 0)
      && Wins(w'.posts, j) == Wins(w.posts, j) + if j == id && ok then 1 else 0
    {
      PostsSnoc(w.posts, Post(id, ok), j);
    }
    HeldRow(w, id);
    PostedRow(w, w', id);
    RowsTouched(w, w', id);
  }

  lemma HeldRow(w: World, id: nat)
    requires RowsOk(w) && id in w.db.rows
    ensures RowOk(w.db, w.posts, w.done, id)
  {
    hide RowOk;
  }

  lemma PostedRow(w: World, w': World, id: nat)
    requires id in w.db.rows && w.db.rows[id].status == DELIVERING && RowOk(w.db, w.posts, w.done, id)
    requires w'.db == w.db && w'.done == w.done
    requires Posts(w'.posts, id) <= w.db.rows[id].attempts + 1 && Wins(w'.posts, id) <= 1
    ensures RowOk(w'.db, w'.posts, w'.done, id)
  {
    hide Posts, Wins, Processings;
  }

  // ---------------------------------------------------------------- commits

  lemma ClaimCommitted(w: World, id: nat)
    requires RowsOk(w) && id in w.db.rows && w.db.rows[id].status == PENDING
    ensures var db := Apply(w.db, Update(id, Claim));
            RowsOk(w.(db := db)) && Grows(w.db, db) && db.rows.Keys == w.db.rows.Keys
  {
    hide Posts, Wins, Processings, RowOk;
    var w' := w.(db := Apply(w.db, Update(id, Claim)));
    HeldRow(w, id);
    ClaimedRow(w, id);
    RowsTouched(w, w', id);
  }

  lemma ClaimedRow(w: World, id: nat)
    requires id in w.db.rows && w.db.rows[id].status == PENDING && RowOk(w.db, w.posts, w.done, id)
    ensures RowOk(Apply(w.db, Update(id, Claim)), w.posts, w.done, id)
  {
    hide Posts, Wins, Processings, DelaySum;
  }

  lemma PendingPosts(db: Db, posts: seq<Post>, done: seq<nat>, id: nat)
    requires id in db.rows && db.rows[id].status == PENDING && RowOk(db, posts, done, id)
    ensures Posts(posts, id) <= db.rows[id].attempts && Wins(posts, id) == 0
  {
    hide Posts, Wins, Processings, DelaySum;
  }

  lemma StuckOneMore(rows: map<nat, Row>, id: nat, row: Row)
    requires id in rows && rows[id].status != DELIVERING && row.status == DELIVERING
    ensures |Stuck(rows[id := row])| == |Stuck(rows)| + 1
  {
    assert Stuck(rows[id := row]) == Stuck(rows) + {id};
  }

  lemma StuckOneLess(rows: map<nat, Row>, id: nat, row: Row)
    requires id in rows && rows[id].status == DELIVERING && row.status != DELIVERING
    ensures |Stuck(rows[id := row])| == |Stuck(rows)| - 1
  {
    assert Stuck(rows) == Stuck(rows[id := row]) + {id};
  }

  lemma ClaimedKeeps(w: World, sub: Subscription, ok: bool)
    requires Inv(w) && w.worker.Busy? && w.worker.stage == Claimed
    ensures Inv(WorkStep(w, sub, ok))
  {
    hide RowsOk, Stuck, QueueOk, ApplyAll, Posts, Wins, RowOk, Recorded;
    var items := w.worker.items;
    var id := items[0].id;
    var w' := WorkStep(w, sub, ok);
    var db := Apply(w.db, Update(id, Claim));
    ApplyOne(w.db, Update(id, Claim));
    ApplyOne(db, Update(id, Claim));
    ClaimCommitted(w, id);
    RowsSame(w.(db := db), w');
    HeldRow(w, id);
    PendingPosts(w.db, w.posts, w.done, id);
    StuckOneMore(w.db.rows, id, Changed(w.db.rows[id], Claim));
    QueueFrames(w.db, db, items);
  }

  lemma LoggedKeeps(w: World, sub: Subscription, ok: bool)
    requires Inv(w) && w.worker.Busy? && w.worker.stage.Logged?
    ensures Inv(WorkStep(w, sub, ok))
  {
    hide RowsOk, Stuck, QueueOk, ApplyAll, Posts, Wins, RowOk;
    var items := w.worker.items;
    var posted := w.worker.stage.ok;
    var log := Log(Attempt(items[0].key, posted, 1));
    var w' := WorkStep(w, sub, ok);
    ApplyOne(w.db, log);
    ApplyOne(w'.db, log);
    RowsLogged(w, w');
    QueueSame(w.db, w'.db, items);
  }

  // ---------------------------------------------------------------- the commit that ends a row's processing

  /** The row after its processing: delivered, failed, or pending again; never still delivering. */
  lemma FinishedRow(w: World, item: Item, db: Db, done: seq<nat>)
    requires item.id in w.db.rows && RowOk(w.db, w.posts, w.done, item.id) && Verdict(w, item) && db == ApplyAll(w.db, w.pending)
    requires Processings(done, item.id) == Processings(w.done, item.id) + 1
    ensures item.id in db.rows && db.rows[item.id].status != DELIVERING
    ensures RowOk(db, w.posts, done, item.id)
  {
    hide Posts, Wins, Processings, ApplyAll, Backoff;
    var id, next := item.id, item.attempts + 1;
    if w.pending == [Update(id, Drop)] {
      ApplyOne(w.db, Update(id, Drop));
    } else if w.pending == [Update(id, Deliver)] {
      ApplyOne(w.db, Update(id, Deliver));
    } else if |w.pending| == 1 {
      var x := w.pending[0];
      assert w.pending == [x];
      ApplyOne(w.db, x);
    } else {
      ApplyTwo(w.db, Update(id, Exhaust(next)), Upsert(item.key, next));
    }
  }

  /** Nothing but that row changes, and no dead letter or attempt is lost. */
  lemma FinishFrame(w: World, item: Item)
    requires Verdict(w, item)
    ensures var db := ApplyAll(w.db, w.pending);
            && Grows(w.db, db) && db.rows.Keys == w.db.rows.Keys && db.nextId == w.db.nextId && item.id in w.db.rows
            && db.rows == w.db.rows[item.id := db.rows[item.id]]
  {
    hide Posts, Wins, Processings, ApplyAll, Backoff, Changed;
    var id, next := item.id, item.attempts + 1;
    if |w.pending| == 1 {
      var x := w.pending[0];
      assert w.pending == [x];
      ApplyOne(w.db, x);
    } else {
      ApplyTwo(w.db, Update(id, Exhaust(next)), Upsert(item.key, next));
    }
  }

  lemma SettledRows(w: World, item: Item)
    requires RowsOk(w) && Verdict(w, item)
    ensures RowsOk(w.(db := ApplyAll(w.db, w.pending), done := w.done + [item.id]))
    ensures item.id in ApplyAll(w.db, w.pending).rows
    ensures Held(w.db, item) && ApplyAll(w.db, w.pending).rows[item.id].status != DELIVERING
  {
    hide Posts, Wins, Processings, ApplyAll, RowOk, Verdict;
    var db, done := ApplyAll(w.db, w.pending), w.done + [item.id];
    var w' := w.(db := db, done := done);
    forall j ensures Processings(done, j) == Processings(w.done, j) + if j == item.id then 1 else 0 {
      ProcessingsSnoc(w.done, item.id, j);
    }
    FinishFrame(w, item);
    HeldRow(w, item.id);
    FinishedRow(w, item, db, done);
    RowsTouched(w, w', item.id);
    VerdictHeld(w, item);
  }

  lemma VerdictHeld(w: World, item: Item)
    requires Verdict(w, item)
    ensures Held(w.db, item)
  {
    hide Posts, Wins;
  }

  lemma NextStage(db: Db, db': Db, items: seq<Item>)
    requires |items| > 1 && QueueOk(db, items) && db'.rows.Keys == db.rows.Keys
    requires forall j | j in db.rows && j != items[0].id :: db'.rows[j] == db.rows[j]
    ensures QueueOk(db', items[1..]) && Waiting(db', items[1])
  {
    forall i | 0 < i < |items| ensures Waiting(db', items[i]) {
      assert Waiting(db, items[i]);
    }
  }

  lemma SettledKeeps(w: World, sub: Subscription, ok: bool)
    requires Inv(w) && w.worker.Busy? && w.worker.stage == Settled
    ensures Inv(WorkStep(w, sub, ok))
  {
    hide RowsOk, Stuck, QueueOk, ApplyAll, Posts, Wins, RowOk, Verdict;
    var items := w.worker.items;
    var item := items[0];
    var w' := WorkStep(w, sub, ok);
    SettledRows(w, item);
    FinishFrame(w, item);
    RowsSame(w.(db := w'.db, done := w'.done), w');
    StuckOneLess(w.db.rows, item.id, w'.db.rows[item.id]);
    ApplyOne(w'.db, Update(item.id, Drop));
    if |items| > 1 {
      NextStage(w.db, w'.db, items);
    }
  }

  // ---------------------------------------------------------------- every step

  lemma WorkKeeps(w: World, sub: Subscription, ok: bool)
    requires Inv(w)
    ensures Inv(WorkStep(w, sub, ok))
  {
    hide Inv, CommitWork, ReadSubscription, Settle;
    match w.worker
    case Idle =>
    case Busy(items, stage) =>
      match stage
      case Claiming => ClaimingKeeps(w, sub, ok);
      case Claimed => ClaimedKeeps(w, sub, ok);
      case Reading => ReadingKeeps(w, sub, ok);
      case Posting => PostingKeeps(w, sub, ok);
      case Logging(_) => LoggingKeeps(w, sub, ok);
      case Logged(_) => LoggedKeeps(w, sub, ok);
      case Settling(_) => SettlingKeeps(w, sub, ok);
      case Settled => SettledKeeps(w, sub, ok);
  }

  lemma StepKeeps(w: World, m: Move)
    requires Inv(w)
    ensures Inv(Step(w, m))
  {
    hide Inv, EnqueueStep, PollStep, WorkStep, ReplayStep, CrashStep;
    match m
    case Enqueue(key, maxAttempts) => EnqueueKeeps(w, key, maxAttempts);
    case Tick(seconds) => TickKeeps(w, w.now + seconds);
    case Poll => PollKeeps(w);
    case Work(sub, accepted) => WorkKeeps(w, sub, accepted);
    case Replay(key, sub, ok) => ReplayKeeps(w, key, sub, ok);
    case Crash(restart) => CrashKeeps(w, restart);
  }

  lemma EmptyInv()
    ensures Inv(EMPTY)
  {
  }

  lemma {:induction false} RunInv(moves: seq<Move>)
    ensures Inv(Run(EMPTY, moves))
  {
    hide Inv, Step;
    if moves == [] {
      EmptyInv();
    } else {
      var n := |moves| - 1;
      RunInv(moves[..n]);
      StepKeeps(Run(EMPTY, moves[..n]), moves[n]);
    }
  }
}

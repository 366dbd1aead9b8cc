/** What holds of every run of the outbox, however its moves interleave and wherever the worker crashes. */
module OutboxTheorems {
  import opened Outbox
  import opened OutboxInvariant
  import opened OutboxWork

  // ---------------------------------------------------------------- backoff

  lemma BackoffRange(k: nat)
    ensures 2 <= Backoff(k) <= 60
  {
    if k > 1 {
      assert Pow2(k) == 2 * Pow2(k - 1);
    }
  }

  lemma {:induction false} PowGrows(k: nat, n: nat)
    requires k <= n
    ensures Pow2(k) <= Pow2(n)
  {
    if k < n {
      PowGrows(k, n - 1);
    }
  }

  /** Delays never shrink from one failure to the next. */
  lemma BackoffGrows(k: nat, n: nat)
    requires k <= n
    ensures Backoff(k) <= Backoff(n)
  {
    PowGrows(if k < 1 then 1 else k, if n < 1 then 1 else n);
  }

  lemma PowFive(k: nat)
    requires k <= 5
    ensures Pow2(k) <= 32
  {
    PowGrows(k, 5);
    assert Pow2(2) == 4 && Pow2(3) == 8;
    assert Pow2(4) == 16;
  }

  lemma PowSix(k: nat)
    requires k >= 6
    ensures Pow2(k) >= 64
  {
    PowGrows(6, k);
    assert Pow2(2) == 4 && Pow2(3) == 8;
    assert Pow2(4) == 16 && Pow2(5) == 32;
  }

  /**
    * The backoff of all failures but the last is at most 2^max - 2 seconds, and exactly that up to six
    * attempts, where the cap of 60 has not been met.
    */
  lemma {:induction false} TotalBackoff(limit: nat)
    requires limit >= 1
    ensures DelaySum(limit - 1) <= Pow2(limit) - 2
    ensures limit <= 6 ==> DelaySum(limit - 1) == Pow2(limit) - 2
    ensures limit > 6 ==> DelaySum(limit - 1) < Pow2(limit) - 2
  {
    if limit > 1 {
      TotalBackoff(limit - 1);
      if limit <= 6 {
        PowFive(limit - 1);
      } else {
        PowSix(limit - 1);
      }
    }
  }

  lemma DefaultBackoff()
    ensures DelaySum(4) == 30
  {
    TotalBackoff(5);
    assert Pow2(2) == 4 && Pow2(3) == 8;
    assert Pow2(4) == 16 && Pow2(5) == 32;
  }

  lemma {:induction false} DelaySumGrows(a: nat, b: nat)
    requires a <= b
    ensures DelaySum(a) <= DelaySum(b)
  {
    if a < b {
      DelaySumGrows(a, b - 1);
    }
  }

  // ---------------------------------------------------------------- rows

  /** The bounds on one row: tries, POSTs, successes, processings, scheduled seconds. */
  ghost predicate Bounded(w: World, id: nat)
    requires id in w.db.rows
  {
    var row := w.db.rows[id];
    && (row.status == PENDING ==> row.attempts < Limit(row))
    && Posts(w.posts, id) <= Limit(row)
    && Wins(w.posts, id) <= 1
    && (row.status == DELIVERED ==> Wins(w.posts, id) == 1 && Recorded(w.db, row.key))
    && (row.status == FAILED ==> Wins(w.posts, id) == 0)
    && Processings(w.done, id) <= Limit(row)
    && (Processings(w.done, id) == Limit(row) ==> row.status == DELIVERED || row.status == FAILED)
    && row.delays <= Pow2(Limit(row)) - 2
  }

  lemma RowBounded(w: World, id: nat)
    requires id in w.db.rows && RowOk(w.db, w.posts, w.done, id)
    ensures Bounded(w, id)
  {
    hide Posts, Wins, Processings, DelaySum, Pow2, Recorded;
    var row := w.db.rows[id];
    var limit := Limit(row);
    TotalBackoff(limit);
    var runs := Processings(w.done, id);
    if row.status == PENDING || row.status == DELIVERING {
      DelaySumGrows(row.attempts, limit - 1);
    } else {
      DelaySumGrows(runs - 1, limit - 1);
    }
  }

  /** In every run: each row within its bounds, and no more rows stuck in DELIVERING than crashes, one in hand aside. */
  lemma OutboxSafety(moves: seq<Move>)
    ensures var w := Run(EMPTY, moves);
            && (forall id | id in w.db.rows :: Bounded(w, id))
            && |Stuck(w.db.rows)| <= w.crashes + 1
            && (w.worker == Idle ==> |Stuck(w.db.rows)| <= w.crashes)
  {
    hide Run, Bounded, RowOk, QueueOk, GaugeOk, Stuck, StageOk;
    var w := Run(EMPTY, moves);
    RunInv(moves);
    forall id | id in w.db.rows ensures Bounded(w, id) {
      RowBounded(w, id);
    }
  }

  function Crashes(moves: seq<Move>): nat {
    if moves == [] then 0 else
      var n := |moves| - 1;
      Crashes(moves[..n]) + if moves[n].Crash? then 1 else 0
  }

  lemma {:induction false} CrashesCounted(moves: seq<Move>)
    ensures Run(EMPTY, moves).crashes == Crashes(moves)
  {
    hide ApplyAll, Fetch;
    if moves != [] {
      CrashesCounted(moves[..|moves| - 1]);
    }
  }

  // ---------------------------------------------------------------- what a poll fetches

  predicate Due(db: Db, now: int, id: nat) {
    id in db.rows && db.rows[id].status == PENDING && db.rows[id].due <= now
  }

  ghost predicate Fetched(items: seq<Item>, id: nat) {
    exists i :: 0 <= i < |items| && items[i].id == id
  }

  lemma FetchedSnoc(items: seq<Item>, x: Item, id: nat)
    ensures Fetched(items + [x], id) <==> Fetched(items, id) || x.id == id
  {
    var all := items + [x];
    assert all[|items|] == x && forall i | 0 <= i < |items| :: all[i] == items[i];
  }

  lemma {:induction false} DueItemsAre(db: Db, now: int, n: nat, id: nat)
    ensures Fetched(DueItems(db.rows, now, n), id) <==> id < n && Due(db, now, id)
  {
    hide Fetched;
    if n == 0 {
      NothingFetched(id);
    } else {
      DueItemsAre(db, now, n - 1, id);
      if n - 1 in db.rows {
        FetchedSnoc(DueItems(db.rows, now, n - 1), ItemOf(n - 1, db.rows[n - 1]), id);
      }
      assert DueItems(db.rows, now, n - 1) + [] == DueItems(db.rows, now, n - 1);
    }
  }

  lemma NothingFetched(id: nat)
    ensures !Fetched([], id)
  {
  }

  lemma {:induction false} DueItemsAscend(db: Db, now: int, n: nat)
    ensures forall i, j | 0 <= i < j < |DueItems(db.rows, now, n)| :: DueItems(db.rows, now, n)[i].id < DueItems(db.rows, now, n)[j].id
    ensures forall i | 0 <= i < |DueItems(db.rows, now, n)| :: DueItems(db.rows, now, n)[i].id < n
  {
    if n > 0 {
      DueItemsAscend(db, now, n - 1);
    }
  }

  /** A poll takes the due pending rows, oldest first, and leaves one out only for a full batch of older ones. */
  lemma FetchTakesOldest(db: Db, now: int, id: nat)
    requires forall j | j in db.rows :: j < db.nextId
    ensures |Fetch(db, now)| <= BATCH_SIZE
    ensures Fetched(Fetch(db, now), id) ==> Due(db, now, id)
    ensures Due(db, now, id) && !Fetched(Fetch(db, now), id) ==>
              |Fetch(db, now)| == BATCH_SIZE && forall item | item in Fetch(db, now) :: item.id < id
  {
    hide DueItems;
    var all, items := DueItems(db.rows, now, db.nextId), Fetch(db, now);
    DueItemsAre(db, now, db.nextId, id);
    DueItemsAscend(db, now, db.nextId);
    assert forall i | 0 <= i < |items| :: items[i] == all[i];
    if Due(db, now, id) {
      var k :| 0 <= k < |all| && all[k].id == id;
      if k < |items| {
        assert items[k].id == id;
      } else {
        forall item | item in items ensures item.id < id {
          var i :| 0 <= i < |items| && items[i] == item;
          assert i < k;
        }
      }
    }
  }

  // ---------------------------------------------------------------- what is never undone

  predicate Terminal(row: Row) {
    row.status == DELIVERED || row.status == FAILED
  }

  /** Attempts and dead letters only grow, and a delivered or failed row never changes again. */
  ghost predicate Onward(w: World, w': World) {
    && Grows(w.db, w'.db)
    && forall id | id in w.db.rows && Terminal(w.db.rows[id]) :: id in w'.db.rows && w'.db.rows[id] == w.db.rows[id]
  }

  lemma OnwardTrans(a: World, b: World, c: World)
    requires Onward(a, b) && Onward(b, c)
    ensures Onward(a, c)
  {
    forall k | k in a.db.dlq ensures k in c.db.dlq && a.db.dlq[k] <= c.db.dlq[k] {
      assert k in b.db.dlq;
    }
  }

  lemma WorkOnward(w: World, sub: Subscription, ok: bool)
    requires Inv(w)
    ensures Onward(w, WorkStep(w, sub, ok))
  {
    hide RowsOk, Stuck, QueueOk, ApplyAll, Posts, Wins, Verdict, GaugeOk;
    if w.worker.Busy? && w.worker.items != [] {
      var item := w.worker.items[0];
      match w.worker.stage
      case Claimed =>
        ApplyOne(w.db, Update(item.id, Claim));
      case Logged(posted) =>
        ApplyOne(w.db, Log(Attempt(item.key, posted, 1)));
      case Settled =>
        FinishFrame(w, item);
        VerdictHeld(w, item);
      case _ =>
    }
  }

  lemma StepOnward(w: World, m: Move)
    requires Inv(w)
    ensures Onward(w, Step(w, m))
  {
    hide WorkStep, WorkerOk, Stuck, GaugeOk, RowOk;
    match m
    case Enqueue(_, _) => NextFree(w);
    case Work(sub, accepted) => WorkOnward(w, sub, accepted);
    case _ =>
  }

  /** Whatever happens after: DELIVERED and FAILED are never left, no dead letter disappears and no count falls. */
  lemma {:induction false} NothingUndone(moves: seq<Move>, more: seq<Move>)
    ensures Onward(Run(EMPTY, moves), Run(EMPTY, moves + more))
  {
    hide Run, Onward, Inv, Step;
    if more == [] {
      assert moves + more == moves;
      OnwardRefl(Run(EMPTY, moves));
    } else {
      var n := |more| - 1;
      NothingUndone(moves, more[..n]);
      RunInv(moves + more[..n]);
      StepOnward(Run(EMPTY, moves + more[..n]), more[n]);
      assert moves + more == moves + more[..n] + [more[n]];
      RunSnoc(EMPTY, moves + more[..n], more[n]);
      OnwardTrans(Run(EMPTY, moves), Run(EMPTY, moves + more[..n]), Run(EMPTY, moves + more));
    }
  }

  lemma OnwardRefl(w: World)
    ensures Onward(w, w)
  {
  }

  lemma RunSnoc(w: World, moves: seq<Move>, m: Move)
    ensures Run(w, moves + [m]) == Step(Run(w, moves), m)
  {
    hide Step;
    assert (moves + [m])[..|moves|] == moves;
  }

  // ---------------------------------------------------------------- dead letters

  lemma ExhaustedIsBuried(w: World, id: nat)
    requires RowsOk(w) && id in w.db.rows
    requires w.db.rows[id].status == FAILED && w.db.rows[id].attempts == Limit(w.db.rows[id])
    ensures Buried(w.db, w.db.rows[id].key, w.db.rows[id].attempts)
  {
    hide Accounts;
    assert RowOk(w.db, w.posts, w.done, id);
  }

  /**
    * A row that failed with all its attempts used has a dead letter with at least that count; and as long as
    * nothing crashed, an idle worker's gauge is the number of dead letters.
    */
  lemma DeadLettersAgree(moves: seq<Move>)
    ensures var w := Run(EMPTY, moves);
            && (forall id | id in w.db.rows && w.db.rows[id].status == FAILED && w.db.rows[id].attempts == Limit(w.db.rows[id]) ::
                  Buried(w.db, w.db.rows[id].key, w.db.rows[id].attempts))
            && (Crashes(moves) == 0 && w.worker == Idle ==> w.gauge == |w.db.dlq|)
  {
    hide Run, RowsOk, Buried, QueueOk, Stuck, StageOk, StuckOk;
    var w := Run(EMPTY, moves);
    RunInv(moves);
    CrashesCounted(moves);
    forall id | id in w.db.rows && w.db.rows[id].status == FAILED && w.db.rows[id].attempts == Limit(w.db.rows[id])
      ensures Buried(w.db, w.db.rows[id].key, w.db.rows[id].attempts)
    {
      ExhaustedIsBuried(w, id);
    }
  }

  /**
    * In every run, with crashes anywhere: an idle worker's gauge is the number of dead letters exactly when as
    * many new letters were lost since the last restart as there were letters at that restart.
    */
  lemma GaugeExact(moves: seq<Move>)
    ensures var w := Run(EMPTY, moves);
            w.worker == Idle ==>
              && w.gauge + w.atRestart == |w.db.dlq| + w.lost
              && (w.gauge == |w.db.dlq| <==> w.lost == w.atRestart)
  {
    hide Run, RowsOk, QueueOk, StageOk, StuckOk, ApplyAll;
    var w := Run(EMPTY, moves);
    RunInv(moves);
    NothingToApply(w.db);
  }

  /**
    * What a crash does to the gauge: after a restart it is right exactly when there were no letters, otherwise
    * exactly when the letters lost make up for those missed. So the first crash of a run leaves it right exactly
    * when it loses no new letter.
    */
  lemma CrashGaugeExact(moves: seq<Move>, restart: bool)
    ensures var w, down := Run(EMPTY, moves), Run(EMPTY, moves + [Crash(restart)]);
            && down.db == w.db
            && (down.gauge == |down.db.dlq| <==>
                if restart then w.db.dlq == map[] else w.lost + |NewLetters(w)| == w.atRestart)
            && (Crashes(moves) == 0 ==>
                (down.gauge == |down.db.dlq| <==> if restart then w.db.dlq == map[] else NewLetters(w) == {}))
  {
    hide Run, RowsOk, QueueOk, StageOk, StuckOk, ApplyAll, NewLetters;
    var w := Run(EMPTY, moves);
    RunInv(moves);
    RunSnoc(EMPTY, moves, Crash(restart));
    CrashesCounted(moves);
    LettersAdded(w);
  }

  /** The worker is about to commit the first letter of the current item. */
  predicate BuryingFirst(w: World) {
    w.worker.Busy? && w.worker.items != [] && w.worker.stage == Settled && |w.pending| == 2
    && w.worker.items[0].key !in w.db.dlq
  }

  lemma PendingLetters(db: Db, ws: seq<Write>, item: Item)
    requires var next := item.attempts + 1;
             || ws == [] || (|ws| == 1 && !ws[0].Upsert?)
             || ws == [Update(item.id, Exhaust(next)), Upsert(item.key, next)]
    ensures ApplyAll(db, ws).dlq.Keys == db.dlq.Keys + if |ws| == 2 then {item.key} else {}
  {
    hide ApplyAll, Changed;
    var next := item.attempts + 1;
    if ws == [] {
      NothingToApply(db);
    } else if |ws| == 1 {
      assert ws == [ws[0]];
      ApplyOne(db, ws[0]);
    } else {
      ApplyTwo(db, Update(item.id, Exhaust(next)), Upsert(item.key, next));
      UpdateKeepsDlq(db, item.id, Exhaust(next));
    }
  }

  lemma StagePending(w: World, item: Item, stage: Stage)
    requires StageOk(w, item, stage)
    ensures var next := item.attempts + 1;
            || w.pending == [] || (|w.pending| == 1 && !w.pending[0].Upsert?)
            || w.pending == [Update(item.id, Exhaust(next)), Upsert(item.key, next)]
    ensures |w.pending| == 2 ==> stage == Settled
  {
    hide Posts, Wins, Recorded, Backoff;
  }

  /** A crash loses a letter at one point only: between the upsert of a first letter and its commit. */
  lemma LettersAtStake(moves: seq<Move>)
    ensures var w := Run(EMPTY, moves);
            NewLetters(w) == if BuryingFirst(w) then {w.worker.items[0].key} else {}
  {
    hide Run, RowsOk, QueueOk, StageOk, StuckOk, GaugeOk, ApplyAll;
    var w := Run(EMPTY, moves);
    RunInv(moves);
    match w.worker
    case Idle => NothingToApply(w.db);
    case Busy(items, stage) =>
      StagePending(w, items[0], stage);
      PendingLetters(w.db, w.pending, items[0]);
  }

  /** One such run: a dead letter counted in the transaction that was lost. */
  lemma CrashLeavesGaugeHigh()
    ensures var k := Key("event", "consumer");
            var tries := [Enqueue(k, 1), Poll, Work(Active, false), Work(Active, false), Work(Active, false),
                          Work(Active, false), Work(Active, false), Work(Active, false), Work(Active, false)];
            var w := Run(EMPTY, tries + [Crash(false)]);
            w.gauge == 1 && w.db.dlq == map[]
  {
    var k := Key("event", "consumer");
    var row := Row(k, PENDING, 0, 1, 0, 0);
    var db := Db(map[0 := row], 1, [], map[]);
    var w0 := EMPTY.(db := db);
    var item := Item(0, k, 0, 1);
    assert Step(EMPTY, Enqueue(k, 1)) == w0;
    assert DueItems(db.rows, 0, 1) == [item] by {
      assert DueItems(db.rows, 0, 0) == [];
    }
    var w1 := w0.(worker := Busy([item], Claiming));
    assert Step(w0, Poll) == w1;
    var work := Work(Active, false);
    var w2 := w1.(pending := [Update(0, Claim)], worker := Busy([item], Claimed));
    assert Step(w1, work) == w2;
    ApplyOne(db, Update(0, Claim));
    var db3 := Db(map[0 := row.(status := DELIVERING)], 1, [], map[]);
    var w3 := w1.(db := db3, worker := Busy([item], Reading));
    assert Apply(db, Update(0, Claim)) == db3;
    assert Step(w2, work) == w3;
    var w4 := w3.(worker := Busy([item], Posting));
    assert Step(w3, work) == w4;
    var w5 := w4.(posts := [Post(0, false)], worker := Busy([item], Logging(false)));
    assert Step(w4, work) == w5;
    var log := Log(Attempt(k, false, 1));
    var w6 := w5.(pending := [log], worker := Busy([item], Logged(false)));
    assert Step(w5, work) == w6;
    ApplyOne(db3, log);
    var w7 := w5.(db := db3.(attempts := [Attempt(k, false, 1)]), worker := Busy([item], Settling(false)));
    assert Step(w6, work) == w7;
    var w8 := Step(w7, work);
    assert w8.gauge == 1 && w8.db == w7.db;
    hide Step;
    var tries := [Enqueue(k, 1), Poll, work, work, work, work, work, work, work];
    RunThrough(tries, [EMPTY, w0, w1, w2, w3, w4, w5, w6, w7, w8]);
    RunSnoc(EMPTY, tries, Crash(false));
  }

  /** A run is fixed by its worlds, one after each move. */
  lemma {:induction false} RunThrough(moves: seq<Move>, worlds: seq<World>)
    requires |worlds| == |moves| + 1 && worlds[0] == EMPTY
    requires forall i | 0 <= i < |moves| :: Step(worlds[i], moves[i]) == worlds[i + 1]
    ensures Run(EMPTY, moves) == worlds[|moves|]
  {
    hide Step;
    if moves != [] {
      var n := |moves| - 1;
      RunThrough(moves[..n], worlds[..n + 1]);
    }
  }
}

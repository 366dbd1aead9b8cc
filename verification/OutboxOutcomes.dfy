/** What one row of the outbox comes to: its first poll, and every outcome of its processing. */
module OutboxOutcomes {
  import opened Outbox
  import opened OutboxInvariant
  import opened OutboxWork
  import opened OutboxTheorems
  import opened OutboxDelivery

  // ---------------------------------------------------------------- from enqueue to the first poll

  /** A row enqueued at any time is new, pending and due at once: no attempt made, and none delayed. */
  lemma EnqueuedIsDue(moves: seq<Move>, key: Key, maxAttempts: int, seconds: nat)
    ensures var w := Run(EMPTY, moves);
            var later := Step(Step(w, Enqueue(key, maxAttempts)), Tick(seconds));
            && w.db.nextId !in w.db.rows
            && later.db.rows == w.db.rows[w.db.nextId := Row(key, PENDING, 0, maxAttempts, w.now, 0)]
            && Due(later.db, w.now, w.db.nextId) && Due(later.db, later.now, w.db.nextId)
  {
    hide Run, RowsOk, WorkerOk, StuckOk, GaugeOk;
    RunInv(moves);
    NextFree(Run(EMPTY, moves));
  }

  /** So the next poll of an idle worker fetches it, or a full batch of fifty older rows. */
  lemma EnqueuedIsFetched(moves: seq<Move>, key: Key, maxAttempts: int, seconds: nat)
    requires Run(EMPTY, moves).worker == Idle
    ensures var w := Run(EMPTY, moves);
            var polled := Step(Step(Step(w, Enqueue(key, maxAttempts)), Tick(seconds)), Poll);
            && polled.worker.Busy? && polled.worker.stage == Claiming
            && (Fetched(polled.worker.items, w.db.nextId)
                || (|polled.worker.items| == 50 && forall item | item in polled.worker.items :: item.id < w.db.nextId))
  {
    hide Run, Fetch, Due, Fetched, Inv;
    var w := Run(EMPTY, moves);
    var later := Step(Step(w, Enqueue(key, maxAttempts)), Tick(seconds));
    RunInv(moves);
    IdsBelow(w);
    EnqueuedIsDue(moves, key, maxAttempts, seconds);
    FetchTakesOldest(later.db, later.now, w.db.nextId);
    NothingIsFetched(w.db.nextId);
    assert BATCH_SIZE == 50;
  }

  lemma NothingIsFetched(id: nat)
    ensures !Fetched([], id)
  {
  }

  lemma IdsBelow(w: World)
    requires Inv(w)
    ensures forall j | j in w.db.rows :: j < w.db.nextId
  {
    hide RowOk, WorkerOk, StuckOk, GaugeOk;
    forall j | j in w.db.rows ensures j < w.db.nextId {
      IdBelow(w, j);
    }
  }

  // ---------------------------------------------------------------- one processing

  /** Two seconds, doubled with every failure, at most sixty. */
  predicate WaitsAfter(failures: nat, seconds: int) {
    && (failures <= 1 ==> seconds == 2) && (failures == 2 ==> seconds == 4) && (failures == 3 ==> seconds == 8)
    && (failures == 4 ==> seconds == 16) && (failures == 5 ==> seconds == 32) && (failures >= 6 ==> seconds == 60)
  }

  lemma BackoffWaits(failures: nat)
    ensures WaitsAfter(failures, Backoff(failures))
  {
    assert Pow2(1) == 2 && Pow2(2) == 4 && Pow2(3) == 8 && Pow2(4) == 16 && Pow2(5) == 32 && Pow2(6) == 64 by {
      PowersOfTwo();
    }
    if failures > 6 {
      PowGrows(6, failures);
    }
  }

  lemma PowersOfTwo()
    ensures Pow2(1) == 2 && Pow2(2) == 4 && Pow2(3) == 8 && Pow2(4) == 16 && Pow2(5) == 32 && Pow2(6) == 64
  {
    assert Pow2(0) == 1;
    assert Pow2(1) == 2 * Pow2(0);
    assert Pow2(2) == 2 * Pow2(1);
    assert Pow2(3) == 2 * Pow2(2);
    assert Pow2(4) == 2 * Pow2(3);
    assert Pow2(5) == 2 * Pow2(4);
    assert Pow2(6) == 2 * Pow2(5);
  }

  lemma {:induction false} PowGrows(m: nat, n: nat)
    requires m <= n
    ensures Pow2(m) <= Pow2(n)
  {
    if m < n {
      PowGrows(m, n - 1);
    }
  }

  /** The row after its processing, by subscription and response. */
  ghost predicate RowComesTo(row: Row, after: Row, item: Item, sub: Subscription, ok: bool, now: int) {
    var failures := item.attempts + 1;
    && after.key == row.key && after.maxAttempts == row.maxAttempts
    && (sub == Missing ==> after.status == FAILED && after.attempts == row.attempts && after.due == row.due)
    && (sub == Active && ok ==> after.status == DELIVERED && after.attempts == row.attempts + 1 && after.due == row.due)
    && (sub == Inactive || (sub == Active && !ok) ==>
          && after.attempts == failures
          && if failures >= item.maxAttempts then after.status == FAILED && after.due == row.due
             else after.status == PENDING && WaitsAfter(failures, after.due - now))
  }

  /** The dead letters after it: one with at least this count if this was the last failure, otherwise as before. */
  ghost predicate LettersComeTo(before: map<Key, nat>, after: map<Key, nat>, item: Item, sub: Subscription, ok: bool) {
    var failures := item.attempts + 1;
    if sub == Missing || (sub == Active && ok) || failures < item.maxAttempts then after == before
    else after == before[item.key := if item.key in before && before[item.key] >= failures then before[item.key] else failures]
  }

  lemma WritesRow(db: Db, item: Item, sub: Subscription, ok: bool, now: int)
    requires item.id in db.rows
    ensures var d := ApplyAll(db, LastWrites(item, sub, ok, now));
            && item.id in d.rows && RowComesTo(db.rows[item.id], d.rows[item.id], item, sub, ok, now)
            && d.rows == db.rows[item.id := d.rows[item.id]]
            && d.attempts == db.attempts && LettersComeTo(db.dlq, d.dlq, item, sub, ok)
  {
    hide ApplyAll, Backoff, WaitsAfter;
    var next := item.attempts + 1;
    BackoffWaits(next);
    if sub == Missing {
      ApplyOne(db, Update(item.id, Drop));
    } else if sub == Active && ok {
      ApplyOne(db, Update(item.id, Deliver));
    } else if next >= item.maxAttempts {
      ApplyTwo(db, Update(item.id, Exhaust(next)), Upsert(item.key, next));
    } else {
      ApplyOne(db, Update(item.id, Retry(next, now + Backoff(next), Backoff(next))));
    }
  }

  /**
    * A fetched row left to the worker: what it comes to, the one POST and its logged result, the dead letters, and
    * the gauge, which goes up exactly with a new letter. No other row changes.
    */
  lemma ProcessedComesTo(w: World, items: seq<Item>, sub: Subscription, ok: bool)
    requires items != [] && w.worker == Busy(items, Claiming) && w.pending == [] && items[0].id in w.db.rows
    ensures var item, r := items[0], Run(w, Works(sub, ok, Steps(sub)));
            && item.id in r.db.rows && RowComesTo(w.db.rows[item.id], r.db.rows[item.id], item, sub, ok, w.now)
            && r.db.rows == w.db.rows[item.id := r.db.rows[item.id]]
            && r.db.attempts == w.db.attempts + (if sub == Active then [Attempt(item.key, ok, 1)] else [])
            && r.posts == w.posts + (if sub == Active then [Post(item.id, ok)] else [])
            && LettersComeTo(w.db.dlq, r.db.dlq, item, sub, ok)
            && r.gauge == (if r.db.dlq.Keys == w.db.dlq.Keys then w.gauge else w.gauge + 1)
            && r.done == w.done + [item.id] && r.now == w.now && r.pending == []
  {
    hide Run, ApplyAll, LastWrites, RowComesTo, Apply;
    var item := items[0];
    ItemRuns(w, items, sub, ok);
    var claimed := Apply(w.db, Update(item.id, Claim));
    var logged := if sub == Active then Apply(claimed, Log(Attempt(item.key, ok, 1))) else claimed;
    ClaimedRow(w.db, item, Attempt(item.key, ok, 1));
    WritesRow(logged, item, sub, ok, w.now);
    var d := ApplyAll(logged, LastWrites(item, sub, ok, w.now));
    ClaimForgotten(w.db.rows[item.id], d.rows[item.id], item, sub, ok, w.now);
    LetterKeys(w.db, d.dlq, item, sub, ok);
  }

  lemma ClaimedRow(db: Db, item: Item, attempt: Attempt)
    requires item.id in db.rows
    ensures var c := Apply(db, Update(item.id, Claim));
            && c.rows == db.rows[item.id := db.rows[item.id].(status := DELIVERING)]
            && c.attempts == db.attempts && c.dlq == db.dlq
            && Apply(c, Log(attempt)) == c.(attempts := c.attempts + [attempt])
  {
  }

  /** The claim leaves nothing behind but the status, which the outcome replaces. */
  lemma ClaimForgotten(row: Row, after: Row, item: Item, sub: Subscription, ok: bool, now: int)
    requires RowComesTo(row.(status := DELIVERING), after, item, sub, ok, now)
    ensures RowComesTo(row, after, item, sub, ok, now)
  {
    hide WaitsAfter;
  }

  lemma LetterKeys(db: Db, dlq: map<Key, nat>, item: Item, sub: Subscription, ok: bool)
    requires LettersComeTo(db.dlq, dlq, item, sub, ok)
    ensures NewLetter(db, item, sub, ok) <==> dlq.Keys != db.dlq.Keys
  {
    if item.key in db.dlq {
      assert dlq.Keys == db.dlq.Keys;
    } else if NewLetter(db, item, sub, ok) {
      assert item.key in dlq.Keys;
    }
  }

  // ---------------------------------------------------------------- replays of dead letters

  /** A replay logs what a delivery of one attempt logs, and touches nothing else; only a letter can be replayed. */
  lemma ReplayLogsOneAttempt(w: World, key: Key, sub: Subscription, respond: nat -> bool)
    ensures var r := Step(w, Replay(key, sub, respond(1)));
            && r.db.attempts == w.db.attempts + (if key in w.db.dlq && sub == Active then AttemptLog(key, respond, 1, 1) else [])
            && r == w.(db := w.db.(attempts := r.db.attempts))
  {
    assert AttemptLog(key, respond, 2, 1) == [];
  }
}

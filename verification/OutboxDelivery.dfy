/** `deliver_with_retry`, `upsert_dlq` and `_poll_once` updating the tables in place, against the step machine of the outbox. */
module OutboxDelivery {
  import opened Outbox
  import opened OutboxInvariant
  import opened OutboxWork
  import opened OutboxTheorems

  // ---------------------------------------------------------------- the retry loop

  /** The attempts logged from attempt `from` on: failures up to the first success or the limit. */
  function AttemptLog(key: Key, respond: nat -> bool, from: nat, limit: int): seq<Attempt>
    decreases limit - from
  {
    if from > limit then []
    else if respond(from) then [Attempt(key, true, from)]
    else [Attempt(key, false, from)] + AttemptLog(key, respond, from + 1, limit)
  }

  predicate Succeeds(respond: nat -> bool, from: nat, limit: int)
    decreases limit - from
  {
    from <= limit && (respond(from) || Succeeds(respond, from + 1, limit))
  }

  /** The log numbers the attempts 1, 2, .., k, where k is the first that succeeds or else the limit. */
  lemma {:induction false} AttemptsNumbered(key: Key, respond: nat -> bool, from: nat, limit: int)
    ensures var log := AttemptLog(key, respond, from, limit);
            && (forall i | 0 <= i < |log| :: log[i] == Attempt(key, respond(from + i), from + i))
            && (forall i | 0 <= i < |log| - 1 :: !log[i].success)
            && (log != [] && log[|log| - 1].success <==> Succeeds(respond, from, limit))
            && (!Succeeds(respond, from, limit) ==> |log| == if from > limit then 0 else limit - from + 1)
    decreases limit - from
  {
    if from <= limit && !respond(from) {
      AttemptsNumbered(key, respond, from + 1, limit);
      var rest := AttemptLog(key, respond, from + 1, limit);
      var log := AttemptLog(key, respond, from, limit);
      assert log == [Attempt(key, false, from)] + rest;
      assert forall i | 1 <= i < |log| :: log[i] == rest[i - 1];
    }
  }

  // ---------------------------------------------------------------- one row straight through

  /** The writes of the commit that ends the processing of an item. */
  function LastWrites(item: Item, sub: Subscription, ok: bool, now: int): seq<Write> {
    var next := item.attempts + 1;
    if sub == Missing then [Update(item.id, Drop)]
    else if sub == Active && ok then [Update(item.id, Deliver)]
    else if next >= item.maxAttempts then [Update(item.id, Exhaust(next)), Upsert(item.key, next)]
    else [Update(item.id, Retry(next, now + Backoff(next), Backoff(next)))]
  }

  /** A missing subscription only drops the row; an inactive one fails whatever the response. */
  lemma Outcomes(item: Item, sub: Subscription, respond: bool, now: int, db: Db)
    ensures sub == Missing ==> LastWrites(item, sub, respond, now) == [Update(item.id, Drop)] && !NewLetter(db, item, sub, respond)
    ensures LastWrites(item, sub, sub == Active && respond, now) == LastWrites(item, sub, respond, now)
    ensures forall d: Db :: NewLetter(d, item, sub, sub == Active && respond) == NewLetter(d, item, sub, respond)
    ensures forall d: Db | d.dlq == db.dlq :: NewLetter(d, item, sub, respond) == NewLetter(db, item, sub, respond)
  {
    hide Backoff;
  }

  predicate NewLetter(db: Db, item: Item, sub: Subscription, ok: bool) {
    sub != Missing && !(sub == Active && ok) && item.attempts + 1 >= item.maxAttempts && item.key !in db.dlq
  }

  /** The processing of one item with nothing in between. */
  function Processed(w: World, items: seq<Item>, sub: Subscription, ok: bool): World
    requires items != []
  {
    var item := items[0];
    var claimed := Apply(w.db, Update(item.id, Claim));
    var logged := if sub == Active then Apply(claimed, Log(Attempt(item.key, ok, 1))) else claimed;
    World(ApplyAll(logged, LastWrites(item, sub, ok, w.now)), [], NextItem(items), w.now,
          if NewLetter(w.db, item, sub, ok) then w.gauge + 1 else w.gauge,
          if sub == Active then w.posts + [Post(item.id, ok)] else w.posts, w.done + [item.id], w.crashes,
          w.lost, w.atRestart)
  }

  function Steps(sub: Subscription): nat {
    match sub
    case Missing => 4
    case Inactive => 5
    case Active => 8
  }

  function Works(sub: Subscription, ok: bool, n: nat): seq<Move> {
    seq(n, _ => Work(sub, ok))
  }

  lemma WorksSnoc(sub: Subscription, ok: bool, n: nat)
    ensures Works(sub, ok, n + 1) == Works(sub, ok, n) + [Work(sub, ok)]
    ensures Works(sub, ok, 0) == []
  {
  }

  lemma WorksStep(w: World, sub: Subscription, ok: bool, n: nat)
    ensures Run(w, Works(sub, ok, n + 1)) == WorkStep(Run(w, Works(sub, ok, n)), sub, ok)
    ensures Run(w, Works(sub, ok, 0)) == w
  {
    hide WorkStep, Works, Run;
    WorksSnoc(sub, ok, n);
    RunSnoc(w, Works(sub, ok, n), Work(sub, ok));
    EmptyRun(w);
  }

  /** Claim, commit, and the subscription read. */
  lemma FirstThree(w: World, items: seq<Item>, sub: Subscription, ok: bool)
    requires items != [] && w.worker == Busy(items, Claiming) && w.pending == []
    ensures Run(w, Works(sub, ok, 3))
            == ReadSubscription(w.(db := Apply(w.db, Update(items[0].id, Claim)), worker := Busy(items, Reading)), items, items[0], sub)
  {
    hide Run, Apply, ApplyAll, ReadSubscription, Settle;
    WorksStep(w, sub, ok, 0);
    WorksStep(w, sub, ok, 1);
    WorksStep(w, sub, ok, 2);
    ApplyOne(w.db, Update(items[0].id, Claim));
  }

  /** From the POST to the commit of its log entry. */
  lemma PostThree(w: World, items: seq<Item>, ok: bool, n: nat)
    requires items != []
    requires var r := Run(w, Works(Active, ok, n)); r.worker == Busy(items, Posting) && r.pending == []
    ensures var r := Run(w, Works(Active, ok, n));
            Run(w, Works(Active, ok, n + 3)) ==
            r.(db := Apply(r.db, Log(Attempt(items[0].key, ok, 1))), posts := r.posts + [Post(items[0].id, ok)],
               worker := Busy(items, Settling(ok)))
  {
    hide Run, Apply, ApplyAll, ReadSubscription, Settle;
    WorksStep(w, Active, ok, n);
    WorksStep(w, Active, ok, n + 1);
    WorksStep(w, Active, ok, n + 2);
    ApplyOne(Run(w, Works(Active, ok, n)).db, Log(Attempt(items[0].key, ok, 1)));
  }

  lemma LogKeepsDlq(db: Db, attempt: Attempt)
    ensures Apply(db, Log(attempt)).dlq == db.dlq
  {
  }

  lemma DlqUntouched(db: Db, id: nat, attempt: Attempt)
    ensures Apply(db, Update(id, Claim)).dlq == db.dlq
    ensures Apply(Apply(db, Update(id, Claim)), Log(attempt)).dlq == db.dlq
  {
  }

  /** The step machine, left alone, processes an item exactly as the straight-through code does. */
  lemma ItemRuns(w: World, items: seq<Item>, sub: Subscription, ok: bool)
    requires items != [] && w.worker == Busy(items, Claiming) && w.pending == []
    ensures Run(w, Works(sub, ok, Steps(sub))) == Processed(w, items, sub, ok)
  {
    hide Run, Apply, ApplyAll, Backoff;
    FirstThree(w, items, sub, ok);
    DlqUntouched(w.db, items[0].id, Attempt(items[0].key, ok, 1));
    match sub
    case Missing =>
      WorksStep(w, sub, ok, 3);
    case Inactive =>
      WorksStep(w, sub, ok, 3);
      WorksStep(w, sub, ok, 4);
    case Active =>
      PostThree(w, items, ok, 3);
      WorksStep(w, sub, ok, 6);
      WorksStep(w, sub, ok, 7);
  }

  /** A whole batch, item after item. */
  function ProcessAll(w: World, items: seq<Item>, subs: nat -> Subscription, oks: nat -> bool): World
    decreases |items|
  {
    if items == [] then w else
      var id := items[0].id;
      ProcessAll(Processed(w, items, subs(id), oks(id)), items[1..], subs, oks)
  }

  /** The worker with these items left. */
  function WorkerAt(items: seq<Item>): Worker {
    if items == [] then Idle else Busy(items, Claiming)
  }

  // ---------------------------------------------------------------- the tables in place

  class Store {
    var rows: map<nat, Row>
    var nextId: nat
    var attempts: seq<Attempt>
    var dlq: map<Key, nat>
    var gauge: nat
    var now: int
    ghost var posts: seq<Post>
    ghost var done: seq<nat>
    ghost var crashes: nat
    ghost var lost: nat
    ghost var atRestart: nat

    ghost function Tables(): Db
      reads this
    {
      Db(rows, nextId, attempts, dlq)
    }

    /** The world with nothing uncommitted and the worker at `worker`. */
    ghost function State(worker: Worker): World
      reads this
    {
      World(Tables(), [], worker, now, gauge, posts, done, crashes, lost, atRestart)
    }

    constructor ()
      ensures State(Idle) == EMPTY
    {
      rows, nextId, attempts, dlq, gauge, now := map[], 0, [], map[], 0, 0;
      posts, done, crashes, lost, atRestart := [], [], 0, 0, 0;
    }

    /** `_enqueue_webhook_outbox` with inline delivery off: one row per affected subscription. */
    method Enqueue(affected: seq<Key>) returns (count: nat)
      modifies this
      ensures count == |affected|
      ensures State(Idle) == Run(old(State(Idle)), seq(|affected|, i requires 0 <= i < |affected| => Move.Enqueue(affected[i], 5)))
    {
      hide Run;
      ghost var start := State(Idle);
      count := 0;
      ghost var moves: seq<Move> := [];
      EmptyRun(start);
      for i := 0 to |affected|
        invariant count == i
        invariant moves == seq(i, j requires 0 <= j < i => Move.Enqueue(affected[j], 5))
        invariant State(Idle) == Run(start, moves)
      {
        rows := rows[nextId := Row(affected[i], PENDING, 0, 5, now, 0)];
        nextId := nextId + 1;
        count := count + 1;
        RunSnoc(start, moves, Move.Enqueue(affected[i], 5));
        moves := moves + [Move.Enqueue(affected[i], 5)];
      }
    }

    /** `upsert_dlq`: one letter per event and consumer, its count never lowered; the gauge counts the new ones. */
    method UpsertDlq(key: Key, count: nat)
      modifies this`dlq, this`gauge
      ensures Tables() == Apply(old(Tables()), Upsert(key, count))
      ensures gauge == old(gauge) + if key in old(dlq) then 0 else 1
    {
      if key in dlq {
        if dlq[key] < count {
          dlq := dlq[key := count];
        }
        assert dlq == old(dlq)[key := Larger(old(dlq)[key], count)];
      } else {
        dlq := dlq[key := count];
        gauge := gauge + 1;
      }
    }

    method UpdateRow(id: nat, change: Change)
      requires id in rows
      modifies this`rows
      ensures Tables() == Apply(old(Tables()), Update(id, change)) && id in rows && rows.Keys == old(rows.Keys)
    {
      rows := rows[id := Changed(rows[id], change)];
    }

    /**
      * `deliver_with_retry`: POST, log the attempt, stop at the first success; the last failure may become a
      * dead letter. With no attempts allowed nothing is posted, logged or buried.
      */
    method DeliverWithRetry(key: Key, active: bool, maxAttempts: int, persistDlq: bool, respond: nat -> bool)
      returns (ok: bool)
      modifies this`attempts, this`dlq, this`gauge
      ensures ok == (active && Succeeds(respond, 1, maxAttempts))
      ensures attempts == old(attempts) + if active then AttemptLog(key, respond, 1, maxAttempts) else []
      ensures var buried := active && !ok && persistDlq && maxAttempts >= 1;
              && dlq == (if buried then Apply(old(Tables()), Upsert(key, maxAttempts)).dlq else old(dlq))
              && gauge == old(gauge) + if buried && key !in old(dlq) then 1 else 0
    {
      if !active {
        return false;
      }
      var attempt := 1;
      while attempt <= maxAttempts
        invariant attempt >= 1 && (attempt <= maxAttempts || attempt == 1)
        invariant Succeeds(respond, 1, maxAttempts) == Succeeds(respond, attempt, maxAttempts)
        invariant attempts + AttemptLog(key, respond, attempt, maxAttempts) == old(attempts) + AttemptLog(key, respond, 1, maxAttempts)
        invariant dlq == old(dlq) && gauge == old(gauge)
      {
        var accepted := respond(attempt);
        attempts := attempts + [Attempt(key, accepted, attempt)];
        if accepted {
          return true;
        }
        if attempt == maxAttempts {
          if persistDlq {
            UpsertDlq(key, attempt);
          }
          return false;
        }
        attempt := attempt + 1;
      }
      return false;
    }

    /** The update after the delivery, and the dead letter when the attempts are used up. */
    method Settle(item: Item, sub: Subscription, ok: bool)
      requires item.id in rows && sub != Missing
      modifies this`rows, this`dlq, this`gauge
      ensures Tables() == ApplyAll(old(Tables()), LastWrites(item, sub, ok, now))
      ensures gauge == old(gauge) + if NewLetter(old(Tables()), item, sub, ok) then 1 else 0
      ensures rows.Keys == old(rows.Keys)
    {
      hide Apply, ApplyAll, Backoff, Changed;
      ghost var start := Tables();
      var next := item.attempts + 1;
      if sub == Active && ok {
        UpdateRow(item.id, Deliver);
        ApplyOne(start, Update(item.id, Deliver));
      } else if next >= item.maxAttempts {
        UpdateRow(item.id, Exhaust(next));
        UpdateKeepsDlq(start, item.id, Exhaust(next));
        UpsertDlq(item.key, next);
        ApplyTwo(start, Update(item.id, Exhaust(next)), Upsert(item.key, next));
      } else {
        var retry := Retry(next, now + Backoff(next), Backoff(next));
        UpdateRow(item.id, retry);
        ApplyOne(start, Update(item.id, retry));
      }
    }

    /** The body of the loop in `_poll_once`. */
    method Process(items: seq<Item>, sub: Subscription, respond: bool)
      requires items != [] && items[0].id in rows
      modifies this
      ensures rows.Keys == old(rows.Keys)
      ensures State(NextItem(items)) == Processed(old(State(Busy(items, Claiming))), items, sub, respond)
    {
      hide Apply, ApplyAll, LastWrites, NewLetter, Changed;
      var item := items[0];
      Outcomes(item, sub, respond, now, Tables());
      DlqUntouched(Tables(), item.id, Attempt(item.key, respond, 1));
      UpdateRow(item.id, Claim);
      if sub == Missing {
        ghost var claimed := Tables();
        UpdateRow(item.id, Drop);
        ApplyOne(claimed, Update(item.id, Drop));
      } else {
        Finish(item, sub, respond);
      }
      done := done + [item.id];
    }

    /** The delivery to a subscription that was found, and what follows it. */
    method Finish(item: Item, sub: Subscription, respond: bool)
      requires item.id in rows && sub != Missing
      modifies this`rows, this`dlq, this`gauge, this`attempts, this`posts
      ensures rows.Keys == old(rows.Keys)
      ensures var logged := if sub == Active then Apply(old(Tables()), Log(Attempt(item.key, respond, 1))) else old(Tables());
              Tables() == ApplyAll(logged, LastWrites(item, sub, respond, now))
      ensures gauge == old(gauge) + if NewLetter(old(Tables()), item, sub, respond) then 1 else 0
      ensures posts == if sub == Active then old(posts) + [Post(item.id, respond)] else old(posts)
    {
      hide Apply, ApplyAll, LastWrites, NewLetter, Changed;
      Outcomes(item, sub, respond, now, Tables());
      LogKeepsDlq(Tables(), Attempt(item.key, respond, 1));
      var ok := DeliverOnce(item.key, sub == Active, respond);
      if sub == Active {
        posts := posts + [Post(item.id, respond)];
      }
      Settle(item, sub, ok);
    }

    /** The `SELECT` of the poll. */
    static method FetchDue(rows: map<nat, Row>, nextId: nat, now: int) returns (items: seq<Item>)
      ensures var due := DueItems(rows, now, nextId); items == if |due| <= BATCH_SIZE then due else due[..BATCH_SIZE]
    {
      items := [];
      for n := 0 to nextId
        invariant items == DueItems(rows, now, n)
      {
        if n in rows && rows[n].status == PENDING && rows[n].due <= now {
          items := items + [ItemOf(n, rows[n])];
        }
      }
      if |items| > BATCH_SIZE {
        items := items[..BATCH_SIZE];
      }
    }

    /** `_poll_once`: fetch a batch of due rows and process them one after the other. */
    method PollOnce(subs: nat -> Subscription, respond: nat -> bool) returns (processed: nat)
      modifies this
      ensures processed == |Fetch(old(Tables()), old(now))|
      ensures State(Idle) == ProcessAll(PollStep(old(State(Idle))), Fetch(old(Tables()), old(now)), subs, respond)
    {
      hide Processed, DueItems;
      ghost var start := PollStep(State(Idle));
      var items := FetchDue(rows, nextId, now);
      FetchedWait(Tables(), now);
      processed := 0;
      while processed < |items|
        invariant processed <= |items|
        invariant forall i | 0 <= i < |items| :: items[i].id in rows
        invariant ProcessAll(State(WorkerAt(items[processed..])), items[processed..], subs, respond)
                  == ProcessAll(start, items, subs, respond)
      {
        var rest := items[processed..];
        Process(rest, subs(rest[0].id), respond(rest[0].id));
        assert items[processed + 1..] == rest[1..];
        processed := processed + 1;
      }
    }

    /** The worker's call of `deliver_with_retry`: one attempt, no dead letter. */
    method DeliverOnce(key: Key, active: bool, respond: bool) returns (ok: bool)
      modifies this`attempts, this`dlq, this`gauge
      ensures ok == (active && respond) && gauge == old(gauge)
      ensures Tables() == if active then Apply(old(Tables()), Log(Attempt(key, respond, 1))) else old(Tables())
      ensures active ==> Apply(old(Tables()), Log(Attempt(key, respond, 1))).rows == old(rows)
    {
      ok := DeliverWithRetry(key, active, 1, false, _ => respond);
      assert AttemptLog(key, _ => respond, 1, 1) == [Attempt(key, respond, 1)];
    }
  }

  // ---------------------------------------------------------------- what a batch achieves

  lemma ChangedOnly(db: Db, id: nat, change: Change)
    requires id in db.rows
    ensures var db' := Apply(db, Update(id, change)); db'.rows == db.rows[id := Changed(db.rows[id], change)]
  {
    hide Changed;
  }

  lemma LastRows(db: Db, item: Item, sub: Subscription, ok: bool, now: int)
    requires item.id in db.rows
    ensures var next := item.attempts + 1;
            var change := if sub == Missing then Drop else if sub == Active && ok then Deliver
                          else if next >= item.maxAttempts then Exhaust(next) else Retry(next, now + Backoff(next), Backoff(next));
            ApplyAll(db, LastWrites(item, sub, ok, now)).rows == db.rows[item.id := Changed(db.rows[item.id], change)]
  {
    hide ApplyAll, Changed, Backoff;
    var next := item.attempts + 1;
    if sub == Missing {
      ApplyOne(db, Update(item.id, Drop));
    } else if sub == Active && ok {
      ApplyOne(db, Update(item.id, Deliver));
    } else if next >= item.maxAttempts {
      ApplyTwo(db, Update(item.id, Exhaust(next)), Upsert(item.key, next));
    } else {
      ApplyOne(db, Update(item.id, Retry(next, now + Backoff(next), Backoff(next))));
    }
  }

  /** One more attempt counted and a later retry time, or the end. */
  predicate MovedOn(item: Item, row: Row, now: int) {
    Terminal(row)
    || (row.status == PENDING && row.attempts == item.attempts + 1 && row.attempts < row.maxAttempts
        && row.due == now + Backoff(row.attempts))
  }

  lemma ProcessedRow(w: World, items: seq<Item>, sub: Subscription, ok: bool)
    requires items != [] && Waiting(w.db, items[0])
    ensures var w' := Processed(w, items, sub, ok);
            && items[0].id in w'.db.rows && w'.db.rows == w.db.rows[items[0].id := w'.db.rows[items[0].id]]
            && MovedOn(items[0], w'.db.rows[items[0].id], w.now) && w'.now == w.now
  {
    hide ApplyAll, Backoff, LastWrites;
    var item := items[0];
    var claimed := Apply(w.db, Update(item.id, Claim));
    var logged := if sub == Active then Apply(claimed, Log(Attempt(item.key, ok, 1))) else claimed;
    ChangedOnly(w.db, item.id, Claim);
    LastRows(logged, item, sub, ok, w.now);
  }

  /** Every fetched row ends its batch one attempt further or for good; no other row is touched. */
  lemma {:induction false} BatchProgress(w: World, items: seq<Item>, subs: nat -> Subscription, oks: nat -> bool)
    requires forall i | 0 <= i < |items| :: Waiting(w.db, items[i])
    requires forall i, j | 0 <= i < j < |items| :: items[i].id != items[j].id
    ensures var w' := ProcessAll(w, items, subs, oks);
            && w'.db.rows.Keys == w.db.rows.Keys
            && (forall i | 0 <= i < |items| :: items[i].id in w'.db.rows && MovedOn(items[i], w'.db.rows[items[i].id], w.now))
            && (forall id | id in w.db.rows && (forall i | 0 <= i < |items| :: items[i].id != id) :: w'.db.rows[id] == w.db.rows[id])
    decreases |items|
  {
    hide Processed, MovedOn;
    if items != [] {
      var id := items[0].id;
      ProcessedRow(w, items, subs(id), oks(id));
      var w1 := Processed(w, items, subs(id), oks(id));
      var rest := items[1..];
      forall i | 0 <= i < |rest| ensures Waiting(w1.db, rest[i]) {
        assert Waiting(w.db, items[i + 1]);
      }
      BatchProgress(w1, rest, subs, oks);
      forall i | 0 <= i < |rest| ensures rest[i].id != id {
        assert items[0].id != items[i + 1].id;
      }
      var w' := ProcessAll(w1, rest, subs, oks);
      assert w' == ProcessAll(w, items, subs, oks);
      assert w'.db.rows[id] == w1.db.rows[id];
      forall i | 0 <= i < |items| ensures MovedOn(items[i], w'.db.rows[items[i].id], w.now) {
        if i > 0 {
          assert items[i] == rest[i - 1];
        }
      }
    }
  }

  /** The step machine reaches the same world with a crash-free run of the worker's own steps. */
  lemma {:induction false} BatchRuns(w: World, items: seq<Item>, subs: nat -> Subscription, oks: nat -> bool)
    returns (moves: seq<Move>)
    requires w.pending == [] && w.worker == if items == [] then Idle else Busy(items, Claiming)
    ensures Run(w, moves) == ProcessAll(w, items, subs, oks) && forall m | m in moves :: m.Work?
    decreases |items|
  {
    hide Run;
    if items == [] {
      EmptyRun(w);
      moves := [];
    } else {
      var id := items[0].id;
      var first := Works(subs(id), oks(id), Steps(subs(id)));
      ItemRuns(w, items, subs(id), oks(id));
      var rest := BatchRuns(Processed(w, items, subs(id), oks(id)), items[1..], subs, oks);
      RunConcat(w, first, rest);
      moves := first + rest;
    }
  }

  lemma {:induction false} RunConcat(w: World, a: seq<Move>, b: seq<Move>)
    ensures Run(w, a + b) == Run(Run(w, a), b)
  {
    hide Step;
    if b == [] {
      assert a + b == a;
    } else {
      var n := |b| - 1;
      RunConcat(w, a, b[..n]);
      assert (a + b)[..|a| + n] == a + b[..n];
    }
  }

  lemma EmptyRun(w: World)
    ensures Run(w, []) == w
  {
  }
}

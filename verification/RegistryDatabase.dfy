/** The registry tables updated in place: one method per SQL statement, and `upsert_schema_version` as their sequence. */
module RegistryDatabase {
  import opened Options
  import opened JsonValues
  import opened Classifier
  import opened Registry
  import opened RegistryInvariant
  import opened RegistryCommit

  class Database {
    const h: Hashes
    var endpoints: set<Endpoint>
    var versions: map<nat, Version>
    var locks: map<int, nat>
    var nextId: nat
    var txs: map<nat, Tx>
    ghost var log: seq<Commit>
    ghost var order: map<Endpoint, seq<nat>>

    ghost function State(): World
      reads this
    {
      World(Db(endpoints, versions, locks, nextId, log, order), txs)
    }

    constructor (hashes: Hashes)
      ensures h == hashes && State() == EMPTY
    {
      h := hashes;
      endpoints, versions, locks, nextId, txs := {}, map[], map[], 0, map[];
      log, order := [], map[];
    }

    static method SelectByFingerprint(versions: map<nat, Version>, e: Endpoint, fp: string, nextId: nat) returns (found: Option<Found>)
      ensures found == FindPrint(versions, e, fp, nextId)
    {
      found := None;
      for n := 0 to nextId
        invariant found == FindPrint(versions, e, fp, n)
      {
        if n in versions && Prints(versions[n], e, fp) {
          found := Some(Found(n, versions[n]));
        }
      }
    }

    /** `get_current_schema`. */
    static method GetCurrentSchema(versions: map<nat, Version>, e: Endpoint, nextId: nat) returns (current: Option<Found>)
      ensures current == FindCurrent(versions, e, nextId)
    {
      current := None;
      for n := 0 to nextId
        invariant current == FindCurrent(versions, e, n)
      {
        if n in versions && versions[n].endpoint == e && versions[n].current
           && (current == None || versions[n].version > current.value.row.version) {
          current := Some(Found(n, versions[n]));
        }
      }
    }

    method BeginTransaction(t: nat, e: Endpoint, payload: Json)
      requires t !in txs
      modifies this`txs
      ensures State() == Step(h, old(State()), Begin(t, e, payload)) && txs == old(txs)[t := Fresh(e, payload)]
    {
      txs := txs[t := Fresh(e, payload)];
    }

    /** `ensure_endpoint`; while another open transaction is inserting the same row it waits, and nothing changes. */
    method InsertEndpoint(t: nat) returns (waits: bool)
      requires t in txs && txs[t].pc == Ensure
      modifies this`txs
      ensures State() == Step(h, old(State()), Advance(t))
      ensures waits <==> old(Blocked(h, State(), t))
      ensures waits ==> State() == old(State())
      ensures t in txs && txs[t].endpoint == old(txs[t].endpoint) && txs[t].payload == old(txs[t].payload)
      ensures txs[t].pc == if waits then Ensure else FastLookup
    {
      var e := txs[t].endpoint;
      if e in endpoints {
        waits := false;
        txs := txs[t := txs[t].(pc := FastLookup)];
      } else if exists u :: u in txs && u != t && txs[u].creates && txs[u].endpoint == e {
        waits := true;
      } else {
        waits := false;
        txs := txs[t := txs[t].(pc := FastLookup, creates := true)];
      }
    }

    method LookUp(t: nat) returns (found: Option<Found>)
      requires t in txs && (txs[t].pc == FastLookup || txs[t].pc == LookupAgain)
      modifies this`txs
      ensures State() == Step(h, old(State()), Advance(t))
      ensures t in txs && txs[t].endpoint == old(txs[t].endpoint) && txs[t].payload == old(txs[t].payload)
      ensures txs[t].pc == if found.Some? then Existing(found.value.row)
                           else if old(txs[t].pc) == FastLookup then TakeLock
                           else if old(txs[t].current) == None then Insert else ClearCurrent
    {
      var tx := txs[t];
      found := SelectByFingerprint(versions, tx.endpoint, PrintOf(h, tx), nextId);
      match found {
        case Some(f) => tx := tx.(pc := Existing(f.row));
        case None =>
          tx := tx.(pc := if tx.pc == FastLookup then TakeLock else if tx.current == None then Insert else ClearCurrent);
      }
      txs := txs[t := tx];
    }

    /** `pg_advisory_xact_lock`; while the lock is held it waits, and nothing changes. */
    method Lock(t: nat) returns (waits: bool)
      requires t in txs && txs[t].pc == TakeLock
      modifies this`txs, this`locks
      ensures State() == Step(h, old(State()), Advance(t))
      ensures waits <==> old(Blocked(h, State(), t))
      ensures waits ==> State() == old(State())
      ensures t in txs && txs[t].endpoint == old(txs[t].endpoint) && txs[t].payload == old(txs[t].payload)
      ensures txs[t].pc == if waits then TakeLock else ReadCurrent
    {
      waits := h.lockId(txs[t].endpoint) in locks;
      if !waits {
        locks := locks[h.lockId(txs[t].endpoint) := t];
        txs := txs[t := txs[t].(pc := ReadCurrent, locked := true)];
      }
    }

    method Read(t: nat)
      requires t in txs && txs[t].pc == ReadCurrent
      modifies this`txs
      ensures State() == Step(h, old(State()), Advance(t))
      ensures t in txs && txs[t].endpoint == old(txs[t].endpoint) && txs[t].payload == old(txs[t].payload)
      ensures txs[t].pc == LookupAgain
    {
      var current := GetCurrentSchema(versions, txs[t].endpoint, nextId);
      txs := txs[t := txs[t].(pc := LookupAgain, current := current)];
    }

    method ClearFlag(t: nat)
      requires t in txs && txs[t].pc == ClearCurrent && txs[t].current.Some?
      modifies this`txs
      ensures State() == Step(h, old(State()), Advance(t))
      ensures t in txs && txs[t].endpoint == old(txs[t].endpoint) && txs[t].payload == old(txs[t].payload)
      ensures txs[t].pc == Insert
    {
      txs := txs[t := txs[t].(pc := Insert, cleared := Some(txs[t].current.value.id))];
    }

    method InsertVersion(t: nat)
      requires t in txs && txs[t].pc == Insert
      modifies this`txs, this`nextId
      ensures State() == Step(h, old(State()), Advance(t))
      ensures t in txs && txs[t].endpoint == old(txs[t].endpoint) && txs[t].payload == old(txs[t].payload)
      ensures txs[t].pc == Rejected || txs[t].pc == ReadPrior || txs[t].pc.Returned?
    {
      hide NewRow, Clash;
      var tx := txs[t];
      var row := NewRow(h, tx);
      if (exists id :: id in versions && Clash(versions[id], row))
         || (exists u :: u in txs && u != t && txs[u].pending.Some? && Clash(txs[u].pending.value.row, row)) {
        txs := txs[t := tx.(pc := Rejected)];
      } else {
        tx := tx.(pending := Some(Found(nextId, row)));
        tx := tx.(pc := if row.previous == None then Returned(Answer(row.version, true, SAFE)) else ReadPrior);
        txs := txs[t := tx];
        nextId := nextId + 1;
      }
    }

    method SelectPrior(t: nat)
      requires t in txs && txs[t].pc == ReadPrior && txs[t].pending.Some?
      modifies this`txs
      ensures State() == Step(h, old(State()), Advance(t))
      ensures t in txs && txs[t].endpoint == old(txs[t].endpoint) && txs[t].payload == old(txs[t].payload)
      ensures txs[t].pc == Rejected || txs[t].pc.Reclassify?
    {
      var previous := txs[t].pending.value.row.previous;
      if previous.Some? && previous.value in versions {
        txs := txs[t := txs[t].(pc := Reclassify(versions[previous.value].schema))];
      } else {
        txs := txs[t := txs[t].(pc := Rejected)];
      }
    }

    method UpdateClassification(t: nat)
      requires t in txs && txs[t].pc.Reclassify? && txs[t].pending.Some?
      modifies this`txs
      ensures State() == Step(h, old(State()), Advance(t))
      ensures t in txs && txs[t].endpoint == old(txs[t].endpoint) && txs[t].payload == old(txs[t].payload)
      ensures txs[t].pc.Returned?
    {
      hide DiffAndClassify, Summarize, Canonicalize;
      var tx := txs[t];
      var diffs := DiffSchemas(h.show, tx.pc.prior, Schema(tx));
      var verdict := Summarize(diffs);
      var row := tx.pending.value.row;
      tx := tx.(pc := Returned(Answer(row.version, true, verdict)));
      tx := tx.(pending := Some(tx.pending.value.(row := row.(classification := verdict))));
      txs := txs[t := tx];
    }

    /** `commit()`. */
    method CommitTransaction(t: nat)
      requires t in txs && txs[t].pc.Returned?
      modifies this
      ensures State() == Step(h, old(State()), CommitTx(t))
    {
      var tx := txs[t];
      log := log + [Commit(tx.endpoint, tx.payload, tx.pc.answer)];
      if tx.creates {
        endpoints := endpoints + {tx.endpoint};
      }
      if tx.cleared.Some? && tx.cleared.value in versions {
        versions := versions[tx.cleared.value := versions[tx.cleared.value].(current := false)];
      }
      if tx.pending.Some? {
        versions := versions[tx.pending.value.id := tx.pending.value.row];
        order := order[tx.endpoint := (if tx.endpoint in order then order[tx.endpoint] else []) + [tx.pending.value.id]];
      }
      locks := Release(locks, t);
      txs := txs - {t};
    }

    method Rollback(t: nat)
      requires t in txs
      modifies this`locks, this`txs
      ensures State() == Step(h, old(State()), Abort(t))
    {
      locks := Release(locks, t);
      txs := txs - {t};
    }

    /** The statements from the lock on. */
    method InsertLocked(t: nat, ghost moves: seq<Move>, ghost start: World, ghost before: seq<Move>)
      returns (waits: bool, ghost done: seq<Move>)
      requires t in txs && txs[t].pc == TakeLock && Inv(h, State()) && State() == Run(h, start, moves)
      requires OnlyAdvances(t, before, moves)
      modifies this`txs, this`locks, this`nextId
      ensures Inv(h, State()) && State() == Run(h, start, done) && OnlyAdvances(t, before, done)
      ensures t in txs && txs[t].endpoint == old(txs[t].endpoint) && txs[t].payload == old(txs[t].payload)
      ensures waits <==> old(Blocked(h, State(), t))
      ensures waits ==> State() == old(State()) && txs[t].pc == TakeLock
      ensures !waits ==> txs[t].pc == ReadPrior || txs[t].pc.Returned?
    {
      hide Inv, Run, Step, State;
      waits := Lock(t);
      done := Advanced(h, start, moves, State(), t, before);
      if !waits {
        Read(t);
        done := Advanced(h, start, done, State(), t, before);
        var found := LookUp(t);
        done := Advanced(h, start, done, State(), t, before);
        if found == None {
          StateTxs(this);
          Stages(h, State(), t);
          if txs[t].pc == ClearCurrent {
            ClearFlag(t);
            done := Advanced(h, start, done, State(), t, before);
          }
          InsertVersion(t);
          done := Advanced(h, start, done, State(), t, before);
          StateTxs(this);
          Stages(h, State(), t);
        }
      }
    }

    /**
      * `upsert_schema_version`: the statements one after the other, returning early when the fingerprint is known.
      * Where a statement has to wait the call stops, and is taken up again from there.
      */
    method UpsertSchemaVersion(t: nat, ghost moves: seq<Move>, ghost start: World) returns (waits: bool, ghost done: seq<Move>)
      requires t in txs && (txs[t].pc == Ensure || txs[t].pc == TakeLock)
      requires Inv(h, State()) && State() == Run(h, start, moves)
      modifies this`txs, this`locks, this`nextId
      ensures Inv(h, State()) && State() == Run(h, start, done) && OnlyAdvances(t, moves, done)
      ensures t in txs && txs[t].endpoint == old(txs[t].endpoint) && txs[t].payload == old(txs[t].payload)
      ensures waits ==> (txs[t].pc == Ensure || txs[t].pc == TakeLock) && Blocked(h, State(), t)
      ensures !waits ==> txs[t].pc == ReadPrior || txs[t].pc.Returned?
    {
      hide Inv, Run, Step, Blocked, State;
      StateTxs(this);
      waits, done := false, moves;
      if txs[t].pc == Ensure {
        waits := InsertEndpoint(t);
        done := Advanced(h, start, done, State(), t, moves);
        if !waits {
          var found := LookUp(t);
          done := Advanced(h, start, done, State(), t, moves);
        }
      }
      if !waits && txs[t].pc == TakeLock {
        waits, done := InsertLocked(t, done, start, moves);
      }
    }

    /**
      * `track_contract` up to its commit, from its first statement or from where it had to wait: once it gets
      * through, the caller is told what the sequential registry says for everything committed by then.
      */
    method Proceed(t: nat, ghost moves: seq<Move>, ghost start: World) returns (answer: Option<Answer>, ghost done: seq<Move>)
      requires t in txs && (txs[t].pc == Ensure || txs[t].pc == TakeLock)
      requires Inv(h, State()) && State() == Run(h, start, moves)
      modifies this`txs, this`locks, this`nextId
      ensures Inv(h, State()) && State() == Run(h, start, done) && OnlyAdvances(t, moves, done)
      ensures t in txs && txs[t].endpoint == old(txs[t].endpoint) && txs[t].payload == old(txs[t].payload)
      ensures answer == None ==> (txs[t].pc == Ensure || txs[t].pc == TakeLock) && Blocked(h, State(), t)
      ensures answer.Some? ==> txs[t].pc == Returned(answer.value)
      ensures answer.Some? ==> answer.value == Reply(h, Replay(h, log), txs[t].endpoint, txs[t].payload)
    {
      hide Inv, Run, Step, State, Reply, Replay, Blocked;
      var waits;
      waits, done := UpsertSchemaVersion(t, moves, start);
      if waits {
        return None, done;
      }
      if txs[t].pc == ReadPrior {
        StateTxs(this);
        Stages(h, State(), t);
        SelectPrior(t);
        done := Advanced(h, start, done, State(), t, moves);
        StateTxs(this);
        Stages(h, State(), t);
        UpdateClassification(t);
        done := Advanced(h, start, done, State(), t, moves);
      }
      answer := Some(txs[t].pc.answer);
      StateTxs(this);
      ReturnedIsReply(h, State(), t);
    }

    /** `track_contract` for a new request. */
    method TrackContract(t: nat, e: Endpoint, payload: Json) returns (answer: Option<Answer>, ghost moves: seq<Move>)
      requires t !in txs && Inv(h, State())
      modifies this`txs, this`locks, this`nextId
      ensures Inv(h, State()) && State() == Run(h, old(State()), moves)
      ensures OnlyAdvances(t, [Begin(t, e, payload)], moves)
      ensures t in txs && txs[t].endpoint == e && txs[t].payload == payload
      ensures answer == None ==> (txs[t].pc == Ensure || txs[t].pc == TakeLock) && Blocked(h, State(), t)
      ensures answer.Some? ==> txs[t].pc == Returned(answer.value) && answer.value == Reply(h, Replay(h, log), e, payload)
    {
      hide Inv, Run, Step, State, Reply, Replay, Fresh, Blocked;
      ghost var start := State();
      moves := [Begin(t, e, payload)];
      StateTxs(this);
      FreshIs(e, payload);
      BeginTransaction(t, e, payload);
      StateTxs(this);
      RunOne(h, start, moves[0]);
      StepKeeps(h, start, moves[0]);
      answer, moves := Proceed(t, moves, start);
    }
  }

  lemma StateTxs(d: Database)
    ensures d.State().txs == d.txs && d.State().db.log == d.log
  {
  }

  lemma FreshIs(e: Endpoint, payload: Json)
    ensures Fresh(e, payload).pc == Ensure && Fresh(e, payload).endpoint == e && Fresh(e, payload).payload == payload
    ensures !Fresh(e, payload).creates
  {
  }

  /** A longer schedule in which only `t` has moved since. */
  ghost predicate OnlyAdvances(t: nat, before: seq<Move>, after: seq<Move>) {
    before <= after && forall i | |before| <= i < |after| :: after[i] == Advance(t)
  }

  lemma RunOne(h: Hashes, start: World, m: Move)
    ensures Run(h, start, [m]) == Step(h, start, m)
  {
    hide Step;
    assert [m][..0] == [];
  }

  lemma Advanced(h: Hashes, start: World, moves: seq<Move>, w: World, t: nat, before: seq<Move>) returns (longer: seq<Move>)
    requires w == Step(h, Run(h, start, moves), Advance(t)) && Inv(h, Run(h, start, moves))
    requires OnlyAdvances(t, before, moves)
    ensures w == Run(h, start, longer) && Inv(h, w) && OnlyAdvances(t, before, longer)
  {
    hide Step, Inv;
    longer := moves + [Advance(t)];
    assert longer[..|moves|] == moves;
    StepKeeps(h, Run(h, start, moves), Advance(t));
  }

  lemma Stages(h: Hashes, w: World, t: nat)
    requires Inv(h, w) && t in w.txs
    ensures w.txs[t].pc != Rejected
    ensures w.txs[t].pc == ClearCurrent ==> w.txs[t].current.Some?
    ensures w.txs[t].pc == ReadPrior || w.txs[t].pc.Reclassify? ==> w.txs[t].pending.Some?
  {
    hide TablesOk, LedgerOk, OneCreator, OwnIds, SnapshotOk, NoPrint, Answers, NewRow, OwnVerdict;
    assert TxOk(h, w.db, t, w.txs[t]);
  }

  /** Whatever else has committed meanwhile, a transaction that is ready to commit holds the answer of the sequential registry. */
  lemma ReturnedIsReply(h: Hashes, w: World, t: nat)
    requires Inv(h, w) && t in w.txs && w.txs[t].pc.Returned?
    ensures w.txs[t].pc.answer == Reply(h, Replay(h, w.db.log), w.txs[t].endpoint, w.txs[t].payload)
  {
    hide TxsOk, OneCreator, OwnIds, CommitStep;
    CommitKeeps(h, w, t);
    CommitLog(w, t);
    hide Inv;
    SnocReplay(h, w.db.log, Commit(w.txs[t].endpoint, w.txs[t].payload, w.txs[t].pc.answer));
    CommittedSerial(h, CommitStep(w, t));
  }

  lemma CommitLog(w: World, t: nat)
    requires t in w.txs && w.txs[t].pc.Returned?
    ensures CommitStep(w, t).db.log == w.db.log + [Commit(w.txs[t].endpoint, w.txs[t].payload, w.txs[t].pc.answer)]
  {
    hide Written, Release;
  }

  lemma CommittedSerial(h: Hashes, w: World)
    requires Inv(h, w)
    ensures Serial(h, w.db.log)
  {
    hide TablesOk, TxsOk, OneCreator, OwnIds, Holds, DistinctPrints;
  }
}

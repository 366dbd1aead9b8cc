/**
  * The webhook gateway: a request is checked against the idempotency store, forwarded across an await, and its
  * key recorded only when the forward has succeeded. Other requests run while one is waiting.
  */
module Gateway {
  import opened Options

  // ---------------------------------------------------------------- headers

  /** A header as Fastify hands it over. */
  datatype Header = Absent | One(value: string) | Many(values: seq<string>)

  /** `normalizeHeader`. */
  function Normalize(header: Header): Option<string> {
    match header
    case Absent => None
    case One(value) => Some(value)
    case Many(values) => if values == [] then None else Some(values[0])
  }

  /** A chain of `??`. */
  function FirstDefined(headers: seq<Header>): Option<string> {
    if headers == [] then None
    else if Normalize(headers[0]).Some? then Normalize(headers[0])
    else FirstDefined(headers[1..])
  }

  const SIGNATURE_PREFIX := "sha256="

  /** `extractSignature`, with an empty result counted as missing. */
  function Signature(headers: seq<Header>): Option<string> {
    match FirstDefined(headers)
    case None => None
    case Some(value) =>
      var bare := if SIGNATURE_PREFIX <= value then value[|SIGNATURE_PREFIX|..] else value;
      if bare == "" then None else Some(bare)
  }

  function IdempotencyKey(headers: seq<Header>): Option<string> {
    match FirstDefined(headers)
    case None => None
    case Some(value) => if value == "" then None else Some(value)
  }

  // ---------------------------------------------------------------- requests

  datatype Body = Malformed | NotAnObject | Object

  /** `signed` says whether the HMAC of the body matches the given signature. */
  datatype Request = Request(source: string, signatures: seq<Header>, keys: seq<Header>, signed: bool, body: Body)

  datatype Reply =
    | MissingSignature
    | MissingKey
    | Duplicate
    | InvalidSignature
    | BadPayload
    | Accepted(key: string)
    | EnqueueFailed

  datatype Forward = Forward(request: Request, key: string, ok: bool)

  /**
    * `store` is the idempotency store and `waiting` the forwards under way, by request id. `started` (the keys
    * of all forwards begun) and `settled` (their results, in order) are history.
    */
  datatype World = World(store: set<string>, waiting: map<nat, (Request, string)>, started: seq<string>, settled: seq<Forward>)

  const EMPTY := World({}, map[], [], [])

  datatype Verdict = Answer(reply: Reply) | Go(key: string)

  /** Everything before the await, in the order the handler checks it. */
  function Check(store: set<string>, r: Request): Verdict {
    if Signature(r.signatures) == None then Answer(MissingSignature)
    else if IdempotencyKey(r.keys) == None then Answer(MissingKey)
    else if IdempotencyKey(r.keys).value in store then Answer(Duplicate)
    else if !r.signed then Answer(InvalidSignature)
    else if r.body != Object then Answer(BadPayload)
    else Go(IdempotencyKey(r.keys).value)
  }

  /** A request that would be forwarded if its key were new. */
  predicate Valid(r: Request, key: string) {
    Signature(r.signatures).Some? && IdempotencyKey(r.keys) == Some(key) && r.signed && r.body == Object
  }

  lemma GoIffValid(store: set<string>, r: Request, key: string)
    ensures Check(store, r) == Go(key) <==> Valid(r, key) && key !in store
  {
  }

  // ---------------------------------------------------------------- what each reply means

  /** A header that gives a value: a single one, or the first of several. */
  predicate Gives(header: Header, value: string) {
    header == One(value) || (header.Many? && header.values != [] && header.values[0] == value)
  }

  predicate GivesNothing(header: Header) {
    header == Absent || header == Many([])
  }

  /** The first header that gives anything gives this value; an empty value hides the headers behind it. */
  predicate Supplied(headers: seq<Header>, value: string) {
    exists i :: 0 <= i < |headers| && Gives(headers[i], value) && forall j | 0 <= j < i :: GivesNothing(headers[j])
  }

  /** A signature is there: neither empty nor only the prefix. */
  ghost predicate HasSignature(r: Request) {
    exists value :: Supplied(r.signatures, value) && value != "" && value != "sha256="
  }

  predicate HasKey(r: Request, key: string) {
    key != "" && Supplied(r.keys, key)
  }

  /** A key is there, and it is stored, or not. */
  ghost predicate KeyThat(r: Request, store: set<string>, stored: bool) {
    exists key :: HasKey(r, key) && (key in store) == stored
  }

  lemma {:induction false} SuppliedIsFirst(headers: seq<Header>, value: string)
    ensures FirstDefined(headers) == Some(value) <==> Supplied(headers, value)
  {
    if headers != [] {
      var h := headers[0];
      SuppliedIsFirst(headers[1..], value);
      if GivesNothing(h) {
        if Supplied(headers[1..], value) {
          var i :| 0 <= i < |headers[1..]| && Gives(headers[1..][i], value) && forall j | 0 <= j < i :: GivesNothing(headers[1..][j]);
          assert Gives(headers[i + 1], value);
          forall j | 0 <= j < i + 1 ensures GivesNothing(headers[j]) {
            assert j > 0 ==> headers[j] == headers[1..][j - 1];
          }
        }
        if Supplied(headers, value) {
          var i :| 0 <= i < |headers| && Gives(headers[i], value) && forall j | 0 <= j < i :: GivesNothing(headers[j]);
          assert Gives(headers[1..][i - 1], value);
          forall j | 0 <= j < i - 1 ensures GivesNothing(headers[1..][j]) {
            assert headers[1..][j] == headers[j + 1];
          }
        }
      }
    }
  }

  lemma SignatureIs(r: Request)
    ensures Signature(r.signatures).Some? <==> HasSignature(r)
  {
    hide FirstDefined, Supplied;
    if FirstDefined(r.signatures).Some? {
      var value := FirstDefined(r.signatures).value;
      SuppliedIsFirst(r.signatures, value);
      if SIGNATURE_PREFIX <= value {
        assert value[|SIGNATURE_PREFIX|..] == "" ==> value == SIGNATURE_PREFIX;
      }
    }
    forall value | Supplied(r.signatures, value) ensures FirstDefined(r.signatures) == Some(value) {
      SuppliedIsFirst(r.signatures, value);
    }
  }

  lemma KeyIs(r: Request, key: string)
    ensures IdempotencyKey(r.keys) == Some(key) <==> HasKey(r, key)
  {
    hide FirstDefined, Supplied;
    SuppliedIsFirst(r.keys, key);
  }

  /** Which answer a request gets, told by its headers, its body and the store. */
  ghost predicate Answered(store: set<string>, r: Request, reply: Reply) {
    var passes := HasSignature(r) && KeyThat(r, store, false);
    && (reply == MissingSignature <==> !HasSignature(r))
    && (reply == MissingKey <==> HasSignature(r) && !KeyThat(r, store, true) && !KeyThat(r, store, false))
    && (reply == Duplicate <==> HasSignature(r) && KeyThat(r, store, true))
    && (reply == InvalidSignature <==> passes && !r.signed)
    && (reply == BadPayload <==> passes && r.signed && r.body != Object)
  }

  /** A refusal says which of the five checks failed first, and every request that fails one is refused. */
  lemma RefusalMeans(store: set<string>, r: Request, key: string)
    ensures match Check(store, r)
            case Answer(reply) => Answered(store, r, reply) && !reply.Accepted? && reply != EnqueueFailed
            case Go(k) => HasSignature(r) && HasKey(r, k) && k !in store && r.signed && r.body == Object
    ensures HasSignature(r) && HasKey(r, key) && key !in store && r.signed && r.body == Object ==> Check(store, r) == Go(key)
  {
    hide Signature, IdempotencyKey, HasSignature, HasKey;
    SignatureIs(r);
    KeyIs(r, key);
    forall k ensures IdempotencyKey(r.keys) == Some(k) <==> HasKey(r, k) {
      KeyIs(r, k);
    }
    if IdempotencyKey(r.keys).Some? {
      var k := IdempotencyKey(r.keys).value;
      assert HasKey(r, k);
      assert KeyThat(r, store, k in store);
    }
  }

  datatype Move = Arrive(id: nat, request: Request) | Settle(settled: nat, ok: bool)

  /** The handler up to the await. */
  function ArriveStep(w: World, id: nat, r: Request): World {
    if id in w.waiting then w else
      match Check(w.store, r)
      case Answer(_) => w
      case Go(key) => w.(waiting := w.waiting[id := (r, key)], started := w.started + [key])
  }

  /** The rest of the handler, once the forward has come back. */
  function SettleStep(w: World, id: nat, ok: bool): World {
    if id !in w.waiting then w else
      var (r, key) := w.waiting[id];
      World(if ok then w.store + {key} else w.store, w.waiting - {id}, w.started, w.settled + [Forward(r, key, ok)])
  }

  function Step(w: World, m: Move): World {
    match m
    case Arrive(id, request) => ArriveStep(w, id, request)
    case Settle(id, ok) => SettleStep(w, id, ok)
  }

  function Run(w: World, moves: seq<Move>): World {
    if moves == [] then w else
      var n := |moves| - 1;
      Step(Run(w, moves[..n]), moves[n])
  }

  // ---------------------------------------------------------------- any interleaving

  function Successes(settled: seq<Forward>, key: string): nat {
    if settled == [] then 0 else
      var n := |settled| - 1;
      Successes(settled[..n], key) + if settled[n].key == key && settled[n].ok then 1 else 0
  }

  function Starts(started: seq<string>, key: string): nat {
    if started == [] then 0 else
      var n := |started| - 1;
      Starts(started[..n], key) + if started[n] == key then 1 else 0
  }

  lemma SuccessesSnoc(settled: seq<Forward>, f: Forward, key: string)
    ensures Successes(settled + [f], key) == Successes(settled, key) + if f.key == key && f.ok then 1 else 0
  {
    assert (settled + [f])[..|settled|] == settled;
  }

  lemma StartsSnoc(started: seq<string>, k: string, key: string)
    ensures Starts(started + [k], key) == Starts(started, key) + if k == key then 1 else 0
  {
    assert (started + [k])[..|started|] == started;
  }

  /** Only valid requests are forwarded, and a key is stored exactly when a forward with it has succeeded. */
  ghost predicate Inv(w: World) {
    && (forall id | id in w.waiting :: Valid(w.waiting[id].0, w.waiting[id].1))
    && (forall f | f in w.settled :: Valid(f.request, f.key))
    && (forall key :: key in w.store <==> Successes(w.settled, key) >= 1)
  }

  lemma StepKeeps(w: World, m: Move)
    requires Inv(w)
    ensures Inv(Step(w, m))
  {
    hide Successes, Signature, IdempotencyKey;
    match m
    case Arrive(id, r) =>
    case Settle(id, ok) =>
      if id in w.waiting {
        var f := Forward(w.waiting[id].0, w.waiting[id].1, ok);
        forall key ensures Successes(w.settled + [f], key) == Successes(w.settled, key) + if f.key == key && f.ok then 1 else 0 {
          SuccessesSnoc(w.settled, f, key);
        }
      }
  }

  lemma EmptyInv()
    ensures Inv(EMPTY)
  {
  }

  lemma {:induction false} RunInv(moves: seq<Move>)
    ensures Inv(Run(EMPTY, moves))
  {
    hide Inv, Step;
    if moves == [] {
      EmptyInv();
    } else {
      var n := |moves| - 1;
      RunInv(moves[..n]);
      StepKeeps(Run(EMPTY, moves[..n]), moves[n]);
    }
  }

  lemma {:induction false} SuccessWitness(settled: seq<Forward>, key: string)
    ensures Successes(settled, key) >= 1 <==> exists f :: f in settled && f.key == key && f.ok
  {
    if settled != [] {
      var n := |settled| - 1;
      SuccessWitness(settled[..n], key);
      assert settled == settled[..n] + [settled[n]];
      if Successes(settled, key) >= 1 && !(settled[n].key == key && settled[n].ok) {
        var f :| f in settled[..n] && f.key == key && f.ok;
        assert f in settled;
      }
    }
  }

  /** In every interleaving, each stored key came from a signed object payload whose forward succeeded. */
  lemma StoredKeysAreEarned(moves: seq<Move>, key: string)
    ensures var w := Run(EMPTY, moves);
            key in w.store <==> exists f :: f in w.settled && f.key == key && f.ok && Valid(f.request, key)
  {
    hide Run, Valid, Successes;
    RunInv(moves);
    SuccessWitness(Run(EMPTY, moves).settled, key);
  }

  lemma StoreGrows(w: World, m: Move, key: string)
    requires key in w.store
    ensures key in Step(w, m).store && Starts(Step(w, m).started, key) == Starts(w.started, key)
  {
    hide Starts, Signature, IdempotencyKey;
    match m
    case Arrive(id, r) =>
      if id !in w.waiting && Check(w.store, r).Go? {
        StartsSnoc(w.started, Check(w.store, r).key, key);
      }
    case Settle(_, _) =>
  }

  /** Once a key is recorded, no request that checks it later is forwarded. */
  lemma {:induction false} RecordedIsFinal(moves: seq<Move>, more: seq<Move>, key: string)
    requires key in Run(EMPTY, moves).store
    ensures var w, w' := Run(EMPTY, moves), Run(EMPTY, moves + more);
            key in w'.store && Starts(w'.started, key) == Starts(w.started, key)
  {
    hide Step, Starts;
    if more == [] {
      assert moves + more == moves;
    } else {
      var n := |more| - 1;
      RecordedIsFinal(moves, more[..n], key);
      assert moves + more == moves + more[..n] + [more[n]];
      assert (moves + more)[..|moves| + n] == moves + more[..n];
      StoreGrows(Run(EMPTY, moves + more[..n]), more[n], key);
    }
  }

  // ---------------------------------------------------------------- how often a key is forwarded successfully

  function InFlight(w: World, key: string): set<nat> {
    set id | id in w.waiting && w.waiting[id].1 == key
  }

  /** A request with `key` is forwarded while another one is. */
  predicate Overlaps(w: World, m: Move, key: string) {
    m.Arrive? && m.id !in w.waiting && Check(w.store, m.request) == Go(key) && InFlight(w, key) != {}
  }

  /** A forward of `key` succeeds although the key is stored by then. */
  predicate Late(w: World, m: Move, key: string) {
    m.Settle? && m.ok && m.settled in w.waiting && w.waiting[m.settled].1 == key && key in w.store
  }

  function Overlapping(moves: seq<Move>, key: string): nat {
    if moves == [] then 0 else
      var n := |moves| - 1;
      Overlapping(moves[..n], key) + if Overlaps(Run(EMPTY, moves[..n]), moves[n], key) then 1 else 0
  }

  function LateSuccesses(moves: seq<Move>, key: string): nat {
    if moves == [] then 0 else
      var n := |moves| - 1;
      LateSuccesses(moves[..n], key) + if Late(Run(EMPTY, moves[..n]), moves[n], key) then 1 else 0
  }

  function Stored(w: World, key: string): nat {
    if key in w.store then 1 else 0
  }

  lemma ArriveFlights(w: World, id: nat, r: Request, key: string)
    ensures var w' := ArriveStep(w, id, r);
            InFlight(w', key) == if id !in w.waiting && Check(w.store, r) == Go(key) then InFlight(w, key) + {id} else InFlight(w, key)
  {
    hide Signature, IdempotencyKey;
  }

  lemma SettleFlights(w: World, id: nat, ok: bool, key: string)
    ensures InFlight(SettleStep(w, id, ok), key) == InFlight(w, key) - {id}
    ensures id in InFlight(w, key) <==> id in w.waiting && w.waiting[id].1 == key
  {
  }

  lemma SettleSuccesses(w: World, id: nat, ok: bool, key: string)
    ensures var mine := id in w.waiting && w.waiting[id].1 == key;
            && Successes(SettleStep(w, id, ok).settled, key) == Successes(w.settled, key) + (if mine && ok then 1 else 0)
            && (key in SettleStep(w, id, ok).store <==> key in w.store || (mine && ok))
  {
    hide Successes;
    if id in w.waiting {
      SuccessesSnoc(w.settled, Forward(w.waiting[id].0, w.waiting[id].1, ok), key);
    }
  }

  lemma ArriveSuccesses(w: World, id: nat, r: Request, key: string)
    ensures ArriveStep(w, id, r).settled == w.settled && ArriveStep(w, id, r).store == w.store
    ensures Check(w.store, r) == Go(key) ==> key !in w.store
  {
    hide Signature, IdempotencyKey;
  }

  lemma StepCounts(w: World, m: Move, key: string)
    ensures var w' := Step(w, m);
            Successes(w'.settled, key) - Stored(w', key) ==
            Successes(w.settled, key) - Stored(w, key) + (if Late(w, m, key) then 1 else 0)
  {
    hide Successes, ArriveStep, SettleStep, Check;
    match m
    case Arrive(id, r) => ArriveSuccesses(w, id, r, key);
    case Settle(id, ok) => SettleSuccesses(w, id, ok, key);
  }

  lemma StepBounds(w: World, m: Move, key: string, overlaps: nat)
    requires key in w.store <==> Successes(w.settled, key) >= 1
    requires Successes(w.settled, key) + |InFlight(w, key)| <= 1 + overlaps
    ensures var w' := Step(w, m);
            Successes(w'.settled, key) + |InFlight(w', key)| <= 1 + overlaps + (if Overlaps(w, m, key) then 1 else 0)
  {
    hide Successes, ArriveStep, SettleStep, Check, InFlight;
    match m
    case Arrive(id, r) =>
      ArriveSuccesses(w, id, r, key);
      ArriveFlights(w, id, r, key);
    case Settle(id, ok) =>
      SettleSuccesses(w, id, ok, key);
      SettleFlights(w, id, ok, key);
  }

  lemma NothingYet(key: string)
    ensures Successes(EMPTY.settled, key) == 0 && InFlight(EMPTY, key) == {} && Stored(EMPTY, key) == 0
  {
  }

  /**
    * In every run a key is forwarded successfully once if it is stored, and once more for every success that came
    * when it was stored already. So it is at most once exactly when no success came late.
    */
  lemma {:induction false} SuccessesExact(moves: seq<Move>, key: string)
    ensures var w := Run(EMPTY, moves); Successes(w.settled, key) == Stored(w, key) + LateSuccesses(moves, key)
    ensures Successes(Run(EMPTY, moves).settled, key) <= 1 <==> LateSuccesses(moves, key) == 0
  {
    hide Step, Successes, Late, Inv;
    RunInv(moves);
    StoredIffSucceeded(Run(EMPTY, moves), key);
    if moves == [] {
      NothingYet(key);
    } else {
      var n := |moves| - 1;
      var w := Run(EMPTY, moves[..n]);
      SuccessesExact(moves[..n], key);
      StepCounts(w, moves[n], key);
    }
  }

  /** And successes and forwards under way never outnumber the requests forwarded while another one was by more than one. */
  lemma {:induction false} SuccessesBounded(moves: seq<Move>, key: string)
    ensures var w := Run(EMPTY, moves);
            Successes(w.settled, key) + |InFlight(w, key)| <= 1 + Overlapping(moves, key)
  {
    hide Step, Successes, Overlaps, InFlight, Inv;
    if moves == [] {
      NothingYet(key);
    } else {
      var n := |moves| - 1;
      var w := Run(EMPTY, moves[..n]);
      SuccessesBounded(moves[..n], key);
      RunInv(moves[..n]);
      StoredIffSucceeded(w, key);
      StepBounds(w, moves[n], key, Overlapping(moves[..n], key));
    }
  }

  lemma StoredIffSucceeded(w: World, key: string)
    requires Inv(w)
    ensures key in w.store <==> Successes(w.settled, key) >= 1
  {
  }

  /** With one request of a key at a time, the key is forwarded successfully at most once. */
  lemma ForwardedAtMostOnce(moves: seq<Move>, key: string)
    requires forall i | 0 <= i < |moves| :: !Overlaps(Run(EMPTY, moves[..i]), moves[i], key)
    ensures Successes(Run(EMPTY, moves).settled, key) <= 1 && LateSuccesses(moves, key) == 0
  {
    hide Run, Successes, Overlaps;
    NoneOverlapping(moves, key);
    SuccessesBounded(moves, key);
    SuccessesExact(moves, key);
  }

  lemma {:induction false} NoneOverlapping(moves: seq<Move>, key: string)
    requires forall i | 0 <= i < |moves| :: !Overlaps(Run(EMPTY, moves[..i]), moves[i], key)
    ensures Overlapping(moves, key) == 0
  {
    hide Run, Overlaps;
    if moves != [] {
      var n := |moves| - 1;
      forall i | 0 <= i < n ensures !Overlaps(Run(EMPTY, moves[..n][..i]), moves[..n][i], key) {
        assert moves[..n][..i] == moves[..i];
      }
      NoneOverlapping(moves[..n], key);
    }
  }

  /**
    * That is needed in every state with a forward under way: a second valid request with its key overlaps, and both
    * can be forwarded successfully, the second one late.
    */
  lemma OverlapForwardsTwice(w: World, a: nat, b: nat, r: Request, key: string)
    requires a in w.waiting && w.waiting[a].1 == key && key !in w.store && b !in w.waiting && Valid(r, key)
    ensures var after := Step(Step(Step(w, Arrive(b, r)), Settle(a, true)), Settle(b, true));
            && Overlaps(w, Arrive(b, r), key)
            && Late(Step(Step(w, Arrive(b, r)), Settle(a, true)), Settle(b, true), key)
            && Successes(after.settled, key) == Successes(w.settled, key) + 2
  {
    hide Successes, Signature, IdempotencyKey;
    assert a in InFlight(w, key);
    var f, g := Forward(w.waiting[a].0, key, true), Forward(r, key, true);
    GoIffValid(w.store, r, key);
    SuccessesSnoc(w.settled, f, key);
    SuccessesSnoc(w.settled + [f], g, key);
  }

  /** A failed forward records nothing, and a later valid request with the key is forwarded again. */
  lemma FailureIsRetryable(w: World, id: nat, r: Request, again: nat)
    requires id in w.waiting && w.waiting[id].1 !in w.store && Valid(r, w.waiting[id].1) && (again == id || again !in w.waiting)
    ensures var key, failed := w.waiting[id].1, Step(w, Settle(id, false));
            && failed.store == w.store
            && again !in failed.waiting
            && Step(failed, Arrive(again, r)).started == w.started + [key]
            && Step(Step(failed, Arrive(again, r)), Settle(again, true)).store == w.store + {key}
  {
    hide Signature, IdempotencyKey;
    GoIffValid(w.store, r, w.waiting[id].1);
  }

  lemma ReceiveGoes(store: set<string>, r: Request)
    ensures Check(store, r).Go? <==> HasSignature(r) && KeyThat(r, store, false) && r.signed && r.body == Object
  {
    hide Check, HasSignature, HasKey, Answered;
    RefusalMeans(store, r, "");
    if HasSignature(r) && KeyThat(r, store, false) && r.signed && r.body == Object {
      var key :| HasKey(r, key) && key !in store;
      RefusalMeans(store, r, key);
    }
  }

  // ---------------------------------------------------------------- the store in place

  class InMemoryStore {
    var keys: set<string>
    var waiting: map<nat, (Request, string)>
    ghost var started: seq<string>
    ghost var settled: seq<Forward>

    ghost function State(): World
      reads this
    {
      World(keys, waiting, started, settled)
    }

    constructor ()
      ensures State() == EMPTY
    {
      keys, waiting, started, settled := {}, map[], [], [];
    }

    /** The handler up to its await; `None` means the forward is under way. */
    method Receive(id: nat, r: Request) returns (reply: Option<Reply>)
      requires id !in waiting
      modifies this
      ensures State() == Step(old(State()), Arrive(id, r))
      ensures reply.Some? ==> Answered(old(keys), r, reply.value) && State() == old(State())
      ensures reply == None <==> HasSignature(r) && KeyThat(r, old(keys), false) && r.signed && r.body == Object
      ensures reply == None ==> id in waiting && waiting[id].0 == r && HasKey(r, waiting[id].1) && waiting[id].1 !in old(keys)
    {
      hide Answered, HasSignature, HasKey;
      RefusalMeans(keys, r, "");
      ReceiveGoes(keys, r);
      if Signature(r.signatures) == None {
        return Some(MissingSignature);
      }
      if IdempotencyKey(r.keys) == None {
        return Some(MissingKey);
      }
      var key := IdempotencyKey(r.keys).value;
      if key in keys {
        return Some(Duplicate);
      }
      if !r.signed {
        return Some(InvalidSignature);
      }
      if r.body != Object {
        return Some(BadPayload);
      }
      waiting := waiting[id := (r, key)];
      started := started + [key];
      return None;
    }

    /** The handler after its await. */
    method Finish(id: nat, ok: bool) returns (reply: Reply)
      requires id in waiting
      modifies this
      ensures State() == Step(old(State()), Settle(id, ok))
      ensures reply == if ok then Accepted(old(waiting)[id].1) else EnqueueFailed
    {
      var (r, key) := waiting[id];
      if ok {
        keys := keys + {key};
        reply := Accepted(key);
      } else {
        reply := EnqueueFailed;
      }
      waiting := waiting - {id};
      settled := settled + [Forward(r, key, ok)];
    }
  }
}

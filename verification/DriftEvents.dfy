/**
  * Publishing drift events with bounded retries, the dead-letter rows of those that failed, and their replay:
  * a replay reads its row, publishes, then updates the row and reads it again, so replays can overlap.
  */
module DriftEvents {
  import opened Options

  datatype Status = PENDING | REPLAYED

  /** A row of `drift_event_dlq`, keyed by its unique event id. */
  datatype Letter = Letter(status: Status, attempts: nat)

  /** A replay that has read its row: it is publishing, or has updated the row after it got through or failed. */
  datatype Stage = Publishing | Updated(ok: bool)

  datatype Replay = Replay(event: string, stage: Stage)

  /**
    * `open_` holds the replays under way; `gauge` is `DRIFT_EVENT_DLQ_SIZE`. History: `turned` are the replays
    * under way whose update took the row from PENDING to REPLAYED, `published` the deliveries that got through,
    * `failures` the failed tasks and failed replays.
    */
  datatype World = World(letters: map<string, Letter>, gauge: int, open_: map<nat, Replay>, turned: set<nat>,
                         published: seq<string>, failures: seq<string>)

  const EMPTY := World(map[], 0, map[], {}, [], [])

  datatype Move =
    | Task(event: string, respond: nat -> bool, retries: int)
    | ReplayStart(call: nat, letter: string)
    | ReplayUpdate(updating: nat, ok: bool)
    | ReplayRead(closing: nat)

  // ---------------------------------------------------------------- publishing

  datatype Outcome = Published(calls: nat) | Raised | Skipped

  /** `publish_with_retry` from attempt `from` on. */
  function Publish(respond: nat -> bool, from: nat, retries: int): Outcome
    decreases retries - from
  {
    if from > retries then Skipped
    else if respond(from) then Published(from)
    else if from == retries then Raised
    else Publish(respond, from + 1, retries)
  }

  /** The outcome names the first call that got through; it is an error only after `retries` failed calls. */
  lemma {:induction false} PublishOutcome(respond: nat -> bool, from: nat, retries: int)
    ensures match Publish(respond, from, retries)
            case Published(k) => from <= k <= retries && respond(k) && forall i: nat | from <= i < k :: !respond(i)
            case Raised => from <= retries && forall i: nat | from <= i <= retries :: !respond(i)
            case Skipped => from > retries
    decreases retries - from
  {
    if from < retries && !respond(from) {
      PublishOutcome(respond, from + 1, retries);
    }
  }

  /** `publish_with_retry` as its loop; `raised` is the exception of the last attempt. */
  method PublishWithRetry(respond: nat -> bool, retries: int) returns (outcome: Outcome)
    ensures outcome == Publish(respond, 1, retries)
  {
    var attempt := 1;
    while attempt <= retries
      invariant attempt >= 1 && (attempt <= retries || attempt == 1)
      invariant Publish(respond, 1, retries) == Publish(respond, attempt, retries)
    {
      if respond(attempt) {
        return Published(attempt);
      }
      if attempt == retries {
        return Raised;
      }
      attempt := attempt + 1;
    }
    return Skipped;
  }

  // ---------------------------------------------------------------- steps

  /** `record_event_failure`: a first failure opens a row, a later one only counts up; the status stays. */
  function Recorded(w: World, event: string): World {
    if event in w.letters then
      var l := w.letters[event];
      w.(letters := w.letters[event := l.(attempts := l.attempts + 1)], failures := w.failures + [event])
    else
      w.(letters := w.letters[event := Letter(PENDING, 1)], gauge := w.gauge + 1, failures := w.failures + [event])
  }

  /** The background task of `publish_fire_and_forget`, run to its end. */
  function TaskStep(w: World, event: string, respond: nat -> bool, retries: int): World {
    match Publish(respond, 1, retries)
    case Published(_) => w.(published := w.published + [event])
    case Raised => Recorded(w, event)
    case Skipped => w
  }

  /** The read at the head of `replay_event_dlq`; a missing or replayed row ends the call there. */
  function StartStep(w: World, call: nat, event: string): World {
    if call !in w.open_ && event in w.letters && w.letters[event].status == PENDING
    then w.(open_ := w.open_[call := Replay(event, Publishing)]) else w
  }

  predicate AtStage(w: World, call: nat, publishing: bool) {
    call in w.open_ && w.open_[call].event in w.letters && w.open_[call].stage.Publishing? == publishing
  }

  /** The publish and the update of the row, which asks for no particular status. */
  function UpdateStep(w: World, call: nat, ok: bool): World {
    if !AtStage(w, call, true) then w else
      var event := w.open_[call].event;
      var l := w.letters[event];
      var next := w.(open_ := w.open_[call := Replay(event, Updated(ok))]);
      if ok then
        next.(letters := w.letters[event := l.(status := REPLAYED)], published := w.published + [event],
              turned := if l.status == PENDING then w.turned + {call} else w.turned)
      else
        next.(letters := w.letters[event := Letter(PENDING, l.attempts + 1)], failures := w.failures + [event])
  }

  /** The second read; the gauge drops when it finds the row REPLAYED. */
  function ReadStep(w: World, call: nat): World {
    if !AtStage(w, call, false) then w else
      w.(gauge := if w.letters[w.open_[call].event].status == REPLAYED then w.gauge - 1 else w.gauge,
         open_ := w.open_ - {call}, turned := w.turned - {call})
  }

  function Step(w: World, m: Move): World {
    match m
    case Task(event, respond, retries) => TaskStep(w, event, respond, retries)
    case ReplayStart(call, letter) => StartStep(w, call, letter)
    case ReplayUpdate(call, ok) => UpdateStep(w, call, ok)
    case ReplayRead(call) => ReadStep(w, call)
  }

  function Run(w: World, moves: seq<Move>): World {
    if moves == [] then w else
      var n := |moves| - 1;
      Step(Run(w, moves[..n]), moves[n])
  }

  // ---------------------------------------------------------------- what every run keeps

  function Pending(letters: map<string, Letter>): set<string> {
    set e | e in letters && letters[e].status == PENDING
  }

  function Failures(failures: seq<string>, event: string): nat {
    if failures == [] then 0 else
      var n := |failures| - 1;
      Failures(failures[..n], event) + if failures[n] == event then 1 else 0
  }

  lemma FailuresSnoc(failures: seq<string>, f: string, event: string)
    ensures Failures(failures + [f], event) == Failures(failures, event) + if f == event then 1 else 0
  {
    assert (failures + [f])[..|failures|] == failures;
  }

  /** A row exists exactly for the events that failed, with their number of failures; a replayed one was published. */
  ghost predicate Counted(w: World) {
    && (forall e :: Failures(w.failures, e) == if e in w.letters then w.letters[e].attempts else 0)
    && (forall e | e in w.letters :: w.letters[e].attempts >= 1)
    && (forall e | e in w.letters && w.letters[e].status == REPLAYED :: e in w.published)
  }

  ghost predicate OpenOk(w: World) {
    && (forall c | c in w.open_ :: w.open_[c].event in w.letters)
    && (forall c | c in w.turned :: c in w.open_ && w.open_[c].stage.Updated?)
  }

  ghost predicate Inv(w: World) {
    Counted(w) && OpenOk(w)
  }

  /** How a step can upset the gauge. */
  datatype Stray =
    | Undo    // a failed replay takes a REPLAYED row back to PENDING
    | Extra   // a second read finds REPLAYED what its own update has not turned
    | Missed  // a second read no longer finds REPLAYED what its own update has turned

  predicate IsStray(kind: Stray, w: World, m: Move) {
    match m
    case ReplayUpdate(call, ok) =>
      kind == Undo && AtStage(w, call, true) && !ok && w.letters[w.open_[call].event].status == REPLAYED
    case ReplayRead(call) =>
      AtStage(w, call, false)
      && var replayed := w.letters[w.open_[call].event].status == REPLAYED;
         (kind == Extra && replayed && call !in w.turned) || (kind == Missed && !replayed && call in w.turned)
    case _ => false
  }

  function Bit(b: bool): nat {
    if b then 1 else 0
  }

  /** How often it happens in a run. */
  function Strays(kind: Stray, moves: seq<Move>): nat {
    if moves == [] then 0 else
      var n := |moves| - 1;
      Strays(kind, moves[..n]) + Bit(IsStray(kind, Run(EMPTY, moves[..n]), moves[n]))
  }

  /** The gauge against the rows that are pending and the replays about to count theirs as replayed. */
  ghost function Excess(w: World): int {
    w.gauge - |Pending(w.letters)| - |w.turned|
  }

  lemma RecordedCounted(w: World, event: string)
    requires Counted(w)
    ensures Counted(Recorded(w, event))
  {
    hide Failures;
    var w' := Recorded(w, event);
    forall e ensures Failures(w'.failures, e) == if e in w'.letters then w'.letters[e].attempts else 0 {
      FailuresSnoc(w.failures, event, e);
    }
  }

  lemma SamePending(letters: map<string, Letter>, event: string, l: Letter)
    requires event in letters && letters[event].status == l.status
    ensures Pending(letters[event := l]) == Pending(letters)
  {
  }

  lemma OneMorePending(letters: map<string, Letter>, event: string, l: Letter)
    requires (event in letters ==> letters[event].status == REPLAYED) && l.status == PENDING
    ensures |Pending(letters[event := l])| == |Pending(letters)| + 1
  {
    assert Pending(letters[event := l]) == Pending(letters) + {event};
  }

  lemma OneFewerPending(letters: map<string, Letter>, event: string, l: Letter)
    requires event in letters && letters[event].status == PENDING && l.status == REPLAYED
    ensures |Pending(letters[event := l])| == |Pending(letters)| - 1
  {
    assert Pending(letters) == Pending(letters[event := l]) + {event};
  }

  lemma RecordedExcess(w: World, event: string)
    ensures Excess(Recorded(w, event)) == Excess(w)
  {
    hide Pending;
    if event in w.letters {
      SamePending(w.letters, event, w.letters[event].(attempts := w.letters[event].attempts + 1));
    } else {
      OneMorePending(w.letters, event, Letter(PENDING, 1));
    }
  }

  lemma RecordedOpen(w: World, event: string)
    requires OpenOk(w)
    ensures OpenOk(Recorded(w, event))
  {
  }

  lemma UpdateCounted(w: World, call: nat, ok: bool)
    requires Inv(w)
    ensures Counted(UpdateStep(w, call, ok))
  {
    hide Failures;
    if AtStage(w, call, true) {
      var event := w.open_[call].event;
      forall e ensures Failures(w.failures + [event], e) == Failures(w.failures, e) + if e == event then 1 else 0 {
        FailuresSnoc(w.failures, event, e);
      }
    }
  }

  lemma UpdateOpen(w: World, call: nat, ok: bool)
    requires OpenOk(w)
    ensures OpenOk(UpdateStep(w, call, ok))
  {
  }

  lemma UpdateExcess(w: World, call: nat, ok: bool)
    requires OpenOk(w)
    ensures Excess(UpdateStep(w, call, ok)) == Excess(w) - Bit(IsStray(Undo, w, ReplayUpdate(call, ok)))
  {
    hide Pending;
    if AtStage(w, call, true) {
      var event := w.open_[call].event;
      var l := w.letters[event];
      assert call !in w.turned;
      if ok {
        if l.status == PENDING {
          OneFewerPending(w.letters, event, l.(status := REPLAYED));
        } else {
          SamePending(w.letters, event, l.(status := REPLAYED));
        }
      } else if l.status == PENDING {
        SamePending(w.letters, event, Letter(PENDING, l.attempts + 1));
      } else {
        OneMorePending(w.letters, event, Letter(PENDING, l.attempts + 1));
      }
    }
  }

  lemma ReadKeeps(w: World, call: nat)
    requires Inv(w)
    ensures Inv(ReadStep(w, call))
  {
    hide Counted;
    CountedSame(w, ReadStep(w, call));
  }

  lemma ReadExcess(w: World, call: nat)
    ensures var m := ReplayRead(call);
            Excess(ReadStep(w, call)) == Excess(w) - Bit(IsStray(Extra, w, m)) + Bit(IsStray(Missed, w, m))
  {
    hide Pending;
    if call in w.turned {
      assert |w.turned - {call}| == |w.turned| - 1;
    } else {
      assert w.turned - {call} == w.turned;
    }
  }

  lemma CountedSame(w: World, w': World)
    requires Counted(w) && w'.letters == w.letters && w'.failures == w.failures && w'.published == w.published
    ensures Counted(w')
  {
    hide Failures;
  }

  lemma PublishedKeeps(w: World, event: string)
    requires Inv(w)
    ensures Inv(w.(published := w.published + [event]))
  {
    hide Failures;
  }

  lemma TaskKeeps(w: World, event: string, respond: nat -> bool, retries: int)
    requires Inv(w)
    ensures Inv(TaskStep(w, event, respond, retries)) && Excess(TaskStep(w, event, respond, retries)) == Excess(w)
  {
    hide Counted, OpenOk, Recorded, Pending, Publish;
    RecordedCounted(w, event);
    RecordedOpen(w, event);
    RecordedExcess(w, event);
    PublishedKeeps(w, event);
  }

  lemma StartKeeps(w: World, call: nat, letter: string)
    requires Inv(w)
    ensures Inv(StartStep(w, call, letter)) && Excess(StartStep(w, call, letter)) == Excess(w)
  {
    hide Counted, Pending;
    CountedSame(w, StartStep(w, call, letter));
  }

  /** Every step keeps the counts, and moves the gauge against them only by going astray. */
  lemma StepKeeps(w: World, m: Move)
    requires Inv(w)
    ensures Inv(Step(w, m))
    ensures Excess(Step(w, m)) ==
            Excess(w) - Bit(IsStray(Undo, w, m)) - Bit(IsStray(Extra, w, m)) + Bit(IsStray(Missed, w, m))
  {
    hide Counted, OpenOk, Excess, TaskStep, StartStep, UpdateStep, ReadStep, AtStage;
    match m
    case Task(event, respond, retries) =>
      TaskKeeps(w, event, respond, retries);
    case ReplayStart(call, letter) =>
      StartKeeps(w, call, letter);
    case ReplayUpdate(call, ok) =>
      UpdateCounted(w, call, ok);
      UpdateOpen(w, call, ok);
      UpdateExcess(w, call, ok);
    case ReplayRead(call) =>
      ReadKeeps(w, call);
      ReadExcess(w, call);
  }

  lemma EmptyInv()
    ensures Inv(EMPTY) && Excess(EMPTY) == 0
  {
    assert Pending(map[]) == {};
  }

  lemma {:induction false} RunKeeps(moves: seq<Move>)
    ensures Inv(Run(EMPTY, moves))
    ensures Excess(Run(EMPTY, moves)) == Strays(Missed, moves) - Strays(Undo, moves) - Strays(Extra, moves)
  {
    hide Inv, Step, Excess, IsStray;
    if moves == [] {
      EmptyInv();
    } else {
      var n := |moves| - 1;
      RunKeeps(moves[..n]);
      StepKeeps(Run(EMPTY, moves[..n]), moves[n]);
    }
  }

  // ---------------------------------------------------------------- main results, for every run

  /**
    * In every run, however its replays overlap: a row exists exactly for the events that failed, its count is the
    * number of failures, and a replayed row was published.
    */
  lemma LettersCounted(moves: seq<Move>)
    ensures var w := Run(EMPTY, moves);
            && (forall e :: e in w.letters <==> e in w.failures)
            && (forall e | e in w.letters :: w.letters[e].attempts == Failures(w.failures, e))
            && (forall e | e in w.letters && w.letters[e].status == REPLAYED :: e in w.published)
  {
    hide Run, Excess;
    var w := Run(EMPTY, moves);
    RunKeeps(moves);
    forall e ensures e in w.letters <==> e in w.failures {
      FailedOnce(w.failures, e);
    }
  }

  /**
    * And the gauge is exactly this far from the number of pending rows. So while no replay stands between its
    * update and its second read it is right exactly when what the missed reads left too high makes up for what
    * the undone rows and the extra reads left too low.
    */
  lemma GaugeExact(moves: seq<Move>)
    ensures var w := Run(EMPTY, moves);
            && w.gauge + Strays(Undo, moves) + Strays(Extra, moves) == |Pending(w.letters)| + |w.turned| + Strays(Missed, moves)
            && ((forall c | c in w.open_ :: w.open_[c].stage.Publishing?) ==>
                (w.gauge == |Pending(w.letters)| <==> Strays(Undo, moves) + Strays(Extra, moves) == Strays(Missed, moves)))
  {
    hide Run, Pending, Strays, Counted;
    var w := Run(EMPTY, moves);
    RunKeeps(moves);
    if forall c | c in w.open_ :: w.open_[c].stage.Publishing? {
      assert forall c :: c !in w.turned;
      assert w.turned == {};
    }
  }

  lemma {:induction false} FailedOnce(failures: seq<string>, e: string)
    ensures Failures(failures, e) >= 1 <==> e in failures
  {
    if failures != [] {
      var n := |failures| - 1;
      FailedOnce(failures[..n], e);
      assert failures == failures[..n] + [failures[n]];
    }
  }

  /** A row, once there, stays, and its count never falls. */
  ghost predicate Grown(w: World, w': World) {
    forall e | e in w.letters :: e in w'.letters && w.letters[e].attempts <= w'.letters[e].attempts
  }

  /** And REPLAYED is for ever. */
  ghost predicate StillReplayed(w: World, w': World) {
    forall e | e in w.letters && w.letters[e].status == REPLAYED :: e in w'.letters && w'.letters[e].status == REPLAYED
  }

  /** A step keeps every row REPLAYED that is, unless it is an undo, and never when it is. */
  lemma StepOnward(w: World, m: Move)
    ensures Grown(w, Step(w, m))
    ensures StillReplayed(w, Step(w, m)) <==> !IsStray(Undo, w, m)
  {
    hide Publish;
    if m.ReplayUpdate? && IsStray(Undo, w, m) {
      var event := w.open_[m.updating].event;
      assert w.letters[event].status == REPLAYED && Step(w, m).letters[event].status == PENDING;
    }
  }

  lemma RunSnoc(w: World, moves: seq<Move>, m: Move)
    ensures Run(w, moves + [m]) == Step(Run(w, moves), m)
  {
    hide Step;
    assert (moves + [m])[..|moves|] == moves;
  }

  ghost predicate NeverUndone(moves: seq<Move>) {
    forall i | 0 <= i < |moves| :: !IsStray(Undo, Run(EMPTY, moves[..i]), moves[i])
  }

  ghost predicate AlwaysOnward(moves: seq<Move>) {
    forall i, j | 0 <= i <= j <= |moves| :: StillReplayed(Run(EMPTY, moves[..i]), Run(EMPTY, moves[..j]))
  }

  lemma RunTake(moves: seq<Move>, j: nat)
    requires j < |moves|
    ensures Run(EMPTY, moves[..j + 1]) == Step(Run(EMPTY, moves[..j]), moves[j])
  {
    assert moves[..j + 1] == moves[..j] + [moves[j]];
    RunSnoc(EMPTY, moves[..j], moves[j]);
  }

  lemma {:induction false} OnwardFrom(moves: seq<Move>, i: nat, j: nat)
    requires NeverUndone(moves) && i <= j <= |moves|
    ensures StillReplayed(Run(EMPTY, moves[..i]), Run(EMPTY, moves[..j]))
    decreases j - i
  {
    hide Run, Step, IsStray;
    if i < j {
      OnwardFrom(moves, i, j - 1);
      RunTake(moves, j - 1);
      StepOnward(Run(EMPTY, moves[..j - 1]), moves[j - 1]);
    }
  }

  /** In a run REPLAYED is for ever exactly when no step of it undoes a row. */
  lemma ReplayedIsPermanent(moves: seq<Move>)
    ensures AlwaysOnward(moves) <==> NeverUndone(moves)
  {
    hide Run, Step, IsStray, StillReplayed;
    if NeverUndone(moves) {
      forall i, j | 0 <= i <= j <= |moves| ensures StillReplayed(Run(EMPTY, moves[..i]), Run(EMPTY, moves[..j])) {
        OnwardFrom(moves, i, j);
      }
    } else {
      var i :| 0 <= i < |moves| && IsStray(Undo, Run(EMPTY, moves[..i]), moves[i]);
      RunTake(moves, i);
      StepOnward(Run(EMPTY, moves[..i]), moves[i]);
    }
  }

  lemma {:induction false} RowsStay(moves: seq<Move>, more: seq<Move>)
    ensures Grown(Run(EMPTY, moves), Run(EMPTY, moves + more))
  {
    hide Run, Step;
    if more == [] {
      assert moves + more == moves;
    } else {
      var n := |more| - 1;
      RowsStay(moves, more[..n]);
      assert moves + more == moves + more[..n] + [more[n]];
      RunSnoc(EMPTY, moves + more[..n], more[n]);
      StepOnward(Run(EMPTY, moves + more[..n]), more[n]);
    }
  }

  // ---------------------------------------------------------------- replays of a row one at a time

  /** No replay of a row starts while another replay of it is still open. */
  predicate Serial(w: World, m: Move) {
    m.ReplayStart? ==> forall c | c in w.open_ :: w.open_[c].event != m.letter
  }

  ghost predicate SerialRun(moves: seq<Move>) {
    forall i | 0 <= i < |moves| :: Serial(Run(EMPTY, moves[..i]), moves[i])
  }

  /** Each open replay has its row to itself, and finds it as it left it. */
  ghost predicate Alone(w: World) {
    && (forall c, d | c in w.open_ && d in w.open_ && w.open_[c].event == w.open_[d].event :: c == d)
    && (forall c | c in w.open_ :: Left(w, c))
  }

  predicate Left(w: World, c: nat)
    requires c in w.open_
  {
    var r := w.open_[c];
    r.event in w.letters
    && (w.letters[r.event].status == REPLAYED <==> r.stage == Updated(true))
    && (c in w.turned <==> r.stage == Updated(true))
  }

  lemma AloneKept(w: World, m: Move)
    requires OpenOk(w) && Alone(w) && Serial(w, m)
    ensures Alone(Step(w, m))
  {
    hide Publish;
  }

  lemma AloneNeverStrays(w: World, m: Move, kind: Stray)
    requires Alone(w)
    ensures !IsStray(kind, w, m)
  {
  }

  lemma SerialPrefix(moves: seq<Move>, n: nat)
    requires SerialRun(moves) && n <= |moves|
    ensures SerialRun(moves[..n])
  {
    hide Run, Serial;
    forall i | 0 <= i < n ensures Serial(Run(EMPTY, moves[..n][..i]), moves[..n][i]) {
      assert moves[..n][..i] == moves[..i];
    }
  }

  lemma {:induction false} SerialRunAlone(moves: seq<Move>)
    requires SerialRun(moves)
    ensures Alone(Run(EMPTY, moves)) && forall kind :: Strays(kind, moves) == 0
  {
    hide Inv, Step, Alone, Serial, IsStray;
    if moves == [] {
      NobodyOpen();
    } else {
      var n := |moves| - 1;
      var w := Run(EMPTY, moves[..n]);
      SerialPrefix(moves, n);
      SerialRunAlone(moves[..n]);
      RunKeeps(moves[..n]);
      assert OpenOk(w) by { InvOpen(w); }
      AloneKept(w, moves[n]);
      forall kind ensures !IsStray(kind, w, moves[n]) {
        AloneNeverStrays(w, moves[n], kind);
      }
    }
  }

  lemma InvOpen(w: World)
    requires Inv(w)
    ensures OpenOk(w)
  {
  }

  lemma NobodyOpen()
    ensures Alone(EMPTY)
  {
  }

  /** So while replays of one row do not overlap, the gauge is right but for replays about to count theirs. */
  lemma LettersAgree(moves: seq<Move>)
    requires SerialRun(moves)
    ensures var w := Run(EMPTY, moves);
            && w.gauge == |Pending(w.letters)| + |w.turned|
            && w.turned == set c | c in w.open_ && w.open_[c].stage == Updated(true)
            && NeverUndone(moves)
  {
    hide Run, Pending, Strays, Serial;
    var w := Run(EMPTY, moves);
    SerialRunAlone(moves);
    RunKeeps(moves);
    GaugeExact(moves);
    assert forall c :: c in w.turned <==> c in w.open_ && w.open_[c].stage == Updated(true) by {
      assert OpenOk(w);
      forall c ensures c in w.turned <==> c in w.open_ && w.open_[c].stage == Updated(true) {
        assert c in w.open_ ==> Left(w, c);
      }
    }
    forall i | 0 <= i < |moves| ensures !IsStray(Undo, Run(EMPTY, moves[..i]), moves[i]) {
      SerialPrefix(moves, i);
      SerialRunAlone(moves[..i]);
      AloneNeverStrays(Run(EMPTY, moves[..i]), moves[i], Undo);
    }
  }

  // ---------------------------------------------------------------- replays of a row that overlap

  ghost predicate OpenOn(w: World, a: nat, b: nat) {
    Inv(w) && a in w.open_ && w.open_[a].stage == Publishing && w.letters[w.open_[a].event].status == PENDING && b !in w.open_
  }

  /** A second replay of a row whose first is still open can undo it. */
  lemma OverlapUndoes(w: World, a: nat, b: nat)
    requires OpenOn(w, a, b)
    ensures var event := w.open_[a].event;
            var replayed := Step(Step(Step(w, ReplayStart(b, event)), ReplayUpdate(a, true)), ReplayRead(a));
            && replayed.letters[event].status == REPLAYED
            && IsStray(Undo, replayed, ReplayUpdate(b, false))
            && Step(replayed, ReplayUpdate(b, false)).letters[event].status == PENDING
  {
    hide Counted;
  }

  /** It can count the row twice after a success of both. */
  lemma OverlapCountsTwice(w: World, a: nat, b: nat)
    requires OpenOn(w, a, b)
    ensures var event := w.open_[a].event;
            var once := Step(Step(Step(w, ReplayStart(b, event)), ReplayUpdate(a, true)), ReplayRead(a));
            var both := Step(once, ReplayUpdate(b, true));
            IsStray(Extra, both, ReplayRead(b)) && Excess(Step(both, ReplayRead(b))) == Excess(w) - 1
  {
    hide Counted, Excess, Step, IsStray;
    var event := w.open_[a].event;
    var w1 := Step(w, ReplayStart(b, event));
    var w2 := Step(w1, ReplayUpdate(a, true));
    var w3 := Step(w2, ReplayRead(a));
    var w4 := Step(w3, ReplayUpdate(b, true));
    StepKeeps(w, ReplayStart(b, event));
    StepKeeps(w1, ReplayUpdate(a, true));
    StepKeeps(w2, ReplayRead(a));
    StepKeeps(w3, ReplayUpdate(b, true));
    StepKeeps(w4, ReplayRead(b));
    TwiceStrays(w, a, b);
  }

  lemma TwiceStrays(w: World, a: nat, b: nat)
    requires OpenOn(w, a, b)
    ensures var event := w.open_[a].event;
            var w1 := Step(w, ReplayStart(b, event));
            var w2 := Step(w1, ReplayUpdate(a, true));
            var w3 := Step(w2, ReplayRead(a));
            var w4 := Step(w3, ReplayUpdate(b, true));
            forall kind ::
              && !IsStray(kind, w, ReplayStart(b, event)) && !IsStray(kind, w1, ReplayUpdate(a, true))
              && !IsStray(kind, w2, ReplayRead(a)) && !IsStray(kind, w3, ReplayUpdate(b, true))
              && (IsStray(kind, w4, ReplayRead(b)) <==> kind == Extra)
  {
    hide Counted;
  }

  /** And it can do so after a failure and a success, though neither update found the row REPLAYED. */
  lemma OverlapCountsFailure(w: World, a: nat, b: nat)
    requires OpenOn(w, a, b)
    ensures var event := w.open_[a].event;
            var w1 := Step(w, ReplayStart(b, event));
            var w2 := Step(w1, ReplayUpdate(a, false));
            var w3 := Step(w2, ReplayUpdate(b, true));
            && w1.letters[event].status == PENDING && w2.letters[event].status == PENDING
            && IsStray(Extra, w3, ReplayRead(a)) && !IsStray(Missed, Step(w3, ReplayRead(a)), ReplayRead(b))
  {
    hide Counted;
  }

  /** Every event whose task completes was published within `retries` calls or has a row, if at least one call is allowed. */
  lemma PublishedOrBuried(w: World, event: string, respond: nat -> bool, retries: int)
    ensures var w' := TaskStep(w, event, respond, retries);
            var published := exists k: nat :: 1 <= k <= retries && respond(k);
            && (published <==> w'.published == w.published + [event])
            && (published || event in w'.letters <==> retries >= 1 || event in w.letters)
  {
    PublishOutcome(respond, 1, retries);
    hide Publish;
    var w' := TaskStep(w, event, respond, retries);
    match Publish(respond, 1, retries)
    case Published(k) => assert respond(k);
    case Raised => assert w'.published == w.published;
    case Skipped => assert w'.published == w.published;
  }

  // ---------------------------------------------------------------- the rows in place

  class LetterStore {
    var letters: map<string, Letter>
    var gauge: int
    var open_: map<nat, Replay>
    ghost var turned: set<nat>
    ghost var published: seq<string>
    ghost var failures: seq<string>

    ghost function State(): World
      reads this
    {
      World(letters, gauge, open_, turned, published, failures)
    }

    constructor ()
      ensures State() == EMPTY
    {
      letters, gauge, open_ := map[], 0, map[];
      turned, published, failures := {}, [], [];
    }

    method RecordEventFailure(event: string)
      modifies this
      ensures State() == Recorded(old(State()), event)
    {
      if event in letters {
        letters := letters[event := letters[event].(attempts := letters[event].attempts + 1)];
      } else {
        letters := letters[event := Letter(PENDING, 1)];
        gauge := gauge + 1;
      }
      failures := failures + [event];
    }

    /** The background job of `publish_fire_and_forget`. */
    method RunTask(event: string, respond: nat -> bool, retries: int)
      modifies this
      ensures State() == Step(old(State()), Task(event, respond, retries))
    {
      var outcome := PublishWithRetry(respond, retries);
      if outcome.Published? {
        published := published + [event];
      } else if outcome.Raised? {
        RecordEventFailure(event);
      }
    }

    /** `replay_event_dlq` up to its publish: an answer at once, or the replay under way. */
    method BeginReplay(call: nat, event: string) returns (answer: Option<bool>)
      requires call !in open_
      modifies this`open_
      ensures State() == Step(old(State()), ReplayStart(call, event))
      ensures answer == if event !in letters then Some(false) else if letters[event].status == REPLAYED then Some(true) else None
      ensures answer == None <==> call in open_
    {
      if event !in letters {
        return Some(false);
      }
      if letters[event].status == REPLAYED {
        return Some(true);
      }
      open_ := open_[call := Replay(event, Publishing)];
      return None;
    }

    /** The publish and the update that follows it. */
    method UpdateReplayed(call: nat, ok: bool)
      requires AtStage(State(), call, true)
      modifies this
      ensures State() == Step(old(State()), ReplayUpdate(call, ok))
      ensures AtStage(State(), call, false) && open_[call] == Replay(old(open_[call].event), Updated(ok))
    {
      var event := open_[call].event;
      if ok {
        if letters[event].status == PENDING {
          turned := turned + {call};
        }
        letters := letters[event := letters[event].(status := REPLAYED)];
        published := published + [event];
      } else {
        letters := letters[event := Letter(PENDING, letters[event].attempts + 1)];
        failures := failures + [event];
      }
      open_ := open_[call := Replay(event, Updated(ok))];
    }

    /** The second read, the gauge, and the answer: whether the publish got through, and the row as it now is. */
    method FinishReplay(call: nat) returns (replayed: bool, row: Letter)
      requires AtStage(State(), call, false)
      modifies this
      ensures State() == Step(old(State()), ReplayRead(call))
      ensures replayed == old(open_[call].stage.ok) && row == letters[old(open_[call].event)]
    {
      var r := open_[call];
      row := letters[r.event];
      if row.status == REPLAYED {
        gauge := gauge - 1;
      }
      open_ := open_ - {call};
      turned := turned - {call};
      replayed := r.stage.ok;
    }

    /** A whole call with nothing in between: it never goes astray, and its answer is what the row says. */
    method ReplayEventDlq(call: nat, event: string, ok: bool) returns (replayed: bool)
      requires call !in open_ && Inv(State())
      modifies this
      ensures State() == Step(Step(Step(old(State()), ReplayStart(call, event)), ReplayUpdate(call, ok)), ReplayRead(call))
      ensures Inv(State()) && Excess(State()) == old(Excess(State()))
      ensures replayed <==> event in letters && letters[event].status == REPLAYED
    {
      hide Counted, Excess;
      ghost var w := State();
      ReplayNeverStrays(w, call, event, ok);
      var answer := BeginReplay(call, event);
      if answer.Some? {
        return answer.value;
      }
      UpdateReplayed(call, ok);
      var row;
      replayed, row := FinishReplay(call);
    }
  }

  lemma ReplayNeverStrays(w: World, call: nat, event: string, ok: bool)
    requires Inv(w) && call !in w.open_
    ensures var w1 := Step(w, ReplayStart(call, event));
            var w2 := Step(w1, ReplayUpdate(call, ok));
            var w3 := Step(w2, ReplayRead(call));
            Inv(w3) && Excess(w3) == Excess(w)
  {
    hide Counted, OpenOk, Excess, Step, IsStray;
    var w1 := Step(w, ReplayStart(call, event));
    var w2 := Step(w1, ReplayUpdate(call, ok));
    StepKeeps(w, ReplayStart(call, event));
    StepKeeps(w1, ReplayUpdate(call, ok));
    StepKeeps(w2, ReplayRead(call));
    forall kind
      ensures !IsStray(kind, w, ReplayStart(call, event)) && !IsStray(kind, w1, ReplayUpdate(call, ok))
              && !IsStray(kind, w2, ReplayRead(call))
    {
      ReplaySteps(w, call, event, ok, kind);
    }
  }

  lemma ReplaySteps(w: World, call: nat, event: string, ok: bool, kind: Stray)
    requires OpenOk(w) && call !in w.open_
    ensures var w1 := Step(w, ReplayStart(call, event));
            var w2 := Step(w1, ReplayUpdate(call, ok));
            !IsStray(kind, w, ReplayStart(call, event)) && !IsStray(kind, w1, ReplayUpdate(call, ok))
            && !IsStray(kind, w2, ReplayRead(call))
  {
  }
}

/** What the command gate guarantees over whole runs, with wake signals, frames, timers, workers and
    shutdown interleaved in any order and stale callbacks arriving at any time. */
module CommandGateSafety {
  import opened Wrappers
  import opened CommandGate

  // ----- the invariant

  /** How often attempt `n` was published. */
  function Count(log: seq<Outcome>, n: nat): nat
    decreases |log|
  {
    if log == [] then 0
    else Count(log[..|log| - 1], n) + if log[|log| - 1].attempt == n then 1 else 0
  }

  lemma CountAppend(log: seq<Outcome>, x: Outcome, n: nat)
    ensures Count(log + [x], n) == Count(log, n) + if x.attempt == n then 1 else 0
  {
    assert (log + [x])[..|log|] == log;
  }

  function Pending(g: Gate, n: nat): nat {
    if n in g.workers && g.workers[n].stage.Publishing? then 1 else 0
  }

  predicate Current(g: Gate, n: nat) {
    n == g.attempt && g.state != Dormant
  }

  /** Every accepted attempt owes one outcome, except the one still under way and the one Cancel dropped. */
  function Owed(g: Gate, n: nat): nat {
    if Current(g, n) || g.dropped == Some(n) then 0 else 1
  }

  predicate Balanced(g: Gate, n: nat) {
    Count(g.log, n) + Pending(g, n) == Owed(g, n)
  }

  function Recent(opens: seq<Id>): seq<Id> {
    if |opens| <= RETENTION then opens else opens[|opens| - RETENTION..]
  }

  /** A command id is accepted again only after more than 255 others. */
  predicate Spread(opens: seq<Id>) {
    forall i, j :: 0 <= i < j < |opens| && opens[i] == opens[j] ==> j - i > RETENTION
  }

  predicate IdsKept(g: Gate) {
    |g.opens| == g.attempt && g.ids == Recent(g.opens) && Spread(g.opens)
  }

  predicate Shaped(g: Gate) {
    && (g.state != Dormant ==> 1 <= g.attempt == |g.opens| && g.request.command == g.opens[g.attempt - 1])
    && (g.hasStream <==> g.state == Capturing || g.state == Recognizing)
    && (g.speech <==> g.state == Capturing)
    && (g.captureComplete ==> g.state == Recognizing)
    && (g.closed ==> g.state == Dormant)
    && (g.dropped.Some? ==> g.closed && g.dropped.value == g.attempt)
  }

  predicate Undecided(stage: Stage) {
    stage.Finalizing? || stage.Entering? || stage.Processing? || stage.Deciding?
  }

  predicate StartedOnce(starts: seq<nat>, attempt: nat) {
    && (forall n :: n in starts ==> 1 <= n <= attempt)
    && (forall i, j :: 0 <= i < j < |starts| ==> starts[i] != starts[j])
  }

  predicate WorkersKept(g: Gate) {
    && (forall n :: n in g.workers ==>
          && 1 <= n <= g.attempt == |g.opens|
          && g.workers[n].command == g.opens[n - 1]
          && n in g.starts
          && (Current(g, n) ==> Undecided(g.workers[n].stage)))
    && (g.state == Recognizing ==> g.attempt in g.workers)
    && StartedOnce(g.starts, g.attempt)
    && (g.state == Armed || g.state == Capturing ==> g.attempt !in g.starts)
  }

  predicate Logged(g: Gate) {
    && (forall i :: 0 <= i < |g.log| ==>
          1 <= g.log[i].attempt <= g.attempt == |g.opens| && g.log[i].command == g.opens[g.log[i].attempt - 1])
    && (forall n :: 1 <= n <= g.attempt ==> Balanced(g, n))
  }

  predicate GateInv(g: Gate) {
    IdsKept(g) && Shaped(g) && WorkersKept(g) && Logged(g)
  }

  ghost predicate MachineInv(m: Machine) {
    && GateInv(m.gate)
    && (m.cancels != map[] ==> m.gate.closed)
    && (forall c :: c in m.cancels ==> m.gate.workers.Keys <= m.cancels[c])
    && (m.released ==> m.gate.closed && m.gate.workers == map[])
  }

  // ----- leaving an attempt

  lemma FailKeeps(g: Gate, failure: Failure)
    requires GateInv(g) && g.state != Dormant
    ensures GateInv(Fail(g, failure).0)
  {
    var after := Fail(g, failure).0;
    var x := Outcome(g.attempt, g.request.command, Failed(failure));
    forall n | 1 <= n <= g.attempt ensures Balanced(after, n) {
      CountAppend(g.log, x, n);
      assert Balanced(g, n);
    }
  }

  lemma DropKeeps(g: Gate)
    requires GateInv(g)
    ensures GateInv(Abandon(g).(closed := true, dropped := if g.state != Dormant then Some(g.attempt) else g.dropped))
  {
    var after := Abandon(g).(closed := true, dropped := if g.state != Dormant then Some(g.attempt) else g.dropped);
    forall n | 1 <= n <= g.attempt ensures Balanced(after, n) {
      assert Balanced(g, n);
    }
  }

  // ----- wake signals

  lemma RememberKeeps(opens: seq<Id>, id: Id)
    requires Spread(opens) && id !in Recent(opens)
    ensures Remember(Recent(opens), id) == Recent(opens + [id])
    ensures Spread(opens + [id])
  {
    forall i: nat | |opens| - RETENTION <= i < |opens| ensures opens[i] != id {
      RecentHolds(opens, i);
    }
  }

  lemma RecentHolds(opens: seq<Id>, i: nat)
    requires |opens| - RETENTION <= i < |opens|
    ensures opens[i] in Recent(opens)
  {
    var k := if |opens| <= RETENTION then i else i - (|opens| - RETENTION);
    assert Recent(opens)[k] == opens[i];
  }

  lemma NoneLater(g: Gate, n: nat)
    requires Logged(g) && n > g.attempt
    ensures Count(g.log, n) == 0
  {
    CountNone(g.log, n);
  }

  lemma {:induction false} CountNone(log: seq<Outcome>, n: nat)
    requires forall i :: 0 <= i < |log| ==> log[i].attempt != n
    ensures Count(log, n) == 0
    decreases |log|
  {
    if log != [] {
      CountNone(log[..|log| - 1], n);
    }
  }

  lemma ArmKeeps(g: Gate, r: Request)
    requires GateInv(g) && g.state == Dormant && !g.closed
    requires r.command !in g.ids
    ensures
      GateInv(Renew(g).(ids := Remember(g.ids, r.command), attempt := g.attempt + 1, state := Armed,
                        request := r, opens := g.opens + [r.command]))
  {
    var after := Renew(g).(ids := Remember(g.ids, r.command), attempt := g.attempt + 1, state := Armed,
                           request := r, opens := g.opens + [r.command]);
    RememberKeeps(g.opens, r.command);
    NoneLater(g, g.attempt + 1);
    forall n | 1 <= n <= after.attempt ensures Balanced(after, n) {
      if n <= g.attempt {
        assert Balanced(g, n);
      }
    }
  }

  lemma OpenKeeps(g: Gate, r: Request)
    requires GateInv(g)
    ensures GateInv(Open(g, r).0)
  {
    hide GateInv;
    if Open(g, r).1.None? {
      var left := if g.state != Dormant then Fail(g, Canceled).0 else Abandon(g);
      if g.state != Dormant {
        FailKeeps(g, Canceled);
      } else {
        AbandonKeeps(g);
      }
      ArmKeeps(left, if r.captureFrom == 0 then r.(captureFrom := r.openedAt) else r);
    }
  }

  lemma AbandonKeeps(g: Gate)
    requires GateInv(g) && g.state == Dormant
    ensures GateInv(Abandon(g))
  {
    forall n | 1 <= n <= g.attempt ensures Balanced(Abandon(g), n) {
      assert Balanced(g, n);
    }
  }

  // ----- frames

  lemma ListenKeeps(g: Gate)
    requires GateInv(g) && g.state == Armed
    ensures GateInv(g.(hasStream := true, state := Capturing, speech := true))
  {
    var open := g.(hasStream := true, state := Capturing, speech := true);
    forall n | 1 <= n <= g.attempt ensures Balanced(open, n) {
      assert Balanced(g, n);
    }
  }

  lemma RecognitionWorkersKept(g: Gate)
    requires IdsKept(g) && Shaped(g) && WorkersKept(g) && g.state == Capturing
    ensures
      var after := StartRecognition(g.(speech := false)).0;
      IdsKept(after) && Shaped(after) && WorkersKept(after) && after.hasStream
    ensures g.attempt !in g.workers
  {
    hide Spread, Recent;
  }

  lemma RecognitionKeeps(g: Gate)
    requires GateInv(g) && g.state == Capturing
    ensures GateInv(StartRecognition(g.(speech := false)).0)
    ensures StartRecognition(g.(speech := false)).0.hasStream
  {
    hide IdsKept, Shaped, WorkersKept, Logged;
    RecognitionWorkersKept(g);
    LoggedStays(g, StartRecognition(g.(speech := false)).0);
  }

  /** Outcomes stay balanced while nothing is published and nobody's outcome becomes due. */
  lemma LoggedStays(a: Gate, b: Gate)
    requires Logged(a) && b.log == a.log && b.opens == a.opens && b.attempt == a.attempt
    requires forall n :: Pending(b, n) == Pending(a, n) && Owed(b, n) == Owed(a, n)
    ensures Logged(b)
  {
    forall n | 1 <= n <= b.attempt ensures Balanced(b, n) {
      assert Balanced(a, n);
    }
  }

  /** Handling a frame's events keeps the gate consistent, and what the caller is told is where the gate is. */
  lemma {:induction false} EventsKeep(g: Gate, f: Frame, events: seq<VadEvent>)
    requires GateInv(g) && (g.state == Armed || g.state == Capturing)
    requires Disciplined(g.speech, events)
    ensures
      var (after, r) := HandleEvents(g, f, events, g.state);
      GateInv(after) && r.consumed && r.state == after.state
    decreases |events|
  {
    hide IdsKept, WorkersKept, Logged;
    if events != [] {
      match events[0]
      case Opened(streamStarts, prefixSent) =>
        if !streamStarts {
          FailKeeps(g, Classify(f.callerDone, f.deadline, AsrFailed));
        } else {
          ListenKeeps(g);
          var open := g.(hasStream := true, state := Capturing, speech := true);
          if !prefixSent {
            FailKeeps(open, Classify(f.callerDone, f.deadline, AsrFailed));
          } else {
            EventsKeep(open, f, events[1..]);
          }
        }
      case Audio(present, sent) =>
        if !present || !g.hasStream {
          FailKeeps(g, InvalidAudio);
        } else if !sent {
          FailKeeps(g, Classify(f.callerDone, f.deadline, AsrFailed));
        } else {
          EventsKeep(g, f, events[1..]);
        }
      case Final => RecognitionKeeps(g);
    }
  }

  /** A frame passes through exactly when the gate was dormant, and then changes nothing. */
  lemma ConsumeKeeps(g: Gate, o: Options, f: Frame, replayed: bool)
    requires GateInv(g)
    requires Disciplined(g.speech, f.events)
    ensures
      var (after, r) := Consume(g, o, f, replayed);
      && GateInv(after)
      && (r.consumed <==> g.state != Dormant)
      && (!r.consumed ==> after == g)
      && (r.state == Dormant <==> after.state == Dormant)
  {
    hide GateInv, HandleEvents;
    if g.state != Dormant && g.state != Recognizing {
      EventsKeep(g, f, f.events);
      forall failure {:trigger Fail(g, failure)} ensures GateInv(Fail(g, failure).0) {
        FailKeeps(g, failure);
      }
    }
  }

  lemma {:induction false} ReplayKeeps(g: Gate, o: Options, frames: seq<Frame>, answer: Reply)
    requires GateInv(g)
    requires ReplayDisciplined(g, o, frames)
    ensures GateInv(ReplayFrom(g, o, frames, answer).0)
    decreases |frames|
  {
    hide GateInv, Consume;
    if frames != [] {
      ConsumeKeeps(g, o, frames[0], true);
      var (next, result) := Consume(g, o, frames[0], true);
      if result.state != Dormant {
        ReplayKeeps(next, o, frames[1..], result);
      }
    }
  }

  // ----- timers and workers

  lemma ExpireKeeps(g: Gate, n: nat, failure: Failure)
    requires GateInv(g)
    ensures GateInv(Expire(g, n, failure))
  {
    hide GateInv;
    if g.state != Dormant {
      FailKeeps(g, failure);
    }
  }

  lemma StageWorkersKept(g: Gate, n: nat, stage: Stage)
    requires IdsKept(g) && Shaped(g) && WorkersKept(g)
    requires n in g.workers && Undecided(stage)
    ensures
      var y := At(g, n, stage);
      IdsKept(y) && Shaped(y) && WorkersKept(y)
  {
    hide Spread, Recent, StartedOnce;
  }

  lemma StageKeeps(g: Gate, n: nat, stage: Stage)
    requires GateInv(g)
    requires n in g.workers && Undecided(g.workers[n].stage) && Undecided(stage)
    ensures GateInv(At(g, n, stage))
  {
    hide IdsKept, WorkersKept, Shaped, Logged;
    StageWorkersKept(g, n, stage);
    LoggedStays(g, At(g, n, stage));
  }

  lemma CompleteCaptureKeeps(g: Gate)
    requires GateInv(g) && g.state == Recognizing
    ensures GateInv(Renew(g).(captureComplete := true))
  {
    var after := Renew(g).(captureComplete := true);
    forall k | 1 <= k <= g.attempt ensures Balanced(after, k) {
      assert Balanced(g, k);
    }
  }

  lemma ContextWorkersKept(g: Gate, n: nat, context: Option<nat>)
    requires IdsKept(g) && Shaped(g) && WorkersKept(g) && n in g.workers
    ensures
      var after := g.(workers := g.workers[n := g.workers[n].(context := context)]);
      IdsKept(after) && Shaped(after) && WorkersKept(after)
  {
    hide Spread, Recent, StartedOnce;
  }

  lemma ContextKeeps(g: Gate, n: nat, context: Option<nat>)
    requires GateInv(g) && n in g.workers
    ensures GateInv(g.(workers := g.workers[n := g.workers[n].(context := context)]))
  {
    hide IdsKept, Shaped, WorkersKept, Logged;
    ContextWorkersKept(g, n, context);
    LoggedStays(g, g.(workers := g.workers[n := g.workers[n].(context := context)]));
  }

  lemma AdmitKeeps(g: Gate, n: nat)
    requires GateInv(g)
    requires n in g.workers && Undecided(g.workers[n].stage)
    ensures GateInv(Admit(g, n))
  {
    hide GateInv;
    StageKeeps(g, n, Processing);
    var staged := At(g, n, Processing);
    ContextKeeps(staged, n, g.context);
    assert Admit(g, n) == staged.(workers := staged.workers[n := staged.workers[n].(context := g.context)]);
  }

  lemma DecideWorkersKept(g: Gate, n: nat, stage: Stage)
    requires IdsKept(g) && Shaped(g) && WorkersKept(g)
    requires n in g.workers
    ensures
      var y := At(Abandon(g), n, stage);
      IdsKept(y) && Shaped(y) && WorkersKept(y)
    ensures
      var y := At(g, n, stage);
      !Current(g, n) ==> IdsKept(y) && Shaped(y) && WorkersKept(y)
  {
    hide Spread, Recent, StartedOnce;
  }

  lemma DecideLogged(g: Gate, n: nat)
    requires Shaped(g) && Logged(g)
    requires n in g.workers && g.workers[n].stage.Deciding?
    ensures
      var (after, current) := Decide(g, n);
      Logged(At(after, n, if current then Publishing(g.workers[n].stage.verdict) else Finished))
  {
    if Current(g, n) && g.state == Recognizing {
      CurrentDecides(g, n);
    } else {
      hide Logged, Shaped;
      LoggedStays(g, At(g, n, Finished));
    }
  }

  /** The attempt is left, and its outcome is pending from now on. */
  lemma CurrentDecides(g: Gate, n: nat)
    requires Shaped(g) && Logged(g) && Current(g, n)
    requires n in g.workers && g.workers[n].stage.Deciding?
    ensures Logged(At(Abandon(g), n, Publishing(g.workers[n].stage.verdict)))
  {
    var after := At(Abandon(g), n, Publishing(g.workers[n].stage.verdict));
    forall k | 1 <= k <= g.attempt ensures Balanced(after, k) {
      assert Balanced(g, k);
    }
    hide Balanced;
  }

  lemma DecideKeeps(g: Gate, n: nat)
    requires GateInv(g)
    requires n in g.workers && g.workers[n].stage.Deciding?
    ensures
      var (after, current) := Decide(g, n);
      GateInv(At(after, n, if current then Publishing(g.workers[n].stage.verdict) else Finished))
  {
    var stage := if Decide(g, n).1 then Publishing(g.workers[n].stage.verdict) else Finished;
    if Current(g, n) {
      CurrentRecognizes(g, n);
    }
    hide IdsKept, WorkersKept, Logged, Shaped;
    DecideWorkersKept(g, n, stage);
    DecideLogged(g, n);
  }

  lemma CurrentRecognizes(g: Gate, n: nat)
    requires WorkersKept(g) && n in g.workers && Current(g, n)
    ensures g.state == Recognizing
  {
  }

  lemma PublishWorkersKept(g: Gate, n: nat, log: seq<Outcome>)
    requires IdsKept(g) && Shaped(g) && WorkersKept(g)
    requires n in g.workers && g.workers[n].stage.Publishing?
    ensures
      var y := At(g, n, Finished).(log := log);
      IdsKept(y) && Shaped(y) && WorkersKept(y)
    ensures !Current(g, n) && 1 <= n <= g.attempt == |g.opens| && g.workers[n].command == g.opens[n - 1]
  {
    hide Spread, Recent, StartedOnce;
  }

  lemma PublishLogged(g: Gate, n: nat)
    requires Logged(g)
    requires n in g.workers && g.workers[n].stage.Publishing? && !Current(g, n)
    requires 1 <= n <= g.attempt == |g.opens| && g.workers[n].command == g.opens[n - 1]
    ensures
      var x := Outcome(n, g.workers[n].command, g.workers[n].stage.verdict);
      Logged(At(g, n, Finished).(log := g.log + [x]))
  {
    var x := Outcome(n, g.workers[n].command, g.workers[n].stage.verdict);
    var y := At(g, n, Finished).(log := g.log + [x]);
    forall k | 1 <= k <= g.attempt ensures Balanced(y, k) {
      CountAppend(g.log, x, k);
      assert Balanced(g, k);
    }
    hide Balanced;
  }

  lemma PublishKeeps(g: Gate, n: nat)
    requires GateInv(g)
    requires n in g.workers && g.workers[n].stage.Publishing?
    ensures
      var x := Outcome(n, g.workers[n].command, g.workers[n].stage.verdict);
      GateInv(At(g, n, Finished).(log := g.log + [x]))
  {
    hide IdsKept, Shaped, WorkersKept, Logged, At;
    PublishWorkersKept(g, n, g.log + [Outcome(n, g.workers[n].command, g.workers[n].stage.verdict)]);
    PublishLogged(g, n);
  }

  lemma CompleteKeeps(g: Gate, n: nat)
    requires GateInv(g)
    requires n in g.workers && g.workers[n].stage == Finished
    ensures GateInv(g.(workers := g.workers - {n}))
  {
    var y := g.(workers := g.workers - {n});
    forall k | 1 <= k <= g.attempt ensures Balanced(y, k) {
      assert Balanced(g, k);
    }
  }

  // ----- every step and every run

  lemma GateKept(m: Machine, o: Options, step: Step)
    requires GateInv(m.gate)
    ensures GateInv(Next(m, o, step).gate)
  {
    hide GateInv, Consume, Open, Expire, ReplayFrom;
    var g := m.gate;
    match step
    case OpenGate(r) => OpenKeeps(g, r);
    case ConsumeFrame(f) => if Disciplined(g.speech, f.events) { ConsumeKeeps(g, o, f, false); }
    case ReplayFrames(fs) => if ReplayDisciplined(g, o, fs) { ReplayKeeps(g, o, fs, Reply(true, g.state, None)); }
    case Timer(n, failure) => ExpireKeeps(g, n, failure);
    case FinishAsr(n, ok, callerDone, deadline) =>
      if Runs(g, n, Finalizing) {
        StageKeeps(g, n, if ok then Entering else Deciding(Failed(Classify(callerDone, deadline, AsrFailed))));
      }
    case EnterProcessing(n) =>
      if Runs(g, n, Entering) {
        var (after, ok) := BeginProcessing(g, g.workers[n].command);
        if ok {
          CompleteCaptureKeeps(g);
          AdmitKeeps(after, n);
        } else {
          StageKeeps(after, n, Deciding(Failed(Canceled)));
        }
      }
    case Conclude(n, verdict) => if Runs(g, n, Processing) { StageKeeps(g, n, Deciding(verdict)); }
    case DecideWorker(n) => if n in g.workers && g.workers[n].stage.Deciding? { DecideKeeps(g, n); }
    case PublishWorker(n) => if n in g.workers && g.workers[n].stage.Publishing? { PublishKeeps(g, n); }
    case CompleteWorker(n) => if Runs(g, n, Finished) { CompleteKeeps(g, n); }
    case CancelGate(c) => DropKeeps(g);
    case ReturnCancel(c) =>
  }

  /** While the gate is dormant, frames and timers do nothing, and while it is closed nothing starts. */
  lemma ClosedStaysClosed(m: Machine, o: Options, step: Step)
    requires GateInv(m.gate) && m.gate.closed
    ensures Next(m, o, step).gate.closed
    ensures Next(m, o, step).gate.workers.Keys <= m.gate.workers.Keys
    ensures m.gate.workers == map[] ==> Next(m, o, step).gate.log == m.gate.log
  {
    hide IdsKept, WorkersKept, Logged;
    if step.ReplayFrames? && step.frames != [] {
      assert Consume(m.gate, o, step.frames[0], true).1.state == Dormant;
    }
  }

  lemma StepKeeps(m: Machine, o: Options, step: Step)
    requires MachineInv(m)
    ensures MachineInv(Next(m, o, step))
  {
    hide GateInv, Consume, Open, Expire, ReplayFrom, At;
    GateKept(m, o, step);
    if m.gate.closed {
      ClosedStaysClosed(m, o, step);
    }
  }

  lemma {:induction false} RunKeeps(m: Machine, o: Options, steps: seq<Step>)
    requires MachineInv(m)
    ensures MachineInv(Run(m, o, steps))
    decreases |steps|
  {
    hide MachineInv, Next;
    if steps != [] {
      StepKeeps(m, o, steps[0]);
      RunKeeps(Next(m, o, steps[0]), o, steps[1..]);
    }
  }

  // ----- the guarantees

  /** Every accepted wake signal comes to at most one outcome, carrying its own command id; and to exactly
      one, published or about to be, once its attempt is left, unless Cancel closed the gate over it. */
  lemma OneOutcomePerOpen(o: Options, steps: seq<Step>, n: nat)
    requires 1 <= n <= Run(Fresh, o, steps).gate.attempt
    ensures
      var g := Run(Fresh, o, steps).gate;
      && Count(g.log, n) <= 1
      && (!Current(g, n) && g.dropped != Some(n) ==> Count(g.log, n) + Pending(g, n) == 1)
      && (Current(g, n) || g.dropped == Some(n) ==> Count(g.log, n) == 0)
      && (forall i :: 0 <= i < |g.log| && g.log[i].attempt == n ==>
            |g.opens| >= n && g.log[i].command == g.opens[n - 1])
  {
    RunKeeps(Fresh, o, steps);
    assert Balanced(Run(Fresh, o, steps).gate, n);
  }

  /** A wake signal is a duplicate exactly when its command id is among the last 256 accepted ones; any
      other well-formed signal to an open gate is accepted and arms the next attempt. */
  lemma DuplicateIffRecent(o: Options, steps: seq<Step>, r: Request)
    requires r.session != "" && r.command != "" && r.openedAt != 0
    requires r.captureFrom == 0 || r.captureFrom <= r.openedAt
    requires !Run(Fresh, o, steps).gate.closed
    ensures
      var g := Run(Fresh, o, steps).gate;
      var (after, refused) := Open(g, r);
      if exists i: nat :: |g.opens| - 256 <= i < |g.opens| && g.opens[i] == r.command then
        refused == Some(DuplicateOpen) && after == g
      else refused.None? && after.state == Armed && after.attempt == g.attempt + 1 && after.request.command == r.command
  {
    RunKeeps(Fresh, o, steps);
  }

  /** Recognition is started at most once for an attempt, and always on an open stream. */
  lemma RecognizedAtMostOnce(o: Options, steps: seq<Step>, i: nat, j: nat)
    requires i < |Run(Fresh, o, steps).gate.starts| && j < |Run(Fresh, o, steps).gate.starts|
    requires Run(Fresh, o, steps).gate.starts[i] == Run(Fresh, o, steps).gate.starts[j]
    ensures i == j
    ensures Run(Fresh, o, steps).gate.state == Recognizing ==> Run(Fresh, o, steps).gate.hasStream
  {
    RunKeeps(Fresh, o, steps);
  }

  /** A timer of an attempt that is no longer current does nothing, whenever it fires. A no-speech timer
      does nothing once speech was captured, nor a window timer once capture is complete. */
  lemma StaleTimerIsSilent(g: Gate, n: nat, failure: Failure)
    ensures Expire(g, n, failure) == g <==>
              || !Current(g, n) || (failure == NoSpeech && g.state != Armed)
              || (failure == WindowExpired && g.captureComplete)
  {
    if g.state != Dormant {
      assert Fail(g, failure).0.log != g.log;
    }
  }

  /** Exactly when a worker is let into processing: the attempt under way is being recognized and was
      accepted under the worker's own command id. The gate compares ids, not attempts. */
  lemma AdmittedIff(o: Options, steps: seq<Step>, n: nat)
    requires n in Run(Fresh, o, steps).gate.workers
    ensures
      var g := Run(Fresh, o, steps).gate;
      && 1 <= n <= g.attempt == |g.opens|
      && (BeginProcessing(g, g.workers[n].command).1 <==>
            g.state == Recognizing && !g.closed && g.opens[n - 1] == g.opens[g.attempt - 1])
  {
    RunKeeps(Fresh, o, steps);
  }

  /** With 256 ids remembered, a worker that is let in is current, or more than 256 wake signals were
      accepted since. */
  lemma AdmittedOnlyWhenCurrent(o: Options, steps: seq<Step>, n: nat)
    requires n in Run(Fresh, o, steps).gate.workers
    ensures
      var g := Run(Fresh, o, steps).gate;
      BeginProcessing(g, g.workers[n].command).1 ==> n == g.attempt || g.attempt - n > 256
  {
    RunKeeps(Fresh, o, steps);
    AdmittedIff(o, steps, n);
  }

  /** The worker of the current attempt is let in, unless the gate was closed. */
  lemma CurrentIsAdmitted(o: Options, steps: seq<Step>, n: nat)
    requires n in Run(Fresh, o, steps).gate.workers && Current(Run(Fresh, o, steps).gate, n)
    ensures
      var g := Run(Fresh, o, steps).gate;
      g.state == Recognizing && BeginProcessing(g, g.workers[n].command).1
  {
    RunKeeps(Fresh, o, steps);
  }

  /** Once Cancel has returned, no worker runs or can start, the gate stays dormant and nothing is
      published, whatever still arrives. */
  lemma {:induction false} SilentAfterCancel(m: Machine, o: Options, steps: seq<Step>)
    requires MachineInv(m) && m.released
    ensures
      var later := Run(m, o, steps);
      && later.released && later.gate.workers == map[] && later.gate.state == Dormant
      && later.gate.log == m.gate.log
    decreases |steps|
  {
    if steps != [] {
      hide GateInv, Next;
      StepKeeps(m, o, steps[0]);
      ReleasedStays(m, o, steps[0]);
      ClosedStaysClosed(m, o, steps[0]);
      SilentAfterCancel(Next(m, o, steps[0]), o, steps[1..]);
    }
  }

  lemma ReleasedStays(m: Machine, o: Options, step: Step)
    requires m.released
    ensures Next(m, o, step).released
  {
    hide Consume, Open, Expire, ReplayFrom;
  }
}

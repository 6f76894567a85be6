/** Workers whose attempt was left: superseded by a wake signal, failed, or dropped by Cancel. They stay
    silent for the rest of the run, and leave the attempt under way alone unless their command id is
    accepted again. */
module CommandGateStale {
  import opened Wrappers
  import opened CommandGate
  import opened CommandGateSafety

  // ----- what a critical section leaves alone

  /** From `a` to `b` attempts only move on, and no worker but that of the attempt under way is touched. */
  ghost predicate MovesOn(a: Gate, b: Gate) {
    && a.attempt <= b.attempt && a.opens <= b.opens && a.dropped == b.dropped
    && (a.attempt == b.attempt && a.state == Dormant ==> b.state == Dormant)
    && (forall k :: k in b.workers ==>
          || (k in a.workers && b.workers[k] == a.workers[k])
          || (Current(a, k) && Undecided(b.workers[k].stage)))
    && (forall k :: k in a.workers && !Current(a, k) ==> k in b.workers)
  }

  /** The same while the attempt stays the same. */
  ghost predicate Stays(a: Gate, b: Gate) {
    MovesOn(a, b) && a.attempt == b.attempt
  }

  lemma StaysTransitive(a: Gate, b: Gate, c: Gate)
    requires Stays(a, b) && Stays(b, c)
    ensures Stays(a, c)
  {
  }

  lemma FailStays(g: Gate, failure: Failure)
    requires g.state != Dormant
    ensures Stays(g, Fail(g, failure).0)
  {
  }

  lemma RecognitionStays(g: Gate)
    requires g.state != Dormant
    ensures Stays(g, StartRecognition(g.(speech := false)).0)
  {
  }

  lemma ListeningStays(g: Gate)
    requires g.state != Dormant
    ensures Stays(g, g.(hasStream := true, state := Capturing, speech := true))
  {
  }

  lemma {:induction false} EventsStay(g: Gate, f: Frame, events: seq<VadEvent>, answer: State)
    requires g.state != Dormant
    ensures Stays(g, HandleEvents(g, f, events, answer).0)
    decreases |events|
  {
    hide Stays, MovesOn, Fail, StartRecognition, Classify;
    Unmoved(g);
    if events != [] {
      match events[0]
      case Opened(streamStarts, prefixSent) =>
        var open := g.(hasStream := true, state := Capturing, speech := true);
        ListeningStays(g);
        if !streamStarts {
          FailStays(g, Classify(f.callerDone, f.deadline, AsrFailed));
        } else {
          var after := HandleEvents(g, f, events, answer).0;
          if !prefixSent {
            FailStays(open, Classify(f.callerDone, f.deadline, AsrFailed));
          } else {
            EventsStay(open, f, events[1..], Capturing);
          }
          StaysTransitive(g, open, after);
        }
      case Audio(present, sent) =>
        if !present || !g.hasStream {
          FailStays(g, InvalidAudio);
        } else if !sent {
          FailStays(g, Classify(f.callerDone, f.deadline, AsrFailed));
        } else {
          EventsStay(g, f, events[1..], Capturing);
        }
      case Final => RecognitionStays(g);
    }
  }

  lemma ConsumeStays(g: Gate, o: Options, f: Frame, replayed: bool)
    ensures Stays(g, Consume(g, o, f, replayed).0)
  {
    hide Stays, MovesOn, Fail, HandleEvents, Classify;
    Unmoved(g);
    if g.state != Dormant {
      EventsStay(g, f, f.events, g.state);
      forall failure {:trigger Fail(g, failure)} ensures Stays(g, Fail(g, failure).0) {
        FailStays(g, failure);
      }
    }
  }

  lemma {:induction false} ReplayStays(g: Gate, o: Options, frames: seq<Frame>, answer: Reply)
    ensures Stays(g, ReplayFrom(g, o, frames, answer).0)
    decreases |frames|
  {
    hide Stays, Consume;
    if frames == [] {
      Unmoved(g);
    } else {
      var (next, result) := Consume(g, o, frames[0], true);
      ConsumeStays(g, o, frames[0], true);
      if result.state != Dormant {
        ReplayStays(next, o, frames[1..], result);
        StaysTransitive(g, next, ReplayFrom(next, o, frames[1..], result).0);
      }
    }
  }

  lemma Unmoved(g: Gate)
    ensures Stays(g, g)
  {
  }

  lemma OpenMovesOn(g: Gate, r: Request)
    ensures MovesOn(g, Open(g, r).0)
  {
  }

  lemma ExpireStays(g: Gate, n: nat, failure: Failure)
    ensures Stays(g, Expire(g, n, failure))
  {
    hide Stays, Fail;
    Unmoved(g);
    if g.state != Dormant {
      FailStays(g, failure);
    }
  }

  // ----- attempts that were left

  /** Attempt `n` is over, and its worker, if it still runs, has not been told to publish. */
  predicate LeftBehind(g: Gate, n: nat) {
    1 <= n <= g.attempt && !Current(g, n) && (n in g.workers ==> !g.workers[n].stage.Publishing?)
  }

  /** No step touches an attempt that was left, except that its worker runs out. */
  lemma LeftBehindStays(m: Machine, o: Options, step: Step, n: nat)
    requires MachineInv(m) && LeftBehind(m.gate, n)
    ensures LeftBehind(Next(m, o, step).gate, n)
    ensures m.gate.opens <= Next(m, o, step).gate.opens
    ensures Next(m, o, step).gate.dropped == Some(n) <==> m.gate.dropped == Some(n)
  {
    hide GateInv, Consume, Open, Expire, ReplayFrom, MovesOn, LeftBehind, At, Decide, BeginProcessing, Disciplined,
      ReplayDisciplined;
    var g := m.gate;
    match step
    case OpenGate(r) =>
      OpenMovesOn(g, r);
      MovedOn(g, Open(g, r).0, n);
    case ConsumeFrame(f) =>
      ConsumeStays(g, o, f, false);
      MovedOn(g, Consume(g, o, f, false).0, n);
    case ReplayFrames(fs) =>
      ReplayStays(g, o, fs, Reply(true, g.state, None));
      MovedOn(g, Replay(g, o, fs).0, n);
    case Timer(k, failure) =>
      ExpireStays(g, k, failure);
      MovedOn(g, Expire(g, k, failure), n);
    case _ => LeftBehindByOthers(m, o, step, n);
  }

  lemma LeftBehindByOthers(m: Machine, o: Options, step: Step, n: nat)
    requires MachineInv(m) && LeftBehind(m.gate, n)
    requires !step.OpenGate? && !step.ConsumeFrame? && !step.ReplayFrames? && !step.Timer?
    ensures LeftBehind(Next(m, o, step).gate, n)
    ensures m.gate.opens == Next(m, o, step).gate.opens
    ensures Next(m, o, step).gate.dropped == Some(n) <==> m.gate.dropped == Some(n)
  {
    hide GateInv;
    if step.CancelGate? {
      DroppedOnce(m.gate);
    }
  }

  lemma MovedOn(a: Gate, b: Gate, n: nat)
    requires MovesOn(a, b) && LeftBehind(a, n)
    ensures LeftBehind(b, n) && b.dropped == a.dropped && a.opens <= b.opens
  {
  }

  /** An attempt is left behind by everything that ends it except its own worker's decision. */
  lemma EndedIsLeftBehind(m: Machine, o: Options, step: Step, n: nat)
    requires MachineInv(m) && Current(m.gate, n) && step != DecideWorker(n)
    requires !Current(Next(m, o, step).gate, n)
    ensures LeftBehind(Next(m, o, step).gate, n)
  {
    var g := m.gate;
    CurrentUndecided(g, n);
    hide GateInv, Consume, Open, Expire, ReplayFrom, MovesOn, Disciplined, ReplayDisciplined;
    match step
    case OpenGate(r) =>
      OpenMovesOn(g, r);
      MovedOff(g, Open(g, r).0, n);
    case ConsumeFrame(f) =>
      ConsumeStays(g, o, f, false);
      MovedOff(g, Consume(g, o, f, false).0, n);
    case ReplayFrames(fs) =>
      ReplayStays(g, o, fs, Reply(true, g.state, None));
      MovedOff(g, Replay(g, o, fs).0, n);
    case Timer(k, failure) =>
      ExpireStays(g, k, failure);
      MovedOff(g, Expire(g, k, failure), n);
    case _ =>
  }

  lemma CurrentUndecided(g: Gate, n: nat)
    requires GateInv(g) && Current(g, n)
    ensures 1 <= n && (n in g.workers ==> Undecided(g.workers[n].stage))
  {
  }

  lemma MovedOff(a: Gate, b: Gate, n: nat)
    requires MovesOn(a, b) && 1 <= n && Current(a, n) && !Current(b, n)
    requires n in a.workers ==> Undecided(a.workers[n].stage)
    ensures LeftBehind(b, n)
  {
  }

  lemma DroppedOnce(g: Gate)
    requires GateInv(g)
    ensures g.dropped.Some? ==> g.state == Dormant
  {
  }

  lemma LeftBehindIsPaid(g: Gate, n: nat)
    requires GateInv(g) && LeftBehind(g, n)
    ensures Count(g.log, n) == if g.dropped == Some(n) then 0 else 1
  {
    assert Balanced(g, n);
  }

  /** A worker whose attempt was left without its verdict being wanted never publishes: in the rest of the
      run, however long, nothing more is published for that attempt. No assumption on command ids. */
  lemma {:induction false} SupersededNeverPublishes(m: Machine, o: Options, steps: seq<Step>, n: nat)
    requires MachineInv(m) && LeftBehind(m.gate, n)
    ensures MachineInv(Run(m, o, steps)) && LeftBehind(Run(m, o, steps).gate, n)
    ensures m.gate.opens <= Run(m, o, steps).gate.opens
    ensures Count(Run(m, o, steps).gate.log, n) == Count(m.gate.log, n)
    decreases |steps|
  {
    hide GateInv, Next, LeftBehind;
    if steps != [] {
      var next := Next(m, o, steps[0]);
      StepKeeps(m, o, steps[0]);
      LeftBehindStays(m, o, steps[0], n);
      LeftBehindIsPaid(m.gate, n);
      LeftBehindIsPaid(next.gate, n);
      SupersededNeverPublishes(next, o, steps[1..], n);
    }
  }

  // ----- the attempt under way

  predicate IsWorkerStep(step: Step, n: nat) {
    match step
    case FinishAsr(k, _, _, _) => k == n
    case EnterProcessing(k) => k == n
    case Conclude(k, _) => k == n
    case DecideWorker(k) => k == n
    case PublishWorker(k) => k == n
    case CompleteWorker(k) => k == n
    case _ => false
  }

  /** The gate as later attempts and callers see it. */
  predicate SameAttempt(a: Gate, b: Gate) {
    && a.state == b.state && a.request == b.request && a.attempt == b.attempt && a.ids == b.ids
    && a.hasStream == b.hasStream && a.captureComplete == b.captureComplete && a.closed == b.closed
    && a.context == b.context && a.contexts == b.contexts && a.log == b.log
  }

  predicate LetIn(before: Gate, after: Gate, n: nat) {
    && n in before.workers && !before.workers[n].stage.Processing?
    && n in after.workers && after.workers[n].stage.Processing?
  }

  /** The worker's context is the gate's own, so the gate has not cancelled it. */
  predicate Live(g: Gate, n: nat) {
    n in g.workers && g.context.Some? && g.workers[n].context == g.context
  }

  /** Exactly what a left worker can do to the attempt under way: it is let into processing if and only if
      it is about to enter while an attempt of its own command id is being recognized, and just then it
      changes that attempt, whose context it replaces. */
  lemma SupersededActsIff(m: Machine, o: Options, n: nat, step: Step)
    requires MachineInv(m) && LeftBehind(m.gate, n)
    requires n in m.gate.workers && IsWorkerStep(step, n)
    ensures
      var g := m.gate;
      var after := Next(m, o, step).gate;
      var enters := step.EnterProcessing? && g.workers[n].stage.Entering? && g.state == Recognizing
                    && g.opens[n - 1] == g.opens[g.attempt - 1];
      && |g.opens| == g.attempt
      && (LetIn(g, after, n) <==> enters)
      && (SameAttempt(g, after) <==> !enters)
  {
    LeftWorker(m.gate, n);
    hide GateInv, LeftBehind, Next, SameAttempt, LetIn;
    if step.EnterProcessing? {
      LeftEnters(m, o, n);
    } else {
      LeftRunsOut(m, o, n, step);
    }
  }

  lemma LeftEnters(m: Machine, o: Options, n: nat)
    requires n in m.gate.workers
    ensures
      var g := m.gate;
      var after := Next(m, o, EnterProcessing(n)).gate;
      var enters := g.workers[n].stage.Entering? && BeginProcessing(g, g.workers[n].command).1;
      (LetIn(g, after, n) <==> enters) && (SameAttempt(g, after) <==> !enters)
  {
  }

  lemma LeftRunsOut(m: Machine, o: Options, n: nat, step: Step)
    requires n in m.gate.workers && LeftBehind(m.gate, n) && IsWorkerStep(step, n) && !step.EnterProcessing?
    ensures
      var after := Next(m, o, step).gate;
      SameAttempt(m.gate, after) && !LetIn(m.gate, after, n)
  {
    if step.DecideWorker? {
      LeftDecides(m, o, n);
    }
    hide Consume, Open, Expire, ReplayFrom, Decide;
  }

  lemma LeftDecides(m: Machine, o: Options, n: nat)
    requires n in m.gate.workers && LeftBehind(m.gate, n)
    ensures
      var after := Next(m, o, DecideWorker(n)).gate;
      SameAttempt(m.gate, after) && !LetIn(m.gate, after, n)
  {
  }

  lemma LeftWorker(g: Gate, n: nat)
    requires GateInv(g) && LeftBehind(g, n) && n in g.workers
    ensures |g.opens| == g.attempt && g.workers[n].command == g.opens[n - 1]
    ensures g.state != Dormant ==> !g.closed && g.request.command == g.opens[g.attempt - 1]
  {
  }

  /** Command id `n` was accepted under is not accepted again by any later attempt. */
  ghost predicate NotAcceptedAgain(opens: seq<Id>, n: nat) {
    1 <= n <= |opens| && forall j :: n <= j < |opens| ==> opens[j] != opens[n - 1]
  }

  /** With distinct command ids a left worker is silent at any distance and for the rest of the run: none
      of its steps publishes, changes the attempt under way, or begins to process. */
  lemma SupersededWorkerIsSilent(m: Machine, o: Options, steps: seq<Step>, n: nat, step: Step)
    requires MachineInv(m) && LeftBehind(m.gate, n)
    requires NotAcceptedAgain(Run(m, o, steps).gate.opens, n)
    requires n in Run(m, o, steps).gate.workers && IsWorkerStep(step, n)
    ensures
      var later := Run(m, o, steps);
      && SameAttempt(later.gate, Next(later, o, step).gate)
      && !LetIn(later.gate, Next(later, o, step).gate, n)
  {
    SupersededNeverPublishes(m, o, steps, n);
    SupersededActsIff(Run(m, o, steps), o, n, step);
  }

  // ----- an id accepted again

  /** The `k`-th of as many different command ids as one likes. */
  function Name(k: nat): Id {
    if k == 0 then "a" else Name(k - 1) + "b"
  }

  lemma {:induction false} NamesDiffer(k: nat)
    ensures |Name(k)| == k + 1
  {
    if k > 0 {
      NamesDiffer(k - 1);
    }
  }

  function Signal(k: nat): Step {
    OpenGate(Request("s", Name(k), 1, 1))
  }

  /** A frame in which somebody speaks a whole utterance. */
  const Spoken := Frame(true, 1, false, false, true, [Opened(true, true), Final])

  const Limits := Options(100, 50)

  /** Every wake signal up to `k`, one after another. */
  function Signals(k: nat): seq<Step> {
    if k == 0 then [] else Signals(k - 1) + [Signal(k)]
  }

  function Names(k: nat): seq<Id> {
    if k == 0 then [Name(0)] else Names(k - 1) + [Name(k)]
  }

  lemma {:induction false} NamesAt(k: nat, i: nat)
    requires i <= k
    ensures |Names(k)| == k + 1 && Names(k)[i] == Name(i)
    decreases k
  {
    if k > 0 {
      NamesAt(k - 1, if i < k then i else 0);
    }
  }

  lemma {:induction false} RunAdds(m: Machine, o: Options, first: seq<Step>, second: seq<Step>)
    ensures Run(m, o, first + second) == Run(Run(m, o, first), o, second)
    decreases |first|
  {
    hide Next;
    if first == [] {
      assert first + second == second;
    } else {
      assert (first + second)[1..] == first[1..] + second;
      RunAdds(Next(m, o, first[0]), o, first[1..], second);
    }
  }

  /** The first signal, one utterance, and its worker about to enter processing. */
  const FirstAttempt: seq<Step> := [Signal(0), ConsumeFrame(Spoken), FinishAsr(1, true, false, false)]

  lemma FirstAttemptEnters()
    ensures
      var g := Run(Fresh, Limits, FirstAttempt).gate;
      && g.state == Recognizing && g.attempt == 1 && !g.closed && g.opens == Names(0)
      && g.workers == map[1 := Worker(Name(0), Entering, Some(0))]
  {
    var g0 := Open(NewGate, Signal(0).request).0;
    assert g0.state == Armed && g0.attempt == 1 && g0.opens == [Name(0)] && g0.workers == map[];
    UtteranceRecognizes(g0);
    var m1 := Next(Fresh, Limits, Signal(0));
    var m2 := Next(m1, Limits, ConsumeFrame(Spoken));
    var m3 := Next(m2, Limits, FinishAsr(1, true, false, false));
    assert FirstAttempt[1..][1..] == [FinishAsr(1, true, false, false)];
    assert Run(m2, Limits, [FinishAsr(1, true, false, false)]) == m3;
    assert Run(m1, Limits, FirstAttempt[1..]) == m3;
  }

  lemma UtteranceRecognizes(g: Gate)
    requires g.state == Armed && !g.speech && g.request.openedAt == 1 && g.request.captureFrom == 1
    ensures Disciplined(g.speech, Spoken.events)
    ensures
      var after := Consume(g, Limits, Spoken, false).0;
      && after.state == Recognizing && after.attempt == g.attempt && after.opens == g.opens && after.closed == g.closed
      && after.captureComplete == g.captureComplete && after.request == g.request && after.context == g.context
      && after.workers == g.workers[g.attempt := Worker(g.request.command, Finalizing, g.context)]
  {
    var open := g.(hasStream := true, state := Capturing, speech := true);
    assert Spoken.events[1..] == [Final];
    assert HandleEvents(open, Spoken, [Final], Capturing) == StartRecognition(open.(speech := false));
  }

  /** After up to 256 other signals the first worker still waits to enter. */
  ghost predicate Overtaken(m: Machine, k: nat) {
    && MachineInv(m)
    && m.gate.attempt == k + 1 && !m.gate.closed && m.gate.opens == Names(k)
    && 1 in m.gate.workers && m.gate.workers[1] == Worker(Name(0), Entering, Some(0))
  }

  lemma NoneYet()
    ensures Overtaken(Run(Fresh, Limits, FirstAttempt), 0)
  {
    RunKeeps(Fresh, Limits, FirstAttempt);
    FirstAttemptEnters();
    hide MachineInv, Run;
  }

  lemma {:induction false} OthersAccepted(k: nat)
    requires k <= RETENTION
    ensures Overtaken(Run(Fresh, Limits, FirstAttempt + Signals(k)), k)
  {
    hide MachineInv, Overtaken, Next, Run, Names, Name;
    if k == 0 {
      assert FirstAttempt + Signals(0) == FirstAttempt;
      NoneYet();
    } else {
      OthersAccepted(k - 1);
      var m := Run(Fresh, Limits, FirstAttempt + Signals(k - 1));
      assert FirstAttempt + Signals(k) == (FirstAttempt + Signals(k - 1)) + [Signal(k)];
      RunAdds(Fresh, Limits, FirstAttempt + Signals(k - 1), [Signal(k)]);
      OneStep(m, Limits, Signal(k));
      OneMoreOvertakes(m, k);
    }
  }

  lemma OneMoreOvertakes(m: Machine, k: nat)
    requires 1 <= k && Overtaken(m, k - 1)
    ensures Overtaken(Next(m, Limits, Signal(k)), k)
  {
    StepKeeps(m, Limits, Signal(k));
    NewNameIsFresh(m.gate, k);
    hide GateInv;
  }

  lemma OneStep(m: Machine, o: Options, step: Step)
    ensures Run(m, o, [step]) == Next(m, o, step)
  {
    hide Next;
    assert [step][1..] == [];
  }

  lemma NewNameIsFresh(g: Gate, k: nat)
    requires GateInv(g) && 1 <= k && g.opens == Names(k - 1)
    ensures Name(k) !in g.ids && Name(k) != ""
  {
    NamesDiffer(k);
    NamesAt(k - 1, 0);
    forall i: nat | i < |g.opens| ensures g.opens[i] != Name(k) {
      NamesAt(k - 1, i);
      NamesDiffer(i);
    }
    RecentIsPart(g.opens);
  }

  lemma RecentIsPart(opens: seq<Id>)
    ensures forall id :: id in Recent(opens) ==> id in opens
  {
  }

  lemma FirstNameForgotten(g: Gate)
    requires GateInv(g) && g.opens == Names(RETENTION)
    ensures Name(0) !in g.ids
  {
    forall i: nat | i < |g.ids| ensures g.ids[i] != Name(0) {
      NamesAt(RETENTION, i + 1);
      NamesAt(RETENTION, 0);
      NamesDiffer(i + 1);
    }
  }

  lemma AcceptedAgain(m: Machine)
    requires Overtaken(m, RETENTION)
    ensures
      var g := Next(m, Limits, Signal(0)).gate;
      && g.state == Armed && !g.speech && !g.closed && !g.captureComplete && g.attempt == RETENTION + 2
      && g.workers == m.gate.workers && g.request == Request("s", Name(0), 1, 1)
  {
    FirstNameForgotten(m.gate);
    DormantIsQuiet(m.gate);
    hide MachineInv;
  }

  lemma DormantIsQuiet(g: Gate)
    requires GateInv(g)
    ensures g.state == Dormant ==> !g.speech
  {
  }

  /** The attempt under way is recognizing command 0, and so would worker 1, which waits to enter. */
  predicate Confusable(g: Gate) {
    && g.attempt == RETENTION + 2 && g.state == Recognizing && !g.closed && !g.captureComplete
    && g.request.command == Name(0)
    && 1 in g.workers && g.workers[1] == Worker(Name(0), Entering, Some(0))
    && g.attempt in g.workers && g.workers[g.attempt] == Worker(Name(0), Finalizing, g.context)
  }

  lemma SpokenAgain(m: Machine)
    requires
      && m.gate.state == Armed && !m.gate.speech && !m.gate.closed && !m.gate.captureComplete
      && m.gate.attempt == RETENTION + 2 && m.gate.request == Request("s", Name(0), 1, 1)
      && 1 in m.gate.workers && m.gate.workers[1] == Worker(Name(0), Entering, Some(0))
    ensures Confusable(Next(m, Limits, ConsumeFrame(Spoken)).gate)
  {
    hide Consume, Disciplined, Name;
    UtteranceRecognizes(m.gate);
  }

  lemma ConfusableRevives(m: Machine)
    requires Confusable(m.gate)
    ensures LeftBehind(m.gate, 1)
    ensures LetIn(m.gate, Next(m, Limits, EnterProcessing(1)).gate, 1)
    ensures Next(m, Limits, EnterProcessing(1)).gate.captureComplete
  {
    hide Name;
  }

  /** The first command id is accepted once more after 256 others, and its command is spoken again. */
  const IdAcceptedAgain: seq<Step> := FirstAttempt + Signals(RETENTION) + [Signal(0), ConsumeFrame(Spoken)]

  lemma AcceptedAgainConfuses()
    ensures Confusable(Run(Fresh, Limits, IdAcceptedAgain).gate)
  {
    hide Overtaken, Next, Consume, Open, Confusable;
    var before := FirstAttempt + Signals(RETENTION);
    var m := Run(Fresh, Limits, before);
    OthersAccepted(RETENTION);
    RunAdds(Fresh, Limits, before, [Signal(0), ConsumeFrame(Spoken)]);
    var m1 := Next(m, Limits, Signal(0));
    assert [Signal(0), ConsumeFrame(Spoken)][1..] == [ConsumeFrame(Spoken)];
    OneStep(m1, Limits, ConsumeFrame(Spoken));
    AgainRecognizing(m);
  }

  lemma AgainRecognizing(m: Machine)
    requires Overtaken(m, RETENTION)
    ensures Confusable(Next(Next(m, Limits, Signal(0)), Limits, ConsumeFrame(Spoken)).gate)
  {
    hide MachineInv, Next, Confusable;
    AcceptedAgain(m);
    SpokenAgain(Next(m, Limits, Signal(0)));
  }

  /** A run that fails: the old worker of the id is let into the new attempt and completes its capture,
      though the attempt is not its own. */
  lemma ReacceptedIdRevivesItsWorker()
    ensures
      var m := Run(Fresh, Limits, IdAcceptedAgain);
      var after := Next(m, Limits, EnterProcessing(1)).gate;
      && m.gate.attempt == RETENTION + 2 && m.gate.state == Recognizing && LeftBehind(m.gate, 1)
      && LetIn(m.gate, after, 1) && !m.gate.captureComplete && after.captureComplete
  {
    AcceptedAgainConfuses();
    hide Name, Run, Signals;
    ConfusableRevives(Run(Fresh, Limits, IdAcceptedAgain));
  }

  const Successor: nat := RETENTION + 2

  /** The same run, with the new attempt's own worker at work. When the old worker is let in, the own
      worker's context is cancelled under it, though its attempt is still the one under way. */
  lemma ReacceptedIdCancelsItsSuccessor()
    ensures
      var own := [FinishAsr(Successor, true, false, false), EnterProcessing(Successor)];
      var m := Run(Fresh, Limits, IdAcceptedAgain + own);
      var after := Next(m, Limits, EnterProcessing(1)).gate;
      && LeftBehind(m.gate, 1) && LetIn(m.gate, after, 1) && m.gate.captureComplete
      && Current(m.gate, Successor) && Runs(m.gate, Successor, Processing) && Live(m.gate, Successor)
      && Current(after, Successor) && Runs(after, Successor, Processing) && !Live(after, Successor)
  {
    hide Name, Signals, Confusable, Next, LetIn, LeftBehind;
    AcceptedAgainConfuses();
    var m := Run(Fresh, Limits, IdAcceptedAgain);
    var enter := EnterProcessing(Successor);
    var finish := FinishAsr(Successor, true, false, false);
    RunAdds(Fresh, Limits, IdAcceptedAgain, [finish, enter]);
    assert [finish, enter][1..] == [enter];
    OneStep(Next(m, Limits, finish), Limits, enter);
    SuccessorWorks(m);
    SuccessorIsCancelled(Next(Next(m, Limits, finish), Limits, enter));
  }

  /** Both workers of the id stand ready, and the own one is at work. */
  predicate Endangered(g: Gate) {
    && g.attempt == Successor && g.state == Recognizing && !g.closed && g.captureComplete
    && g.request.command == Name(0) && Live(g, Successor) && g.context.value < g.contexts
    && 1 in g.workers && g.workers[1] == Worker(Name(0), Entering, Some(0))
    && Runs(g, Successor, Processing)
  }

  lemma SuccessorWorks(m: Machine)
    requires Confusable(m.gate)
    ensures Endangered(
              Next(Next(m, Limits, FinishAsr(Successor, true, false, false)), Limits, EnterProcessing(Successor)).gate)
  {
    hide Name;
  }

  lemma SuccessorIsCancelled(m: Machine)
    requires Endangered(m.gate)
    ensures
      var after := Next(m, Limits, EnterProcessing(1)).gate;
      && LeftBehind(m.gate, 1) && LetIn(m.gate, after, 1)
      && Current(after, Successor) && Runs(after, Successor, Processing) && !Live(after, Successor)
  {
    hide Name;
  }
}

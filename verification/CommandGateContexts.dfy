/** The contexts under which workers interpret and execute. The gate cancels a context when it replaces or
    drops it, so of all contexts it handed out only its own is live. */
module CommandGateContexts {
  import opened Wrappers
  import opened CommandGate
  import opened CommandGateSafety
  import opened CommandGateStale

  // ----- the invariant

  ghost predicate OneLive(g: Gate) {
    forall a, b :: Live(g, a) && Live(g, b) ==> a == b
  }

  ghost predicate ContextsKept(g: Gate) {
    && (g.context.Some? <==> g.state != Dormant)
    && (g.context.Some? ==> g.context.value < g.contexts)
    && (forall n :: n in g.workers ==> g.workers[n].context.Some? && g.workers[n].context.value < g.contexts)
    && (forall n :: Live(g, n) ==> g.state == Recognizing)
    && OneLive(g)
  }

  lemma FailContexts(g: Gate, failure: Failure)
    requires ContextsKept(g)
    ensures ContextsKept(Fail(g, failure).0)
  {
  }

  lemma OpenContexts(g: Gate, r: Request)
    requires ContextsKept(g)
    ensures ContextsKept(Open(g, r).0)
  {
  }

  lemma RecognitionContexts(g: Gate)
    requires ContextsKept(g) && (g.state == Armed || g.state == Capturing)
    ensures ContextsKept(StartRecognition(g.(speech := false)).0)
  {
    var after := StartRecognition(g.(speech := false)).0;
    forall n | Live(after, n) ensures n == g.attempt {
      if n != g.attempt {
        assert Live(g, n);
      }
    }
  }

  lemma {:induction false} EventsContexts(g: Gate, f: Frame, events: seq<VadEvent>, answer: State)
    requires ContextsKept(g) && (g.state == Armed || g.state == Capturing)
    ensures ContextsKept(HandleEvents(g, f, events, answer).0)
    decreases |events|
  {
    hide ContextsKept, Fail, StartRecognition, Classify;
    if events != [] {
      match events[0]
      case Opened(streamStarts, prefixSent) =>
        var open := g.(hasStream := true, state := Capturing, speech := true);
        ListeningContexts(g);
        if !streamStarts {
          FailContexts(g, Classify(f.callerDone, f.deadline, AsrFailed));
        } else if !prefixSent {
          FailContexts(open, Classify(f.callerDone, f.deadline, AsrFailed));
        } else {
          EventsContexts(open, f, events[1..], Capturing);
        }
      case Audio(present, sent) =>
        if !present || !g.hasStream {
          FailContexts(g, InvalidAudio);
        } else if !sent {
          FailContexts(g, Classify(f.callerDone, f.deadline, AsrFailed));
        } else {
          EventsContexts(g, f, events[1..], Capturing);
        }
      case Final => RecognitionContexts(g);
    }
  }

  lemma ListeningContexts(g: Gate)
    requires ContextsKept(g) && (g.state == Armed || g.state == Capturing)
    ensures ContextsKept(g.(hasStream := true, state := Capturing, speech := true))
  {
    var open := g.(hasStream := true, state := Capturing, speech := true);
    assert forall n :: Live(open, n) ==> Live(g, n);
  }

  lemma ConsumeContexts(g: Gate, o: Options, f: Frame, replayed: bool)
    requires ContextsKept(g)
    ensures ContextsKept(Consume(g, o, f, replayed).0)
  {
    hide ContextsKept, Fail, HandleEvents, Classify;
    if g.state == Armed || g.state == Capturing {
      EventsContexts(g, f, f.events, g.state);
      forall failure {:trigger Fail(g, failure)} ensures ContextsKept(Fail(g, failure).0) {
        FailContexts(g, failure);
      }
    }
  }

  lemma {:induction false} ReplayContexts(g: Gate, o: Options, frames: seq<Frame>, answer: Reply)
    requires ContextsKept(g)
    ensures ContextsKept(ReplayFrom(g, o, frames, answer).0)
    decreases |frames|
  {
    hide ContextsKept, Consume;
    if frames != [] {
      var (next, result) := Consume(g, o, frames[0], true);
      ConsumeContexts(g, o, frames[0], true);
      if result.state != Dormant {
        ReplayContexts(next, o, frames[1..], result);
      }
    }
  }

  lemma ExpireContexts(g: Gate, n: nat, failure: Failure)
    requires ContextsKept(g)
    ensures ContextsKept(Expire(g, n, failure))
  {
    hide ContextsKept, Fail;
    FailContexts(g, failure);
  }

  lemma AdmitContexts(g: Gate, n: nat)
    requires ContextsKept(g) && g.state == Recognizing && n in g.workers
    ensures ContextsKept(Admit(Renew(g).(captureComplete := true), n))
  {
    hide OneLive;
    assert OneLive(Admit(Renew(g).(captureComplete := true), n)) by {
      OnlyTheAdmitted(g, n);
    }
  }

  lemma OnlyTheAdmitted(g: Gate, n: nat)
    requires ContextsKept(g) && n in g.workers
    ensures OneLive(Admit(Renew(g).(captureComplete := true), n))
  {
    var after := Admit(Renew(g).(captureComplete := true), n);
    assert forall k :: Live(after, k) ==> k == n;
  }

  lemma StageContexts(g: Gate, n: nat, stage: Stage)
    requires ContextsKept(g) && n in g.workers
    ensures ContextsKept(At(g, n, stage))
  {
    assert forall k :: Live(At(g, n, stage), k) <==> Live(g, k);
  }

  lemma EnterContexts(m: Machine, o: Options, n: nat)
    requires ContextsKept(m.gate)
    ensures ContextsKept(Next(m, o, EnterProcessing(n)).gate)
  {
    hide ContextsKept, At, Admit;
    var g := m.gate;
    if Runs(g, n, Entering) {
      if BeginProcessing(g, g.workers[n].command).1 {
        AdmitContexts(g, n);
      } else {
        StageContexts(g, n, Deciding(Failed(Canceled)));
      }
    }
  }

  lemma AbandonContexts(g: Gate)
    requires ContextsKept(g)
    ensures ContextsKept(Abandon(g))
  {
  }

  lemma DecideContexts(g: Gate, n: nat, stage: Stage)
    requires ContextsKept(g) && n in g.workers
    ensures ContextsKept(At(Decide(g, n).0, n, stage))
  {
    hide ContextsKept;
    AbandonContexts(g);
    StageContexts(Decide(g, n).0, n, stage);
  }

  /** What is published, closed or no longer running has no context to lose. */
  lemma FewerContexts(g: Gate, after: Gate)
    requires ContextsKept(g)
    requires after.context == g.context && after.contexts == g.contexts && after.state == g.state
    requires forall n :: n in after.workers ==> n in g.workers && after.workers[n].context == g.workers[n].context
    ensures ContextsKept(after)
  {
    assert forall k :: Live(after, k) ==> Live(g, k);
  }

  lemma OtherContexts(m: Machine, o: Options, step: Step)
    requires ContextsKept(m.gate)
    requires step.FinishAsr? || step.Conclude? || step.DecideWorker? || step.PublishWorker? || step.CompleteWorker?
             || step.CancelGate? || step.ReturnCancel?
    ensures ContextsKept(Next(m, o, step).gate)
  {
    hide ContextsKept, Decide;
    var g := m.gate;
    match step
    case DecideWorker(n) =>
      if n in g.workers && g.workers[n].stage.Deciding? {
        DecideContexts(g, n, if Decide(g, n).1 then Publishing(g.workers[n].stage.verdict) else Finished);
      }
    case CancelGate(_) =>
      AbandonContexts(g);
      FewerContexts(Abandon(g), Abandon(g).(closed := true, dropped := Next(m, o, step).gate.dropped));
      FewerContexts(g, g);
    case _ => FewerContexts(g, Next(m, o, step).gate);
  }

  lemma StepContexts(m: Machine, o: Options, step: Step)
    requires ContextsKept(m.gate)
    ensures ContextsKept(Next(m, o, step).gate)
  {
    hide ContextsKept, Open, Consume, ReplayFrom, Expire, Disciplined, ReplayDisciplined, At, Admit, BeginProcessing,
         Decide;
    match step
    case OpenGate(r) => OpenContexts(m.gate, r);
    case ConsumeFrame(f) => ConsumeContexts(m.gate, o, f, false);
    case ReplayFrames(fs) => ReplayContexts(m.gate, o, fs, Reply(true, m.gate.state, None));
    case Timer(n, failure) => ExpireContexts(m.gate, n, failure);
    case EnterProcessing(n) => EnterContexts(m, o, n);
    case _ => OtherContexts(m, o, step);
  }

  lemma {:induction false} RunContexts(m: Machine, o: Options, steps: seq<Step>)
    requires ContextsKept(m.gate)
    ensures ContextsKept(Run(m, o, steps).gate)
    decreases |steps|
  {
    hide ContextsKept, Next;
    if steps != [] {
      StepContexts(m, o, steps[0]);
      RunContexts(Next(m, o, steps[0]), o, steps[1..]);
    }
  }

  // ----- the guarantees

  /** At any moment of any run at most one worker has a context that the gate has not cancelled, and only
      while an attempt is being recognized. */
  lemma AtMostOneLive(o: Options, steps: seq<Step>, a: nat, b: nat)
    requires Live(Run(Fresh, o, steps).gate, a)
    ensures Run(Fresh, o, steps).gate.state == Recognizing
    ensures Live(Run(Fresh, o, steps).gate, b) ==> a == b
  {
    RunContexts(Fresh, o, steps);
  }

  /** Exactly how the worker of the attempt under way loses its context while its attempt goes on: another
      worker of the same command id is let in. */
  lemma CancelledUnderWayIff(m: Machine, o: Options, step: Step, n: nat)
    requires MachineInv(m) && ContextsKept(m.gate)
    requires Live(m.gate, n) && Current(m.gate, n)
    ensures
      var g := m.gate;
      var after := Next(m, o, step).gate;
      && |g.opens| == n
      && (Current(after, n) && !Live(after, n) <==>
            && step.EnterProcessing? && step.n != n && Runs(g, step.n, Entering)
            && 1 <= step.n <= n && g.opens[step.n - 1] == g.opens[n - 1])
  {
    UnderWay(m.gate);
    hide GateInv, ContextsKept, Live, Current, Next, Runs;
    match step
    case EnterProcessing(k) => EnterTakes(m, o, k, n);
    case OpenGate(_) => SourcesLeaveContexts(m, o, step, n);
    case Timer(_, _) => SourcesLeaveContexts(m, o, step, n);
    case CancelGate(_) => SourcesLeaveContexts(m, o, step, n);
    case ConsumeFrame(_) => FramesLeaveContexts(m, o, step, n);
    case ReplayFrames(_) => FramesLeaveContexts(m, o, step, n);
    case _ => WorkersLeaveContexts(m, o, step, n);
  }

  lemma FramesLeaveContexts(m: Machine, o: Options, step: Step, n: nat)
    requires Live(m.gate, n) && m.gate.state == Recognizing
    requires step.ConsumeFrame? || step.ReplayFrames?
    ensures Live(Next(m, o, step).gate, n)
  {
    if step.ReplayFrames? {
      RecognizingReplays(m.gate, o, step.frames, Reply(true, m.gate.state, None));
    }
    hide ReplayFrom, HandleEvents, Disciplined, ReplayDisciplined;
  }

  lemma SourcesLeaveContexts(m: Machine, o: Options, step: Step, n: nat)
    requires Live(m.gate, n) && Current(m.gate, n)
    requires step.OpenGate? || step.Timer? || step.CancelGate?
    ensures Current(Next(m, o, step).gate, n) ==> Live(Next(m, o, step).gate, n)
  {
  }

  lemma WorkersLeaveContexts(m: Machine, o: Options, step: Step, n: nat)
    requires Live(m.gate, n) && Current(m.gate, n) && Undecided(m.gate.workers[n].stage)
    requires step.FinishAsr? || step.Conclude? || step.DecideWorker? || step.PublishWorker? || step.CompleteWorker?
             || step.ReturnCancel?
    ensures Current(Next(m, o, step).gate, n) ==> Live(Next(m, o, step).gate, n)
  {
  }

  lemma UnderWay(g: Gate)
    requires GateInv(g) && ContextsKept(g)
    ensures |g.opens| == g.attempt
    ensures forall n :: n in g.workers ==> 1 <= n <= g.attempt && g.workers[n].command == g.opens[n - 1]
    ensures g.state != Dormant ==> !g.closed && g.request.command == g.opens[g.attempt - 1]
    ensures forall n :: Live(g, n) ==> g.state == Recognizing
    ensures forall n :: n in g.workers && Current(g, n) ==> Undecided(g.workers[n].stage)
    ensures g.context.Some? ==> g.context.value < g.contexts
  {
  }

  lemma EnterTakes(m: Machine, o: Options, k: nat, n: nat)
    requires GateInv(m.gate) && ContextsKept(m.gate) && Live(m.gate, n) && Current(m.gate, n)
    ensures
      var g := m.gate;
      var after := Next(m, o, EnterProcessing(k)).gate;
      && |g.opens| == n && Current(after, n)
      && (!Live(after, n) <==> k != n && Runs(g, k, Entering) && 1 <= k <= n && g.opens[k - 1] == g.opens[n - 1])
  {
    UnderWay(m.gate);
    hide GateInv, ContextsKept;
  }

  lemma {:induction false} RecognizingReplays(g: Gate, o: Options, frames: seq<Frame>, answer: Reply)
    requires g.state == Recognizing
    ensures ReplayFrom(g, o, frames, answer).0 == g
    decreases |frames|
  {
    if frames != [] {
      RecognizingReplays(g, o, frames[1..], Reply(true, Recognizing, None));
    }
  }

  // ----- with distinct ids

  ghost predicate Distinct(opens: seq<Id>) {
    forall i, j :: 0 <= i < j < |opens| ==> opens[i] != opens[j]
  }

  /** The attempt being recognized has a worker, and that worker has the gate's context. */
  predicate OwnContext(g: Gate) {
    g.state == Recognizing ==> Live(g, g.attempt)
  }

  lemma EarlierOpens(a: Gate, b: Gate)
    requires MovesOn(a, b)
    ensures a.opens <= b.opens
  {
  }

  lemma OpensGrow(m: Machine, o: Options, step: Step)
    ensures m.gate.opens <= Next(m, o, step).gate.opens
  {
    hide MovesOn, Open, Consume, ReplayFrom, Expire, Disciplined, ReplayDisciplined;
    var g := m.gate;
    match step
    case OpenGate(r) =>
      OpenMovesOn(g, r);
      EarlierOpens(g, Open(g, r).0);
    case ConsumeFrame(f) =>
      ConsumeStays(g, o, f, false);
      EarlierOpens(g, Consume(g, o, f, false).0);
    case ReplayFrames(fs) =>
      ReplayStays(g, o, fs, Reply(true, g.state, None));
      EarlierOpens(g, Replay(g, o, fs).0);
    case Timer(k, failure) =>
      ExpireStays(g, k, failure);
      EarlierOpens(g, Expire(g, k, failure));
    case _ =>
  }

  lemma {:induction false} RunOpensGrow(m: Machine, o: Options, steps: seq<Step>)
    ensures m.gate.opens <= Run(m, o, steps).gate.opens
    decreases |steps|
  {
    hide Next;
    if steps != [] {
      OpensGrow(m, o, steps[0]);
      RunOpensGrow(Next(m, o, steps[0]), o, steps[1..]);
    }
  }

  lemma {:induction false} EventsOwn(g: Gate, f: Frame, events: seq<VadEvent>, answer: State)
    requires (g.state == Armed || g.state == Capturing) && g.context.Some?
    ensures OwnContext(HandleEvents(g, f, events, answer).0)
    decreases |events|
  {
    if events != [] {
      match events[0]
      case Opened(_, _) =>
        EventsOwn(g.(hasStream := true, state := Capturing, speech := true), f, events[1..], Capturing);
      case Audio(_, _) => EventsOwn(g, f, events[1..], Capturing);
      case Final =>
    }
  }

  lemma ConsumeOwn(g: Gate, o: Options, f: Frame, replayed: bool)
    requires ContextsKept(g) && OwnContext(g)
    ensures OwnContext(Consume(g, o, f, replayed).0)
  {
    if g.state == Armed || g.state == Capturing {
      EventsOwn(g, f, f.events, g.state);
    }
    hide HandleEvents, OneLive;
  }

  lemma {:induction false} ReplayOwn(g: Gate, o: Options, frames: seq<Frame>, answer: Reply)
    requires ContextsKept(g) && OwnContext(g)
    ensures OwnContext(ReplayFrom(g, o, frames, answer).0)
    decreases |frames|
  {
    hide ContextsKept, Consume, OwnContext;
    if frames != [] {
      var (next, result) := Consume(g, o, frames[0], true);
      ConsumeContexts(g, o, frames[0], true);
      ConsumeOwn(g, o, frames[0], true);
      if result.state != Dormant {
        ReplayOwn(next, o, frames[1..], result);
      }
    }
  }

  lemma WorkerOwn(m: Machine, o: Options, step: Step)
    requires MachineInv(m) && OwnContext(m.gate) && Distinct(m.gate.opens)
    requires !step.OpenGate? && !step.ConsumeFrame? && !step.ReplayFrames? && !step.Timer?
    ensures OwnContext(Next(m, o, step).gate)
  {
    RecognizingWorkers(m.gate);
    hide GateInv;
  }

  lemma RecognizingWorkers(g: Gate)
    requires GateInv(g)
    ensures |g.opens| == g.attempt
    ensures forall n :: n in g.workers ==> 1 <= n <= g.attempt && g.workers[n].command == g.opens[n - 1]
    ensures g.state != Dormant ==> g.request.command == g.opens[g.attempt - 1]
    ensures g.state == Recognizing ==> g.attempt in g.workers && Undecided(g.workers[g.attempt].stage)
  {
  }

  lemma StepOwn(m: Machine, o: Options, step: Step)
    requires MachineInv(m) && ContextsKept(m.gate) && OwnContext(m.gate) && Distinct(m.gate.opens)
    ensures OwnContext(Next(m, o, step).gate)
  {
    hide GateInv, ContextsKept, Consume, ReplayFrom, Disciplined, ReplayDisciplined;
    match step
    case OpenGate(r) =>
    case ConsumeFrame(f) => ConsumeOwn(m.gate, o, f, false);
    case ReplayFrames(fs) => ReplayOwn(m.gate, o, fs, Reply(true, m.gate.state, None));
    case Timer(n, failure) =>
    case _ => WorkerOwn(m, o, step);
  }

  lemma DistinctEarlier(a: seq<Id>, b: seq<Id>)
    requires a <= b && Distinct(b)
    ensures Distinct(a)
  {
  }

  lemma {:induction false} RunOwn(m: Machine, o: Options, steps: seq<Step>)
    requires MachineInv(m) && ContextsKept(m.gate) && OwnContext(m.gate)
    requires Distinct(Run(m, o, steps).gate.opens)
    ensures MachineInv(Run(m, o, steps)) && ContextsKept(Run(m, o, steps).gate) && OwnContext(Run(m, o, steps).gate)
    decreases |steps|
  {
    hide MachineInv, ContextsKept, OwnContext, Distinct, Next;
    if steps != [] {
      RunOpensGrow(m, o, steps);
      DistinctEarlier(m.gate.opens, Run(m, o, steps).gate.opens);
      StepKeeps(m, o, steps[0]);
      StepContexts(m, o, steps[0]);
      StepOwn(m, o, steps[0]);
      RunOwn(Next(m, o, steps[0]), o, steps[1..]);
    }
  }

  /** With distinct command ids a worker's context is live exactly while its attempt is the one under way:
      nothing but leaving the attempt ever cancels it. */
  lemma LiveIffCurrent(o: Options, steps: seq<Step>, n: nat)
    requires Distinct(Run(Fresh, o, steps).gate.opens)
    requires n in Run(Fresh, o, steps).gate.workers
    ensures Live(Run(Fresh, o, steps).gate, n) <==> Current(Run(Fresh, o, steps).gate, n)
  {
    RunOwn(Fresh, o, steps);
    var g := Run(Fresh, o, steps).gate;
    hide Run;
    if Current(g, n) {
      CurrentRecognizes(g, n);
    }
  }
}

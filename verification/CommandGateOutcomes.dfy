/** What each section of the gate does to the attempt under way and publishes, case by case. */
module CommandGateOutcomes {
  import opened Wrappers
  import opened CommandGate
  import opened CommandGateSafety

  // ----- the two ways an attempt ends

  /** The attempt is over: its own outcome was published, last of all, and nothing of it is left. */
  predicate EndsWith(g: Gate, after: Gate, verdict: Verdict) {
    && |after.log| == |g.log| + 1 && after.log[..|g.log|] == g.log
    && after.log[|g.log|] == Outcome(g.attempt, g.request.command, verdict)
    && Left(after) && after.ids == g.ids && after.opens == g.opens && after.attempt == g.attempt
    && after.workers == g.workers && after.starts == g.starts && after.closed == g.closed
  }

  /** Nothing of an attempt is left in the gate. */
  predicate Left(g: Gate) {
    && g.state == Dormant && g.request == NoRequest && !g.hasStream && !g.speech && !g.captureComplete
    && g.context.None?
  }

  lemma FailOutcome(g: Gate, failure: Failure)
    ensures
      var (after, r) := Fail(g, failure);
      EndsWith(g, after, Failed(failure)) && r == Reply(true, Dormant, Some(failure))
  {
  }

  // ----- wake signals

  predicate WellFormed(r: Request) {
    r.session != "" && r.command != "" && r.openedAt != 0 && (r.captureFrom == 0 || r.captureFrom <= r.openedAt)
  }

  /** A signal is refused for being malformed, coming too late, or being a duplicate, in that order, and then
      changes nothing. An accepted one cancels the attempt under way, if any, and arms the next one: from the
      time it asks for, or else from its own, with everything fresh. */
  lemma OpenOutcome(g: Gate, r: Request)
    ensures
      var (after, refused) := Open(g, r);
      && (refused == Some(InvalidOpenRequest) <==> !WellFormed(r))
      && (refused == Some(GateClosed) <==> WellFormed(r) && g.closed)
      && (refused == Some(DuplicateOpen) <==> WellFormed(r) && !g.closed && r.command in g.ids)
      && (refused.Some? ==> after == g)
      && (refused.None? ==>
            && after.state == Armed && after.attempt == g.attempt + 1
            && after.request.session == r.session && after.request.command == r.command
            && after.request.openedAt == r.openedAt
            && after.request.captureFrom == (if r.captureFrom == 0 then r.openedAt else r.captureFrom)
            && !after.hasStream && !after.speech && !after.captureComplete && !after.closed
            && after.context == Some(g.contexts) && after.contexts == g.contexts + 1
            && after.ids == Remember(g.ids, r.command) && after.opens == g.opens + [r.command]
            && after.workers == g.workers && after.starts == g.starts && after.dropped == g.dropped
            && after.log == if g.state == Dormant then g.log
                            else g.log + [Outcome(g.attempt, g.request.command, Failed(Canceled))])
  {
  }

  // ----- frames

  /** A frame reaches an attempt that still listens, from a caller that is still there, with sound audio. */
  predicate Reaches(g: Gate, f: Frame) {
    (g.state == Armed || g.state == Capturing) && !f.callerDone && f.valid
  }

  predicate Early(g: Gate, f: Frame) {
    f.capturedAt < g.request.captureFrom
  }

  predicate TooLate(g: Gate, o: Options, f: Frame) {
    o.windowTTL <= f.capturedAt - g.request.openedAt
  }

  predicate TooQuiet(g: Gate, o: Options, f: Frame) {
    g.state == Armed && o.noSpeechTimeout <= f.capturedAt - g.request.openedAt
  }

  /** A frame nobody listens for passes through; while recognition runs it is swallowed. Neither changes the
      gate. */
  lemma UnheardFrames(g: Gate, o: Options, f: Frame, replayed: bool)
    ensures g.state == Dormant ==> Consume(g, o, f, replayed) == (g, Reply(false, Dormant, None))
    ensures g.state == Recognizing ==> Consume(g, o, f, replayed) == (g, Reply(true, Recognizing, None))
  {
  }

  /** A caller that has gone cancels the attempt; unsound audio fails it. */
  lemma BrokenFrames(g: Gate, o: Options, f: Frame, replayed: bool)
    requires (g.state == Armed || g.state == Capturing) && !Reaches(g, f)
    ensures
      var (after, r) := Consume(g, o, f, replayed);
      var failure := if f.callerDone then Canceled else InvalidAudio;
      EndsWith(g, after, Failed(failure)) && r == Reply(true, Dormant, Some(failure))
  {
  }

  /** A live frame captured before the attempt listens is swallowed without a trace; one captured when the
      window is over ends the attempt as expired, even before any speech; one captured in the window, but
      after too long a silence, as silent. Replayed frames are not timed. */
  lemma TimedFrames(g: Gate, o: Options, f: Frame, replayed: bool)
    requires Reaches(g, f)
    ensures
      var (after, r) := Consume(g, o, f, replayed);
      var timed := !replayed;
      && (timed && Early(g, f) ==> after == g && r == Reply(true, Armed, None))
      && (timed && !Early(g, f) && TooLate(g, o, f) ==>
            EndsWith(g, after, Failed(WindowExpired)) && r.failure == Some(WindowExpired))
      && (timed && !Early(g, f) && !TooLate(g, o, f) && TooQuiet(g, o, f) ==>
            EndsWith(g, after, Failed(NoSpeech)) && r.failure == Some(NoSpeech))
  {
  }

  /** Silence is reported exactly for a live frame that is captured too late for the first word and in time
      for the window. */
  lemma NoSpeechIff(g: Gate, o: Options, f: Frame, replayed: bool)
    ensures Consume(g, o, f, replayed).1.failure == Some(NoSpeech) <==>
              Reaches(g, f) && !replayed && !Early(g, f) && !TooLate(g, o, f) && TooQuiet(g, o, f)
  {
    NoEventIsSilence(g, f, f.events, g.state);
    hide HandleEvents;
  }

  lemma {:induction false} NoEventIsSilence(g: Gate, f: Frame, events: seq<VadEvent>, answer: State)
    ensures HandleEvents(g, f, events, answer).1.failure != Some(NoSpeech)
    decreases |events|
  {
    if events != [] {
      match events[0]
      case Opened(_, _) =>
        NoEventIsSilence(g.(hasStream := true, state := Capturing, speech := true), f, events[1..], Capturing);
      case Audio(_, _) => NoEventIsSilence(g, f, events[1..], Capturing);
      case Final =>
    }
  }

  /** All other frames go to the segmenter, which ends the attempt if it fails. */
  predicate Segmented(g: Gate, o: Options, f: Frame, replayed: bool) {
    Reaches(g, f) && (replayed || (!Early(g, f) && !TooLate(g, o, f) && !TooQuiet(g, o, f)))
  }

  /** Why a step that could not be carried out failed: the caller has gone, the time is up, or the step's own
      reason, in that order. */
  lemma ClassifyOutcome(callerDone: bool, deadline: bool, fallback: Failure)
    ensures
      var failure := Classify(callerDone, deadline, fallback);
      && (callerDone ==> failure == Canceled)
      && (!callerDone && deadline ==> failure == WindowExpired)
      && (!callerDone && !deadline ==> failure == fallback)
  {
  }

  predicate Smooth(e: VadEvent) {
    match e
    case Opened(streamStarts, prefixSent) => streamStarts && prefixSent
    case Audio(present, sent) => present && sent
    case Final => false
  }

  predicate Listening(g: Gate, after: Gate) {
    after == g.(hasStream := true, state := Capturing, speech := true)
  }

  lemma {:induction false} SmoothEvents(g: Gate, f: Frame, events: seq<VadEvent>, rest: seq<VadEvent>, answer: State)
    requires forall i :: 0 <= i < |events| ==> Smooth(events[i])
    requires events != [] && (g.hasStream || events[0].Opened?) && (g.state == Armed || g.state == Capturing)
    requires g.hasStream ==> g.state == Capturing && g.speech
    ensures HandleEvents(g, f, events + rest, answer)
         == HandleEvents(g.(hasStream := true, state := Capturing, speech := true), f, rest, Capturing)
    decreases |events|
  {
    assert (events + rest)[1..] == events[1..] + rest;
    var open := g.(hasStream := true, state := Capturing, speech := true);
    if |events| == 1 {
      assert events[1..] + rest == rest;
    } else {
      SmoothEvents(open, f, events[1..], rest, Capturing);
    }
  }

  /** Speech that goes on keeps the attempt capturing and changes nothing else. */
  lemma SpeechGoesOn(g: Gate, o: Options, f: Frame, replayed: bool)
    requires Segmented(g, o, f, replayed) && f.segmented && f.events != []
    requires forall i :: 0 <= i < |f.events| ==> Smooth(f.events[i])
    requires g.hasStream || f.events[0].Opened?
    requires g.hasStream ==> g.state == Capturing && g.speech
    ensures
      var (after, r) := Consume(g, o, f, replayed);
      Listening(g, after) && r == Reply(true, Capturing, None)
  {
    SmoothEvents(g, f, f.events, [], g.state);
    assert f.events + [] == f.events;
  }

  /** Speech that ends starts recognition once, for this attempt, command and context, and whatever the
      segmenter says after that is not looked at any more. */
  lemma SpeechEnds(g: Gate, o: Options, f: Frame, replayed: bool, n: nat)
    requires Segmented(g, o, f, replayed) && f.segmented && n < |f.events| && f.events[n].Final?
    requires forall i :: 0 <= i < n ==> Smooth(f.events[i])
    requires if n == 0 then g.hasStream else g.hasStream || f.events[0].Opened?
    requires g.hasStream ==> g.state == Capturing && g.speech
    ensures
      var (after, r) := Consume(g, o, f, replayed);
      && r == Reply(true, Recognizing, None)
      && after.state == Recognizing && after.hasStream && !after.speech && after.request == g.request
      && after.workers == g.workers[g.attempt := Worker(g.request.command, Finalizing, g.context)]
      && after.starts == g.starts + [g.attempt] && after.context == g.context && after.attempt == g.attempt
      && after.log == g.log && after.ids == g.ids && after.opens == g.opens
  {
    assert f.events == f.events[..n] + f.events[n..];
    if n > 0 {
      SmoothEvents(g, f, f.events[..n], f.events[n..], g.state);
    } else {
      assert f.events[0..] == f.events;
    }
  }

  lemma SegmentedEvents(g: Gate, o: Options, f: Frame, replayed: bool)
    requires Segmented(g, o, f, replayed) && f.segmented
    ensures Consume(g, o, f, replayed) == HandleEvents(g, f, f.events, g.state)
  {
    hide HandleEvents;
  }

  lemma BrokenEvent(g: Gate, f: Frame, events: seq<VadEvent>, answer: State)
    requires events != [] && !Smooth(events[0]) && !events[0].Final?
    ensures
      var (after, r) := HandleEvents(g, f, events, answer);
      var failure := if events[0].Audio? && (!events[0].present || !g.hasStream) then InvalidAudio
                     else Classify(f.callerDone, f.deadline, AsrFailed);
      EndsWith(g, after, Failed(failure)) && r == Reply(true, Dormant, Some(failure))
  {
    var failure := if events[0].Audio? && (!events[0].present || !g.hasStream) then InvalidAudio
                   else Classify(f.callerDone, f.deadline, AsrFailed);
    var open := g.(hasStream := true, state := Capturing, speech := true);
    hide Fail, Classify, StartRecognition, EndsWith;
    match events[0]
    case Opened(streamStarts, _) =>
      OpenFails(g, open, failure);
      assert HandleEvents(g, f, events, answer) == Fail(if streamStarts then open else g, failure);
    case Audio(_, _) =>
      FailOutcome(g, failure);
      assert HandleEvents(g, f, events, answer) == Fail(g, failure);
  }

  lemma OpenFails(g: Gate, open: Gate, failure: Failure)
    requires open == g.(hasStream := true, state := Capturing, speech := true)
    ensures forall h :: h == g || h == open ==>
              && EndsWith(g, Fail(h, failure).0, Failed(failure))
              && Fail(h, failure).1 == Reply(true, Dormant, Some(failure))
  {
    FailOutcome(g, failure);
    FailOutcome(open, failure);
  }

  /** The first event that cannot be carried out ends the attempt: audio without a recording as unsound, a
      recognizer that fails by the reason it fails for. */
  lemma SpeechBreaks(g: Gate, o: Options, f: Frame, replayed: bool, n: nat)
    requires Segmented(g, o, f, replayed) && f.segmented && n < |f.events|
    requires !Smooth(f.events[n]) && !f.events[n].Final?
    requires forall i :: 0 <= i < n ==> Smooth(f.events[i])
    requires n > 0 ==> g.hasStream || f.events[0].Opened?
    requires g.hasStream ==> g.state == Capturing && g.speech
    ensures
      var (after, r) := Consume(g, o, f, replayed);
      var e := f.events[n];
      var failure := if e.Audio? && (!e.present || (n == 0 && !g.hasStream)) then InvalidAudio
                     else Classify(f.callerDone, f.deadline, AsrFailed);
      EndsWith(g, after, Failed(failure)) && r == Reply(true, Dormant, Some(failure))
  {
    hide HandleEvents, Consume, Smooth, Classify;
    SegmentedEvents(g, o, f, replayed);
    assert f.events == f.events[..n] + f.events[n..] && f.events[n..][0] == f.events[n];
    if n > 0 {
      SmoothEvents(g, f, f.events[..n], f.events[n..], g.state);
      BrokenEvent(g.(hasStream := true, state := Capturing, speech := true), f, f.events[n..], Capturing);
    } else {
      assert f.events[0..] == f.events;
      BrokenEvent(g, f, f.events, g.state);
    }
  }

  /** A frame in which nothing happens changes nothing; one the segmenter cannot take ends the attempt. */
  lemma QuietFrames(g: Gate, o: Options, f: Frame, replayed: bool)
    requires Segmented(g, o, f, replayed)
    ensures f.segmented && f.events == [] ==> Consume(g, o, f, replayed) == (g, Reply(true, g.state, None))
    ensures !f.segmented ==>
              var (after, r) := Consume(g, o, f, replayed);
              var failure := if f.deadline then WindowExpired else InvalidAudio;
              EndsWith(g, after, Failed(failure)) && r == Reply(true, Dormant, Some(failure))
  {
  }

  /** Replaying takes the frames one after the other until one leaves the gate dormant, and answers as the last
      one it took. */
  lemma {:induction false} ReplayOutcome(g: Gate, o: Options, frames: seq<Frame>, answer: Reply)
    ensures frames == [] ==> ReplayFrom(g, o, frames, answer) == (g, answer)
    ensures frames != [] ==>
              var (next, r) := Consume(g, o, frames[0], true);
              ReplayFrom(g, o, frames, answer) ==
                if r.state == Dormant then (next, r) else ReplayFrom(next, o, frames[1..], r)
    ensures Replay(g, o, frames) == ReplayFrom(g, o, frames, Reply(true, g.state, None))
  {
    hide Consume;
  }

  // ----- timers and workers

  /** A timer that still counts ends its attempt with its own failure; any other changes nothing. */
  lemma ExpireOutcome(g: Gate, n: nat, failure: Failure)
    ensures
      var counts := Current(g, n) && (failure == NoSpeech ==> g.state == Armed)
                    && (failure == WindowExpired ==> !g.captureComplete);
      if counts then EndsWith(g, Expire(g, n, failure), Failed(failure)) else Expire(g, n, failure) == g
  {
  }

  /** A worker is let in exactly while an attempt of its command is being recognized and the gate is open. Its
      capture is complete then and a new context takes the old one's place. */
  lemma BeginProcessingOutcome(g: Gate, command: Id)
    ensures
      var (after, ok) := BeginProcessing(g, command);
      && (ok <==> g.state == Recognizing && g.request.command == command && !g.closed)
      && (!ok ==> after == g)
      && (ok ==> after == g.(captureComplete := true, context := Some(g.contexts), contexts := g.contexts + 1))
  {
  }

  /** A worker that has its verdict leaves the attempt if it is still its own, without publishing yet. */
  lemma DecideOutcome(g: Gate, n: nat)
    ensures
      var (after, current) := Decide(g, n);
      && (current <==> g.attempt == n && g.state == Recognizing)
      && (!current ==> after == g)
      && (current ==>
            && Left(after) && after.log == g.log && after.attempt == g.attempt && after.ids == g.ids
            && after.workers == g.workers && after.opens == g.opens && after.starts == g.starts
            && after.closed == g.closed && after.dropped == g.dropped)
  {
  }

  /** Cancel closes the gate for good and drops the attempt under way without an outcome; it returns as soon as
      the workers it saw have ended. */
  lemma CancelOutcome(m: Machine, o: Options, c: nat)
    ensures
      c !in m.cancels ==>
        var y := Next(m, o, CancelGate(c));
        && y.gate.closed && Left(y.gate) && y.released == m.released
        && y.gate.log == m.gate.log && y.gate.workers == m.gate.workers && y.gate.attempt == m.gate.attempt
        && y.gate.ids == m.gate.ids && y.gate.opens == m.gate.opens && y.gate.starts == m.gate.starts
        && (y.gate.dropped == Some(m.gate.attempt) || (m.gate.state == Dormant && y.gate.dropped == m.gate.dropped))
        && y.cancels.Keys == m.cancels.Keys + {c} && y.cancels[c] == m.gate.workers.Keys
        && (forall d :: d in m.cancels ==> y.cancels[d] == m.cancels[d])
    ensures
      var y := Next(m, o, ReturnCancel(c));
      && y.gate == m.gate && y.cancels == m.cancels
      && (y.released <==> m.released || (c in m.cancels && forall n :: n in m.cancels[c] ==> n !in m.gate.workers))
  {
  }

  /** Timers and transferred frames reach the gate as live frames and signals do. */
  lemma DrivenOutcome(m: Machine, o: Options, r: Request, f: Frame, frames: seq<Frame>, n: nat, failure: Failure)
    ensures Next(m, o, OpenGate(r)).gate == Open(m.gate, r).0
    ensures Next(m, o, Timer(n, failure)).gate == Expire(m.gate, n, failure)
    ensures Disciplined(m.gate.speech, f.events) ==> Next(m, o, ConsumeFrame(f)).gate == Consume(m.gate, o, f, false).0
    ensures ReplayDisciplined(m.gate, o, frames) ==>
              Next(m, o, ReplayFrames(frames)).gate == Replay(m.gate, o, frames).0
  {
    hide Open, Expire, Consume, Replay, ReplayDisciplined, Disciplined;
  }

  // ----- one worker, undisturbed

  /** The steps of worker `n` from recognition to its end. */
  function Carried(n: nat, verdict: Verdict): seq<Step> {
    [FinishAsr(n, true, false, false), EnterProcessing(n), Conclude(n, verdict), DecideWorker(n), PublishWorker(n),
     CompleteWorker(n)]
  }

  /** The same but for the stage its worker has reached. */
  predicate OnlyWorker(g: Gate, after: Gate, n: nat, stage: Stage) {
    && after.attempt == g.attempt && after.ids == g.ids && after.log == g.log
    && n in g.workers && after.workers.Keys == g.workers.Keys
    && (forall k :: k in g.workers && k != n ==> after.workers[k] == g.workers[k])
    && after.workers[n].stage == stage && after.workers[n].command == g.workers[n].command
  }

  lemma EntersProcessing(m: Machine, o: Options)
    requires m.gate.state == Recognizing && !m.gate.closed
    requires Runs(m.gate, m.gate.attempt, Finalizing)
    requires m.gate.workers[m.gate.attempt].command == m.gate.request.command
    ensures
      var n := m.gate.attempt;
      var after := Next(Next(m, o, FinishAsr(n, true, false, false)), o, EnterProcessing(n)).gate;
      OnlyWorker(m.gate, after, n, Processing) && after.state == Recognizing
  {
  }

  lemma LeavesWithVerdict(g: Gate, m: Machine, o: Options, n: nat, verdict: Verdict)
    requires OnlyWorker(g, m.gate, n, Processing) && m.gate.state == Recognizing && n == g.attempt
    ensures
      var after := Next(Next(m, o, Conclude(n, verdict)), o, DecideWorker(n)).gate;
      OnlyWorker(g, after, n, Publishing(verdict)) && Left(after)
  {
  }

  lemma PublishesAndGoes(g: Gate, m: Machine, o: Options, n: nat, verdict: Verdict)
    requires OnlyWorker(g, m.gate, n, Publishing(verdict)) && Left(m.gate)
    ensures
      var after := Next(Next(m, o, PublishWorker(n)), o, CompleteWorker(n)).gate;
      && Left(after) && after.log == g.log + [Outcome(n, g.workers[n].command, verdict)]
      && after.workers == g.workers - {n} && after.attempt == g.attempt && after.ids == g.ids
  {
  }

  /** An utterance that is recognized, and whose attempt nobody disturbs, comes to the worker's verdict, and
      the gate is ready for the next signal. */
  lemma UndisturbedVerdict(m: Machine, o: Options, verdict: Verdict)
    requires MachineInv(m) && m.gate.state == Recognizing
    requires m.gate.workers[m.gate.attempt].stage == Finalizing
    ensures
      var g := m.gate;
      var after := Run(m, o, Carried(g.attempt, verdict)).gate;
      && Left(after) && after.log == g.log + [Outcome(g.attempt, g.request.command, verdict)]
      && after.workers == g.workers - {g.attempt} && after.attempt == g.attempt && after.ids == g.ids
  {
    RecognizingFacts(m.gate);
    hide GateInv, MachineInv, Next, OnlyWorker, Left;
    var n := m.gate.attempt;
    EntersProcessing(m, o);
    var m2 := Next(Next(m, o, FinishAsr(n, true, false, false)), o, EnterProcessing(n));
    LeavesWithVerdict(m.gate, m2, o, n, verdict);
    var m4 := Next(Next(m2, o, Conclude(n, verdict)), o, DecideWorker(n));
    PublishesAndGoes(m.gate, m4, o, n, verdict);
    SixSteps(m, o, n, verdict);
  }

  lemma RecognizingFacts(g: Gate)
    requires GateInv(g) && g.state == Recognizing
    ensures g.attempt in g.workers && g.workers[g.attempt].command == g.request.command && !g.closed
  {
  }

  lemma SixSteps(m: Machine, o: Options, n: nat, verdict: Verdict)
    ensures Run(m, o, Carried(n, verdict)) ==
              Next(Next(Next(Next(Next(Next(m, o, FinishAsr(n, true, false, false)), o, EnterProcessing(n)), o,
                                       Conclude(n, verdict)), o, DecideWorker(n)), o, PublishWorker(n)), o,
                   CompleteWorker(n))
  {
    hide Next;
    var s := Carried(n, verdict);
    var m1 := Next(m, o, s[0]);
    var m2 := Next(m1, o, s[1]);
    var m3 := Next(m2, o, s[2]);
    var m4 := Next(m3, o, s[3]);
    var m5 := Next(m4, o, s[4]);
    assert Run(m5, o, s[5..]) == Next(m5, o, s[5]) by {
      assert s[5..][1..] == [];
    }
    assert Run(m4, o, s[4..]) == Run(m5, o, s[5..]) by { assert s[4..][1..] == s[5..]; }
    assert Run(m3, o, s[3..]) == Run(m4, o, s[4..]) by { assert s[3..][1..] == s[4..]; }
    assert Run(m2, o, s[2..]) == Run(m3, o, s[3..]) by { assert s[2..][1..] == s[3..]; }
    assert Run(m1, o, s[1..]) == Run(m2, o, s[2..]) by { assert s[1..][1..] == s[2..]; }
  }
}

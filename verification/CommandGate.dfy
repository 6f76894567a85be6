/** The command gate: one command attempt at a time, driven by wake signals, audio frames, two timers and
    an asynchronous recognition worker. Each function here is what one critical section does. */
module CommandGate {
  import opened Wrappers

  type Id = string

  type Time = int

  datatype State = Dormant | Armed | Capturing | Recognizing

  datatype Failure =
    | WindowExpired | NoSpeech | AsrFailed | Interpretation | NotAllowed | Execution | Canceled | InvalidAudio

  /** What an attempt came to: a failure, or a command that was carried out. */
  datatype Verdict = Failed(failure: Failure) | Executed

  datatype Request = Request(session: Id, command: Id, openedAt: Time, captureFrom: Time)

  datatype Outcome = Outcome(attempt: nat, command: Id, verdict: Verdict)

  datatype OpenError = InvalidOpenRequest | GateClosed | DuplicateOpen

  // Finalizing: the recognizer's final result is awaited. Entering: about to begin processing.
  // Processing: interpreting and executing. Deciding: about to compare attempts. Publishing: about to
  // publish. Finished: only its task entry is left.
  datatype Stage =
    | Finalizing | Entering | Processing | Deciding(verdict: Verdict) | Publishing(verdict: Verdict) | Finished

  // `context` is what the worker's calls run under; it is cancelled unless it is still the gate's own.
  datatype Worker = Worker(command: Id, stage: Stage, context: Option<nat>)

  datatype Options = Options(windowTTL: Time, noSpeechTimeout: Time)

  /** The gate's fields, with what it has published, the commands it accepted, the attempts for which it
      started recognition, and the attempt Cancel closed over. `context` is the attempt's context, numbered
      by `contexts`; the gate cancels each context it replaces or drops. */
  datatype Gate = Gate(
    state: State, request: Request, attempt: nat, ids: seq<Id>, hasStream: bool, speech: bool,
    captureComplete: bool, closed: bool, workers: map<nat, Worker>, context: Option<nat>, contexts: nat,
    log: seq<Outcome>, opens: seq<Id>, starts: seq<nat>, dropped: Option<nat>)

  const NoRequest := Request("", "", 0, 0)

  const RETENTION: nat := 256

  const NewGate := Gate(Dormant, NoRequest, 0, [], false, false, false, false, map[], None, 0, [], [], [], None)

  // ----- ending an attempt

  function Abandon(g: Gate): Gate {
    g.(state := Dormant, request := NoRequest, hasStream := false, speech := false, captureComplete := false,
       context := None)
  }

  /** A new context in place of the one before, if any. */
  function Renew(g: Gate): Gate {
    g.(context := Some(g.contexts), contexts := g.contexts + 1)
  }

  function Publish(g: Gate, verdict: Verdict): Gate {
    g.(log := g.log + [Outcome(g.attempt, g.request.command, verdict)])
  }

  datatype Reply = Reply(consumed: bool, state: State, failure: Option<Failure>)

  function Fail(g: Gate, failure: Failure): (Gate, Reply) {
    (Abandon(Publish(g, Failed(failure))), Reply(true, Dormant, Some(failure)))
  }

  // ----- wake signals

  function Remember(ids: seq<Id>, id: Id): seq<Id> {
    (if |ids| == RETENTION then ids[1..] else ids) + [id]
  }

  function Open(g: Gate, r: Request): (Gate, Option<OpenError>) {
    if r.session == "" || r.command == "" || r.openedAt == 0 || (r.captureFrom != 0 && r.openedAt < r.captureFrom) then
      (g, Some(InvalidOpenRequest))
    else if g.closed then (g, Some(GateClosed))
    else if r.command in g.ids then (g, Some(DuplicateOpen))
    else
      var left := Abandon(if g.state != Dormant then Publish(g, Failed(Canceled)) else g);
      (Renew(left).(ids := Remember(g.ids, r.command), attempt := g.attempt + 1, state := Armed,
                    request := if r.captureFrom == 0 then r.(captureFrom := r.openedAt) else r,
                    opens := g.opens + [r.command]),
       None)
  }

  // ----- audio frames

  // What the segmenter and the recognizer's stream make of a frame.
  datatype VadEvent = Opened(streamStarts: bool, prefixSent: bool) | Audio(present: bool, sent: bool) | Final

  // `callerDone` and `deadline` are the states of the caller's and the attempt's contexts.
  datatype Frame = Frame(
    valid: bool, capturedAt: Time, callerDone: bool, deadline: bool, segmented: bool, events: seq<VadEvent>)

  /** The segmenter opens an utterance before it delivers its audio, and ends it once. */
  predicate Disciplined(speech: bool, events: seq<VadEvent>)
    decreases |events|
  {
    events == [] || (
      && events[0].Opened? == !speech
      && Disciplined(!events[0].Final?, events[1..]))
  }

  function Classify(callerDone: bool, deadline: bool, fallback: Failure): Failure {
    if callerDone then Canceled else if deadline then WindowExpired else fallback
  }

  function StartRecognition(g: Gate): (Gate, Reply) {
    (g.(state := Recognizing,
        workers := g.workers[g.attempt := Worker(g.request.command, Finalizing, g.context)],
        starts := g.starts + [g.attempt]),
     Reply(true, Recognizing, None))
  }

  function HandleEvents(g: Gate, f: Frame, events: seq<VadEvent>, answer: State): (Gate, Reply)
    decreases |events|
  {
    if events == [] then (g, Reply(true, answer, None))
    else match events[0]
      case Opened(streamStarts, prefixSent) =>
        if !streamStarts then Fail(g, Classify(f.callerDone, f.deadline, AsrFailed))
        else
          var open := g.(hasStream := true, state := Capturing, speech := true);
          if !prefixSent then Fail(open, Classify(f.callerDone, f.deadline, AsrFailed))
          else HandleEvents(open, f, events[1..], Capturing)
      case Audio(present, sent) =>
        if !present || !g.hasStream then Fail(g, InvalidAudio)
        else if !sent then Fail(g, Classify(f.callerDone, f.deadline, AsrFailed))
        else HandleEvents(g, f, events[1..], Capturing)
      case Final => StartRecognition(g.(speech := false))
  }

  function Consume(g: Gate, o: Options, f: Frame, replayed: bool): (Gate, Reply) {
    if g.state == Dormant then (g, Reply(false, Dormant, None))
    else if g.state == Recognizing then (g, Reply(true, Recognizing, None))
    else if f.callerDone then Fail(g, Canceled)
    else if !f.valid then Fail(g, InvalidAudio)
    else if !replayed && f.capturedAt < g.request.captureFrom then (g, Reply(true, Armed, None))
    else if !replayed && g.request.openedAt + o.windowTTL <= f.capturedAt then Fail(g, WindowExpired)
    else if !replayed && g.state == Armed && g.request.openedAt + o.noSpeechTimeout <= f.capturedAt then
        Fail(g, NoSpeech)
    else if !f.segmented then Fail(g, Classify(f.callerDone, f.deadline, InvalidAudio))
    else HandleEvents(g, f, f.events, g.state)
  }

  /** Feeds frames until one leaves the gate dormant; `answer` is what was answered so far. */
  function ReplayFrom(g: Gate, o: Options, frames: seq<Frame>, answer: Reply): (Gate, Reply)
    decreases |frames|
  {
    if frames == [] then (g, answer)
    else
      var (next, result) := Consume(g, o, frames[0], true);
      if result.state == Dormant then (next, result) else ReplayFrom(next, o, frames[1..], result)
  }

  function Replay(g: Gate, o: Options, frames: seq<Frame>): (Gate, Reply) {
    ReplayFrom(g, o, frames, Reply(true, g.state, None))
  }

  // ----- timers

  function Expire(g: Gate, attempt: nat, failure: Failure): Gate {
    if g.state == Dormant || g.attempt != attempt then g
    else if failure == NoSpeech && g.state != Armed then g
    else if failure == WindowExpired && g.captureComplete then g
    else Fail(g, failure).0
  }

  // ----- the recognition worker

  function BeginProcessing(g: Gate, command: Id): (Gate, bool) {
    if g.state != Recognizing || g.request.command != command || g.closed then (g, false)
    else (Renew(g).(captureComplete := true), true)
  }

  /** The worker goes on under the gate's context. */
  function Admit(g: Gate, n: nat): Gate
    requires n in g.workers
  {
    g.(workers := g.workers[n := g.workers[n].(stage := Processing, context := g.context)])
  }

  /** The worker compares attempts and, if it is still current, leaves the attempt. */
  function Decide(g: Gate, n: nat): (Gate, bool) {
    if g.attempt != n || g.state != Recognizing then (g, false) else (Abandon(g), true)
  }

  function At(g: Gate, n: nat, stage: Stage): Gate
    requires n in g.workers
  {
    g.(workers := g.workers[n := g.workers[n].(stage := stage)])
  }

  // ----- the gate and everything that drives it

  // `cancels` are the calls to Cancel that wait, each for the workers it saw; `released` once one returned.
  datatype Machine = Machine(gate: Gate, cancels: map<nat, set<nat>>, released: bool)

  datatype Step =
    | OpenGate(request: Request)
    | ConsumeFrame(frame: Frame)
    | ReplayFrames(frames: seq<Frame>)
    | Timer(attempt: nat, failure: Failure)
    | FinishAsr(n: nat, ok: bool, callerDone: bool, deadline: bool)
    | EnterProcessing(n: nat)
    | Conclude(n: nat, verdict: Verdict)
    | DecideWorker(n: nat)
    | PublishWorker(n: nat)
    | CompleteWorker(n: nat)
    | CancelGate(c: nat)
    | ReturnCancel(c: nat)

  predicate Runs(g: Gate, n: nat, stage: Stage) {
    n in g.workers && g.workers[n].stage == stage
  }

  /** Steps that are not enabled change nothing. */
  function Next(m: Machine, o: Options, step: Step): Machine {
    var g := m.gate;
    match step
    case OpenGate(r) => m.(gate := Open(g, r).0)
    case ConsumeFrame(f) => if Disciplined(g.speech, f.events) then m.(gate := Consume(g, o, f, false).0) else m
    case ReplayFrames(fs) => if ReplayDisciplined(g, o, fs) then m.(gate := Replay(g, o, fs).0) else m
    case Timer(n, failure) => m.(gate := Expire(g, n, failure))
    case FinishAsr(n, ok, callerDone, deadline) =>
      if !Runs(g, n, Finalizing) then m
      else m.(gate := At(g, n, if ok then Entering else Deciding(Failed(Classify(callerDone, deadline, AsrFailed)))))
    case EnterProcessing(n) =>
      if !Runs(g, n, Entering) then m
      else
        var (after, ok) := BeginProcessing(g, g.workers[n].command);
        m.(gate := if ok then Admit(after, n) else At(after, n, Deciding(Failed(Canceled))))
    case Conclude(n, verdict) => if Runs(g, n, Processing) then m.(gate := At(g, n, Deciding(verdict))) else m
    case DecideWorker(n) =>
      if n in g.workers && g.workers[n].stage.Deciding? then
        var (after, current) := Decide(g, n);
        m.(gate := At(after, n, if current then Publishing(g.workers[n].stage.verdict) else Finished))
      else m
    case PublishWorker(n) =>
      if n in g.workers && g.workers[n].stage.Publishing? then
        m.(gate := At(g, n, Finished).(log := g.log + [Outcome(n, g.workers[n].command, g.workers[n].stage.verdict)]))
      else m
    case CompleteWorker(n) => if Runs(g, n, Finished) then m.(gate := g.(workers := g.workers - {n})) else m
    case CancelGate(c) =>
      if c in m.cancels then m
      else
        Machine(Abandon(g).(closed := true, dropped := if g.state != Dormant then Some(g.attempt) else g.dropped),
                m.cancels[c := g.workers.Keys], m.released)
    case ReturnCancel(c) =>
      if c in m.cancels && m.cancels[c] !! g.workers.Keys then m.(released := true) else m
  }

  predicate ReplayDisciplined(g: Gate, o: Options, frames: seq<Frame>)
    decreases |frames|
  {
    frames == [] || (
      && Disciplined(g.speech, frames[0].events)
      && ReplayDisciplined(Consume(g, o, frames[0], true).0, o, frames[1..]))
  }

  function Run(m: Machine, o: Options, steps: seq<Step>): Machine
    decreases |steps|
  {
    if steps == [] then m else Run(Next(m, o, steps[0]), o, steps[1..])
  }

  const Fresh := Machine(NewGate, map[], false)
}

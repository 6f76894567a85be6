/** The gate as it works on its own fields: each method is one critical section, returning early where
    the program does, and is proved to be the step of CommandGate with that name. */
module CommandGateMethods {
  import opened Wrappers
  import opened CommandGate
  import C = CommandGate

  ghost predicate NoRepeats(ids: seq<Id>) {
    forall i, j :: 0 <= i < j < |ids| ==> ids[i] != ids[j]
  }

  class LiveGate {
    const options: Options
    var state: State
    var request: Request
    var stream: bool
    var attempt: nat
    var seenCommandIDs: set<Id>
    var commandIDOrder: seq<Id>
    var recognitionTasks: map<nat, Worker>
    var captureComplete: bool
    var closed: bool
    // Contexts are told apart by numbers.
    var attemptCtx: Option<nat>
    var contexts: nat
    // The segmenter is inside an utterance.
    var speech: bool
    ghost var log: seq<Outcome>
    ghost var opens: seq<Id>
    ghost var starts: seq<nat>
    ghost var dropped: Option<nat>

    ghost function View(): Gate
      reads this
    {
      Gate(state, request, attempt, commandIDOrder, stream, speech, captureComplete, closed, recognitionTasks,
           attemptCtx, contexts, log, opens, starts, dropped)
    }

    /** The set used for lookups and the list used for eviction hold the same ids. */
    ghost predicate Valid()
      reads this
    {
      && seenCommandIDs == (set id | id in commandIDOrder)
      && NoRepeats(commandIDOrder)
      && |commandIDOrder| <= RETENTION
    }

    constructor (options: Options)
      ensures Valid() && View() == NewGate && this.options == options
    {
      this.options := options;
      state, request, stream, attempt := Dormant, NoRequest, false, 0;
      seenCommandIDs, commandIDOrder, recognitionTasks := {}, [], map[];
      captureComplete, closed, speech := false, false, false;
      attemptCtx, contexts := None, 0;
      log, opens, starts, dropped := [], [], [], None;
    }

    method PublishTerminalResult(failure: Failure)
      requires Valid()
      modifies this
      ensures Valid() && View() == Publish(old(View()), Failed(failure))
    {
      log := log + [Outcome(attempt, request.command, Failed(failure))];
    }

    method AbandonLocked()
      requires Valid()
      modifies this
      ensures Valid() && View() == Abandon(old(View()))
    {
      state, request := Dormant, NoRequest;
      speech, captureComplete, stream, attemptCtx := false, false, false, None;
    }

    method RenewContext()
      requires Valid()
      modifies this
      ensures Valid() && View() == Renew(old(View()))
    {
      attemptCtx, contexts := Some(contexts), contexts + 1;
    }

    method FailLocked(failure: Failure) returns (r: Reply)
      requires Valid()
      modifies this
      ensures Valid() && (View(), r) == Fail(old(View()), failure)
    {
      PublishTerminalResult(failure);
      AbandonLocked();
      return Reply(true, Dormant, Some(failure));
    }

    /** Evicts the oldest id at the limit, so that lookups keep agreeing with the list. */
    method RememberCommandID(id: Id)
      requires Valid() && id !in seenCommandIDs
      modifies this
      ensures Valid() && View() == old(View()).(ids := Remember(old(commandIDOrder), id))
    {
      if |commandIDOrder| == RETENTION {
        seenCommandIDs := seenCommandIDs - {commandIDOrder[0]};
        commandIDOrder := commandIDOrder[1..];
      }
      seenCommandIDs := seenCommandIDs + {id};
      commandIDOrder := commandIDOrder + [id];
      assert seenCommandIDs == (set k | k in commandIDOrder);
    }

    /** Puts the next attempt in place of the one that was left. */
    method ArmLocked(r: Request)
      requires Valid()
      modifies this
      ensures Valid()
      ensures View() == Renew(old(View())).(attempt := old(attempt) + 1, state := Armed, request := r,
                                            opens := old(opens) + [r.command])
    {
      attempt, request, state := attempt + 1, r, Armed;
      opens := opens + [r.command];
      RenewContext();
    }

    method Open(r: Request) returns (refused: Option<OpenError>)
      requires Valid()
      modifies this
      ensures Valid() && (View(), refused) == C.Open(old(View()), r)
    {
      if r.session == "" || r.command == "" || r.openedAt == 0 || (r.captureFrom != 0 && r.openedAt < r.captureFrom) {
        return Some(InvalidOpenRequest);
      }
      var accepted := r;
      if accepted.captureFrom == 0 { accepted := accepted.(captureFrom := accepted.openedAt); }
      if closed { return Some(GateClosed); }
      if accepted.command in seenCommandIDs { return Some(DuplicateOpen); }
      RememberCommandID(accepted.command);
      if state != Dormant { PublishTerminalResult(Canceled); }
      AbandonLocked();
      ArmLocked(accepted);
      return None;
    }

    method Consume(f: Frame, replayed: bool) returns (r: Reply)
      requires Valid()
      modifies this
      ensures Valid() && (View(), r) == C.Consume(old(View()), options, f, replayed)
    {
      if state == Dormant { return Reply(false, Dormant, None); }
      if state == Recognizing { return Reply(true, Recognizing, None); }
      if f.callerDone { r := FailLocked(Canceled); return; }
      if !f.valid { r := FailLocked(InvalidAudio); return; }
      if !replayed && f.capturedAt < request.captureFrom { return Reply(true, Armed, None); }
      if !replayed && request.openedAt + options.windowTTL <= f.capturedAt { r := FailLocked(WindowExpired); return; }
      if !replayed && state == Armed && request.openedAt + options.noSpeechTimeout <= f.capturedAt {
        r := FailLocked(NoSpeech);
        return;
      }
      if !f.segmented { r := FailLocked(Classify(f.callerDone, f.deadline, InvalidAudio)); return; }
      r := HandleEvents(f);
    }

    method StartCaptureLocked()
      requires Valid()
      modifies this
      ensures Valid() && View() == old(View()).(hasStream := true, state := Capturing, speech := true)
    {
      stream, state, speech := true, Capturing, true;
    }

    method StartRecognitionLocked() returns (r: Reply)
      requires Valid()
      modifies this
      ensures Valid() && (View(), r) == StartRecognition(old(View()).(speech := false))
    {
      speech, state := false, Recognizing;
      recognitionTasks := recognitionTasks[attempt := Worker(request.command, Finalizing, attemptCtx)];
      starts := starts + [attempt];
      return Reply(true, Recognizing, None);
    }

    /** The loop over the events of one frame. */
    method HandleEvents(f: Frame) returns (r: Reply)
      requires Valid()
      modifies this
      ensures Valid() && (View(), r) == C.HandleEvents(old(View()), f, f.events, old(state))
    {
      var i := 0;
      r := Reply(true, state, None);
      while i < |f.events|
        invariant i <= |f.events|
        invariant Valid()
        invariant r == Reply(true, r.state, None)
        invariant C.HandleEvents(View(), f, f.events[i..], r.state)
               == C.HandleEvents(old(View()), f, f.events, old(state))
      {
        var event := f.events[i];
        assert f.events[i..][1..] == f.events[i + 1..];
        match event {
          case Opened(streamStarts, prefixSent) =>
            if !streamStarts { r := FailLocked(Classify(f.callerDone, f.deadline, AsrFailed)); return; }
            StartCaptureLocked();
            if !prefixSent { r := FailLocked(Classify(f.callerDone, f.deadline, AsrFailed)); return; }
          case Audio(present, sent) =>
            if !present || !stream { r := FailLocked(InvalidAudio); return; }
            if !sent { r := FailLocked(Classify(f.callerDone, f.deadline, AsrFailed)); return; }
          case Final =>
            r := StartRecognitionLocked();
            return;
        }
        r := Reply(true, Capturing, None);
        i := i + 1;
      }
    }

    /** Replays a transferred utterance, stopping at the first frame that leaves the gate dormant. */
    method Replay(frames: seq<Frame>) returns (r: Reply)
      requires Valid()
      modifies this
      ensures Valid() && (View(), r) == C.Replay(old(View()), options, frames)
    {
      hide C.Consume;
      var i := 0;
      r := Reply(true, state, None);
      while i < |frames|
        invariant i <= |frames|
        invariant Valid()
        invariant ReplayFrom(View(), options, frames[i..], r) == C.Replay(old(View()), options, frames)
      {
        assert frames[i..][1..] == frames[i + 1..];
        r := Consume(frames[i], true);
        if r.state == Dormant { return; }
        i := i + 1;
      }
    }

    method Expire(n: nat, failure: Failure)
      requires Valid()
      modifies this
      ensures Valid() && View() == C.Expire(old(View()), n, failure)
    {
      if state == Dormant || attempt != n { return; }
      if failure == NoSpeech && state != Armed { return; }
      if failure == WindowExpired && captureComplete { return; }
      var _ := FailLocked(failure);
    }

    method BeginProcessing(command: Id) returns (ok: bool)
      requires Valid()
      modifies this
      ensures Valid() && (View(), ok) == C.BeginProcessing(old(View()), command)
    {
      if state != Recognizing || request.command != command || closed { return false; }
      RenewContext();
      captureComplete := true;
      return true;
    }

    /** The critical section of a worker that has its verdict: only the current attempt is left. */
    method Decide(n: nat) returns (current: bool)
      requires Valid()
      modifies this
      ensures Valid() && (View(), current) == C.Decide(old(View()), n)
    {
      if attempt != n || state != Recognizing { return false; }
      AbandonLocked();
      return true;
    }
  }
}

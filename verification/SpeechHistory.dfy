/** From the chunks that arrived to the pieces that go out: what is buffered, and so what is shipped, is the
    audio of a playback in the order of its arrival. */
module SpeechHistory {
  import opened Wrappers
  import opened Wav
  import opened TtsSink
  import opened TtsInterruption

  // ----- which playback a caller means

  /** A playback named with its session, or buffered without one, is what its name says. Otherwise the only
      buffered playback of that id is meant, in whatever session; of none or several, none is. */
  lemma ResolveOutcome(s: Sink, session: Id, playback: Id)
    ensures session != "" || Key("", playback) in s.buffers ==> Resolve(s, session, playback) == Key(session, playback)
    ensures
      session == "" && Key("", playback) !in s.buffers ==>
        forall k :: k in s.buffers && k.playback == playback ==>
          if exists j :: j in s.buffers && j.playback == playback && j != k
          then Resolve(s, session, playback) == Key("", playback) else Resolve(s, session, playback) == k
    ensures
      (forall k :: k in s.buffers ==> k.playback != playback) ==>
        Resolve(s, session, playback) == Key(session, playback)
  {
    forall k, j | k in s.buffers && k.playback == playback && j in s.buffers && j.playback == playback && j != k
      ensures Candidate(s, playback, k) && Candidate(s, playback, j)
    {
    }
    forall k | k in s.buffers && k.playback == playback
      ensures Candidate(s, playback, k)
    {
    }
  }

  // ----- the log of what arrived

  /** The audio of some chunks, one after the other. */
  function Joined(chunks: seq<TtsSink.Chunk>): Bytes
    decreases |chunks|
  {
    if chunks == [] then [] else Joined(chunks[..|chunks| - 1]) + chunks[|chunks| - 1].data
  }

  /** The turn the latest of them named. */
  function LatestTurn(chunks: seq<TtsSink.Chunk>): Id
    decreases |chunks|
  {
    if chunks == [] then ""
    else if chunks[|chunks| - 1].turn != "" then chunks[|chunks| - 1].turn
    else LatestTurn(chunks[..|chunks| - 1])
  }

  /** The encoding the latest of them declared. */
  function LatestEncoding(chunks: seq<TtsSink.Chunk>): string
    decreases |chunks|
  {
    if chunks == [] then ""
    else if chunks[|chunks| - 1].encoding != "" then chunks[|chunks| - 1].encoding
    else LatestEncoding(chunks[..|chunks| - 1])
  }

  /** A step adds a chunk to the log of playback `k` when it arrives with audio and no tombstone lies there,
      and starts the log anew when the playback is completed, cancelled or interrupted. */
  ghost function Logged(x: World, step: Step, k: Key, log: seq<TtsSink.Chunk>): seq<TtsSink.Chunk> {
    match step
    case Arrive(c) =>
      if Key(c.session, c.playback) == k && c.playback != "" && c.data != [] && k !in x.sink.order then log + [c]
      else log
    case Begin(session, playback) => if Resolve(x.sink, session, playback) == k then [] else log
    case Cancel(session, playback) => if Resolve(x.sink, session, playback) == k then [] else log
    case Interrupt(session, ks) =>
      if session != "" && Visits(x.sink, session, ks) && k.session == session then [] else log
    case _ => log
  }

  /** All chunks taken in for `k` since it was last completed or discarded. */
  ghost function Arrived(x: World, steps: seq<Step>, k: Key, log: seq<TtsSink.Chunk>): seq<TtsSink.Chunk>
    decreases |steps|
  {
    if steps == [] then log else Arrived(Next(x, steps[0]), steps[1..], k, Logged(x, steps[0], k, log))
  }

  // ----- what is buffered

  ghost predicate Buffers(s: Sink, k: Key, log: seq<TtsSink.Chunk>) {
    && (k in s.buffers <==> log != [])
    && (k in s.buffers ==> s.buffers[k] == Buffer(k.session, LatestTurn(log), LatestEncoding(log), Joined(log)))
  }

  lemma ArriveBuffers(x: World, c: TtsSink.Chunk, k: Key, log: seq<TtsSink.Chunk>)
    requires Buffers(x.sink, k, log)
    ensures Buffers(Next(x, Arrive(c)).sink, k, Logged(x, Arrive(c), k, log))
  {
    assert (log + [c])[..|log|] == log;
    assert [] + c.data == c.data;
  }

  lemma StepBuffers(x: World, step: Step, k: Key, log: seq<TtsSink.Chunk>)
    requires Buffers(x.sink, k, log)
    ensures Buffers(Next(x, step).sink, k, Logged(x, step, k, log))
  {
    hide Resolve, Shipment, NormalizeTTSAudio, Visits, Joined, LatestTurn, LatestEncoding;
    if step.Arrive? {
      ArriveBuffers(x, step.chunk, k, log);
    }
  }

  lemma {:induction false} RunBuffers(x: World, steps: seq<Step>, k: Key, log: seq<TtsSink.Chunk>)
    requires Buffers(x.sink, k, log)
    ensures Buffers(Run(x, steps).sink, k, Arrived(x, steps, k, log))
    decreases |steps|
  {
    hide Buffers, Next, Logged;
    if steps != [] {
      StepBuffers(x, steps[0], k, log);
      RunBuffers(Next(x, steps[0]), steps[1..], k, Logged(x, steps[0], k, log));
    }
  }

  /** In every run the buffer of a playback holds what arrived for it since it was last completed or
      discarded, in the order of arrival, with the turn and encoding named last; none of it is missing. */
  lemma BufferIsWhatArrived(steps: seq<Step>, k: Key)
    ensures
      var log := Arrived(Start, steps, k, []);
      var buffers := Run(Start, steps).sink.buffers;
      && (k in buffers <==> log != [])
      && (k in buffers ==> buffers[k] == Buffer(k.session, LatestTurn(log), LatestEncoding(log), Joined(log)))
  {
    RunBuffers(Start, steps, k, []);
  }

  // ----- what is shipped

  ghost predicate AllHaveAudio(log: seq<TtsSink.Chunk>) {
    forall i :: 0 <= i < |log| ==> log[i].data != []
  }

  lemma {:induction false} ArrivedHasAudio(x: World, steps: seq<Step>, k: Key, log: seq<TtsSink.Chunk>)
    requires AllHaveAudio(log)
    ensures AllHaveAudio(Arrived(x, steps, k, log))
    decreases |steps|
  {
    hide Next, Resolve, Visits;
    if steps != [] {
      ArrivedHasAudio(Next(x, steps[0]), steps[1..], k, Logged(x, steps[0], k, log));
    }
  }

  lemma JoinedHasAudio(log: seq<TtsSink.Chunk>)
    requires AllHaveAudio(log) && log != []
    ensures Joined(log) != []
  {
  }

  /** What completing playback `k` sets out to ship of these chunks. */
  function ShipmentOf(k: Key, log: seq<TtsSink.Chunk>): seq<Sent> {
    Shipment(k, LatestTurn(log), NormalizeTTSAudio(Joined(log), LatestEncoding(log)))
  }

  /** Completing a playback sets out to ship exactly what arrived for it, and empties its buffer. With nothing
      there, or a tombstone, nothing is shipped. */
  lemma CompletionTakesWhatArrived(steps: seq<Step>, session: Id, playback: Id)
    ensures
      var x := Run(Start, steps);
      var k := Resolve(x.sink, session, playback);
      var log := Arrived(Start, steps, k, []);
      var y := Next(x, Begin(session, playback));
      && k !in y.sink.buffers
      && (log == [] ==> y.completions == x.completions && y.shipments == x.shipments && y.ids == x.ids)
      && (log != [] ==>
            && y.ids == x.ids + 1 && x.ids in y.shipments && y.shipments[x.ids] == ShipmentOf(k, log)
            && x.ids in y.completions && y.completions[x.ids].key == k)
  {
    var x := Run(Start, steps);
    var k := Resolve(x.sink, session, playback);
    RunKeeps(Start, steps);
    BufferIsWhatArrived(steps, k);
    ArrivedHasAudio(Start, steps, k, []);
    var log := Arrived(Start, steps, k, []);
    if log != [] {
      JoinedHasAudio(log);
    }
    hide Run, Arrived, Shipment, NormalizeTTSAudio, Joined, LatestTurn, LatestEncoding, Resolve;
    hide NoRepeats, Named, InOrder;
  }

  /** The completion looks and sends, again and again, and nobody interferes. */
  function Rounds(c: nat, n: nat): seq<Step> {
    if n == 0 then [] else [Look(c), Send(c, true)] + Rounds(c, n - 1)
  }

  /** What a completion is before `n` more rounds, which send the rest of it. */
  ghost predicate RoundsLeft(x: World, c: nat, n: nat) {
    && c in x.completions && !Settled(x.sink, x.completions[c].key)
    && n <= |x.completions[c].shipment|
    && x.completions[c].phase ==
         if n == 0 then Ending(|x.completions[c].shipment|) else Checking(|x.completions[c].shipment| - n)
  }

  lemma OneRound(x: World, c: nat, n: nat)
    requires RoundsLeft(x, c, n) && n > 0 && c in x.completions
    ensures
      var y := Next(Next(x, Look(c)), Send(c, true));
      && RoundsLeft(y, c, n - 1) && y.sink == x.sink && c in y.completions
      && y.completions[c].key == x.completions[c].key && y.completions[c].shipment == x.completions[c].shipment
  {
    hide Settled;
  }

  lemma NoRoundsLeft(x: World, c: nat)
    requires InOrder(x) && RoundsLeft(x, c, 0) && c in x.completions
    ensures SentBy(x.log, c) == x.completions[c].shipment && x.completions[c].phase.Ending?
  {
    var shipment := x.completions[c].shipment;
    assert shipment[..|shipment|] == shipment;
  }

  lemma {:induction false} RoundsShip(x: World, c: nat, n: nat)
    requires InOrder(x) && RoundsLeft(x, c, n) && c in x.completions
    ensures
      var y := Run(x, Rounds(c, n));
      && y.sink == x.sink && SentBy(y.log, c) == x.completions[c].shipment
      && c in y.completions && y.completions[c].phase.Ending? && y.completions[c].key == x.completions[c].key
    decreases n
  {
    hide InOrder, RoundsLeft, Next, SentBy, Settled;
    if n == 0 {
      NoRoundsLeft(x, c);
    } else {
      var x1 := Next(x, Look(c));
      var x2 := Next(x1, Send(c, true));
      OneRound(x, c, n);
      StepInOrder(x, Look(c));
      StepInOrder(x1, Send(c, true));
      RunAdds(x, [Look(c), Send(c, true)], Rounds(c, n - 1));
      TwoSteps(x, Look(c), Send(c, true));
      RoundsShip(x2, c, n - 1);
    }
  }

  lemma TwoSteps(x: World, a: Step, b: Step)
    ensures Run(x, [a, b]) == Next(Next(x, a), b)
  {
    hide Next;
    assert [a, b][1..] == [b] && [b][1..] == [];
    assert Run(Next(x, a), [b]) == Run(Next(Next(x, a), b), []);
  }

  /** An undisturbed completion sends all that arrived since the last completion or discard, in the order of
      arrival, cut into numbered pieces; raw samples arrive as they were. */
  lemma UndisturbedCompletionShipsAll(steps: seq<Step>, session: Id, playback: Id)
    requires
      var x := Run(Start, steps);
      Arrived(Start, steps, Resolve(x.sink, session, playback), []) != []
    ensures
      var x := Run(Start, steps);
      var k := Resolve(x.sink, session, playback);
      var log := Arrived(Start, steps, k, []);
      var y := Run(Next(x, Begin(session, playback)), Rounds(x.ids, |ShipmentOf(k, log)|));
      var pieces := SentBy(y.log, x.ids);
      && pieces == ShipmentOf(k, log)
      && (LatestEncoding(log) == "pcm_s16le" ==> Concat(Carried(pieces)) == Joined(log))
  {
    var x := Run(Start, steps);
    var k := Resolve(x.sink, session, playback);
    var log := Arrived(Start, steps, k, []);
    var shipment := ShipmentOf(k, log);
    RunKeeps(Start, steps);
    CompletionTakesWhatArrived(steps, session, playback);
    hide Run, Arrived;
    var y := Next(x, Begin(session, playback));
    StepInOrder(x, Begin(session, playback));
    BeginsUnsettled(x, session, playback);
    ShipmentShape(k, LatestTurn(log), NormalizeTTSAudio(Joined(log), LatestEncoding(log)));
    hide Shipment, NormalizeTTSAudio, InOrder, Next;
    RoundsShip(y, x.ids, |shipment|);
    if LatestEncoding(log) == "pcm_s16le" {
      RawStaysRaw(Joined(log));
    }
  }

  lemma RawStaysRaw(pcm: Bytes)
    ensures NormalizeTTSAudio(pcm, "pcm_s16le") == Audio(pcm, "pcm_s16le")
  {
  }

  lemma BeginsUnsettled(x: World, session: Id, playback: Id)
    ensures
      var y := Next(x, Begin(session, playback));
      y.ids == x.ids + 1 ==>
        && x.ids in y.completions && !Settled(y.sink, y.completions[x.ids].key)
        && x.ids in y.shipments && y.completions[x.ids].shipment == y.shipments[x.ids]
        && y.completions[x.ids].phase == if y.shipments[x.ids] == [] then Ending(0) else Checking(0)
  {
    hide Resolve, Shipment, NormalizeTTSAudio;
  }
}

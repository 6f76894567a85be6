/** Completions ship their pieces one at a time, looking before each whether their playback was discarded.
    Chunks, completions, cancellations and interruptions interleave at every point in between. */
module TtsInterruption {
  import opened Wrappers
  import opened Wav
  import opened TtsSink

  // `next` is the number of pieces sent so far.
  datatype Phase = Checking(next: nat) | Sending(next: nat) | Ending(next: nat)

  datatype Completion = Completion(key: Key, shipment: seq<Sent>, phase: Phase)

  datatype Entry = Entry(author: nat, piece: Sent)

  // `shipments` remembers what every completion set out to ship.
  datatype World = World(
    sink: Sink, completions: map<nat, Completion>, shipments: map<nat, seq<Sent>>, log: seq<Entry>, ids: nat)

  datatype Step =
    | Arrive(chunk: TtsSink.Chunk)
    | Begin(session: Id, playback: Id)
    | Look(c: nat)
    | Send(c: nat, ok: bool)
    | End(c: nat)
    | Cancel(session: Id, playback: Id)
    | Interrupt(session: Id, ks: seq<Key>)

  function Goto(x: World, c: nat, p: Phase): map<nat, Completion>
    requires c in x.completions
  {
    x.completions[c := x.completions[c].(phase := p)]
  }

  /** Steps that are not enabled change nothing. */
  ghost function Next(x: World, step: Step): World {
    match step
    case Arrive(chunk) => x.(sink := Appended(x.sink, chunk))
    case Begin(session, playback) =>
      var k := Resolve(x.sink, session, playback);
      var (sink, buffer) := Begun(x.sink, k);
      if buffer.None? then x.(sink := sink)
      else
        var pieces := Shipment(k, buffer.value.turn, NormalizeTTSAudio(buffer.value.pcm, buffer.value.encoding));
        World(sink, x.completions[x.ids := Completion(k, pieces, if pieces == [] then Ending(0) else Checking(0))],
              x.shipments[x.ids := pieces], x.log, x.ids + 1)
    case Look(c) =>
      if c in x.completions && x.completions[c].phase.Checking? then
        var i := x.completions[c].phase.next;
        x.(completions := Goto(x, c, if Settled(x.sink, x.completions[c].key) then Ending(i) else Sending(i)))
      else x
    case Send(c, ok) =>
      if c in x.completions && x.completions[c].phase.Sending?
         && x.completions[c].phase.next < |x.completions[c].shipment| then
        var m := x.completions[c];
        var i := m.phase.next;
        if ok then
          x.(completions := Goto(x, c, if i + 1 == |m.shipment| then Ending(i + 1) else Checking(i + 1)),
             log := x.log + [Entry(c, m.shipment[i])])
        else x.(completions := Goto(x, c, Ending(i)))
      else x
    case End(c) =>
      if c in x.completions && x.completions[c].phase.Ending? then
        x.(sink := Finished(x.sink, x.completions[c].key), completions := x.completions - {c})
      else x
    case Cancel(session, playback) => x.(sink := Cancelled(x.sink, Resolve(x.sink, session, playback)))
    case Interrupt(session, ks) =>
      if session != "" && Visits(x.sink, session, ks) then x.(sink := Interrupted(x.sink, session, ks)) else x
  }

  ghost function Run(x: World, steps: seq<Step>): World
    decreases |steps|
  {
    if steps == [] then x else Run(Next(x, steps[0]), steps[1..])
  }

  const Start := World(Sink(map[], map[], []), map[], map[], [], 0)

  // ----- the invariant

  /** The pieces sent by completion `c`, in order. */
  function SentBy(log: seq<Entry>, c: nat): seq<Sent>
    decreases |log|
  {
    if log == [] then []
    else
      var last := log[|log| - 1];
      SentBy(log[..|log| - 1], c) + if last.author == c then [last.piece] else []
  }

  lemma SentByAppend(log: seq<Entry>, e: Entry, c: nat)
    ensures SentBy(log + [e], c) == SentBy(log, c) + if e.author == c then [e.piece] else []
  {
    assert (log + [e])[..|log|] == log;
  }

  ghost predicate InOrder(x: World) {
    && (forall c :: c in x.completions ==>
          && c in x.shipments && x.completions[c].shipment == x.shipments[c]
          && x.completions[c].phase.next <= |x.shipments[c]|
          && (!x.completions[c].phase.Ending? ==> x.completions[c].phase.next < |x.shipments[c]|)
          && SentBy(x.log, c) == x.shipments[c][..x.completions[c].phase.next])
    && (forall c :: c in x.shipments ==> c < x.ids && SentBy(x.log, c) <= x.shipments[c])
    && (forall i :: 0 <= i < |x.log| ==> x.log[i].author < x.ids)
  }

  ghost predicate Buried(x: World) {
    && NoRepeats(x.sink.order) && |x.sink.order| <= TOMBSTONES
    && (forall k :: k in x.sink.order ==> k !in x.sink.buffers)
  }

  ghost predicate Named(x: World) {
    && (forall k :: k in x.sink.buffers ==> k.playback != "")
    && (forall c :: c in x.completions ==> x.completions[c].key.playback != "")
  }

  /** Holds in every run, however often a playback is completed. */
  ghost predicate Inv(x: World) {
    InOrder(x) && Buried(x) && Named(x)
  }

  lemma {:induction false} SentByNobody(log: seq<Entry>, c: nat)
    requires forall i :: 0 <= i < |log| ==> log[i].author != c
    ensures SentBy(log, c) == []
    decreases |log|
  {
    if log != [] {
      SentByNobody(log[..|log| - 1], c);
    }
  }

  lemma SendInOrder(x: World, c: nat, ok: bool)
    requires InOrder(x)
    ensures InOrder(Next(x, Send(c, ok)))
  {
    var y := Next(x, Send(c, ok));
    if y.log != x.log {
      var m := x.completions[c];
      forall d ensures SentBy(y.log, d) == SentBy(x.log, d) + if d == c then [m.shipment[m.phase.next]] else [] {
        SentByAppend(x.log, Entry(c, m.shipment[m.phase.next]), d);
      }
      assert m.shipment[..m.phase.next + 1] == m.shipment[..m.phase.next] + [m.shipment[m.phase.next]];
    }
  }

  lemma StepInOrder(x: World, step: Step)
    requires InOrder(x)
    ensures InOrder(Next(x, step))
  {
    hide Resolve, Shipment, NormalizeTTSAudio, SentBy;
    if step.Send? {
      SendInOrder(x, step.c, step.ok);
    } else if step.Begin? {
      SentByNobody(x.log, x.ids);
    }
  }

  lemma StepBuried(x: World, step: Step)
    requires Buried(x)
    ensures Buried(Next(x, step))
  {
    hide Resolve, Shipment, NormalizeTTSAudio, NoRepeats, Release, MarkAll, Mark;
    match step
    case Begin(session, playback) =>
      ReleaseRemoves(x.sink.order, Resolve(x.sink, session, playback));
    case End(c) =>
      if c in x.completions {
        ReleaseRemoves(x.sink.order, x.completions[c].key);
      }
    case Cancel(session, playback) =>
      MarkAdds(x.sink.order, Resolve(x.sink, session, playback));
    case Interrupt(session, ks) =>
      MarkAllAdds(x.sink.order, ks);
    case _ =>
  }

  lemma StepNamed(x: World, step: Step)
    requires Named(x)
    ensures Named(Next(x, step))
  {
    hide Resolve, Shipment, NormalizeTTSAudio, Release, MarkAll, Mark;
  }

  lemma StepKeeps(x: World, step: Step)
    requires Inv(x)
    ensures Inv(Next(x, step))
  {
    hide InOrder, Buried, Named, Next;
    StepInOrder(x, step);
    StepBuried(x, step);
    StepNamed(x, step);
  }

  lemma {:induction false} RunKeeps(x: World, steps: seq<Step>)
    requires Inv(x)
    ensures Inv(Run(x, steps))
    decreases |steps|
  {
    hide Inv, Next;
    if steps != [] {
      StepKeeps(x, steps[0]);
      RunKeeps(Next(x, steps[0]), steps[1..]);
    }
  }

  // ----- what is shipped

  /** In every run, what a completion has sent is the beginning of its shipment. */
  lemma ShippedInOrder(steps: seq<Step>, c: nat)
    requires c in Run(Start, steps).shipments
    ensures SentBy(Run(Start, steps).log, c) <= Run(Start, steps).shipments[c]
  {
    RunKeeps(Start, steps);
  }

  /** What the pieces carry, one after the other. */
  function Carried(pieces: seq<Sent>): seq<Bytes> {
    seq(|pieces|, i requires 0 <= i < |pieces| => pieces[i].data)
  }

  /** A shipment carries its audio, cut into pieces that are numbered from one without gaps, the final one
      alone marked as the last. */
  lemma ShipmentShape(k: Key, turn: Id, audio: Audio)
    ensures
      var s := Shipment(k, turn, audio);
      && Concat(Carried(s)) == audio.data
      && (forall i :: 0 <= i < |s| ==>
            && s[i].key == k && s[i].turn == turn && s[i].encoding == audio.encoding
            && s[i].sequence == i + 1 && (s[i].last <==> i == |s| - 1) && 0 < |s[i].data| <= 8192)
  {
    PiecesSplit(audio.data, MAX_PIECE);
    assert Carried(Shipment(k, turn, audio)) == Pieces(audio.data, MAX_PIECE);
  }

  // ----- muting a completion

  predicate Shipping(x: World, c: nat) {
    c in x.completions && !x.completions[c].phase.Ending?
  }

  /** Over, or about to find its playback discarded at its next check. */
  predicate Muted(x: World, c: nat) {
    c < x.ids && (Shipping(x, c) ==> Settled(x.sink, x.completions[c].key))
  }

  /** One piece if the completion is past its check and about to send. */
  function Committed(x: World, c: nat): nat {
    if c in x.completions && x.completions[c].phase.Sending? then 1 else 0
  }

  /** Exactly what undoes a discard while the completion ships: another completion of the same playback
      begins with new audio, or uses up the tombstone that is all there is left, or ends; or later discards
      evict that tombstone. */
  ghost predicate Unmutes(x: World, step: Step, c: nat) {
    && Shipping(x, c)
    && var k := x.completions[c].key;
    match step
    case Begin(session, playback) =>
      && Resolve(x.sink, session, playback) == k
      && if k in x.sink.order then k !in x.sink.publishing else k in x.sink.buffers && x.sink.buffers[k].pcm != []
    case End(d) =>
      d != c && d in x.completions && x.completions[d].phase.Ending? && x.completions[d].key == k
    case Cancel(session, playback) =>
      k !in x.sink.publishing && k !in Mark(x.sink.order, Resolve(x.sink, session, playback))
    case Interrupt(session, ks) =>
      session != "" && Visits(x.sink, session, ks) && k !in x.sink.publishing && k !in MarkAll(x.sink.order, ks)
    case _ => false
  }

  lemma UnmutedIff(x: World, step: Step, c: nat)
    requires Inv(x) && Muted(x, c)
    ensures !Muted(Next(x, step), c) <==> Unmutes(x, step, c)
  {
    hide Resolve, Shipment, NormalizeTTSAudio, SentBy, Mark, MarkAll, Visits, NoRepeats, Release;
    match step
    case Begin(session, playback) =>
      ReleaseRemoves(x.sink.order, Resolve(x.sink, session, playback));
    case End(d) =>
      if d in x.completions {
        ReleaseRemoves(x.sink.order, x.completions[d].key);
      }
    case _ =>
  }

  ghost predicate NeverUnmuted(x: World, steps: seq<Step>, c: nat)
    decreases |steps|
  {
    steps == [] || (!Unmutes(x, steps[0], c) && NeverUnmuted(Next(x, steps[0]), steps[1..], c))
  }

  /** The run sends no more of the completion than it was committed to. */
  ghost predicate Within(x: World, steps: seq<Step>, c: nat) {
    |SentBy(Run(x, steps).log, c)| <= |SentBy(x.log, c)| + Committed(x, c)
  }

  lemma StepWithin(x: World, step: Step, c: nat)
    requires Inv(x) && Muted(x, c)
    ensures
      var y := Next(x, step);
      |SentBy(y.log, c)| + Committed(y, c) <= |SentBy(x.log, c)| + Committed(x, c)
  {
    hide Buried, Named, Resolve, Shipment, NormalizeTTSAudio, SentBy, Begun, Mark, MarkAll, Finished, Cancelled, Visits;
    if step.Send? && step.c in x.completions && x.completions[step.c].phase.next < |x.completions[step.c].shipment| {
      SentByAppend(x.log, Entry(step.c, x.completions[step.c].shipment[x.completions[step.c].phase.next]), c);
    }
  }

  /** After a discard at most the one piece already past its check still goes out, in every run in which
      nothing undoes the discard, however many other playbacks are shipped and discarded meanwhile. */
  lemma {:induction false} AtMostOneMorePiece(x: World, steps: seq<Step>, c: nat)
    requires Inv(x) && Muted(x, c) && NeverUnmuted(x, steps, c)
    ensures Within(x, steps, c) && Muted(Run(x, steps), c)
    decreases |steps|
  {
    hide Inv, Next, SentBy, Muted, Committed, Unmutes;
    if steps != [] {
      StepKeeps(x, steps[0]);
      UnmutedIff(x, steps[0], c);
      StepWithin(x, steps[0], c);
      AtMostOneMorePiece(Next(x, steps[0]), steps[1..], c);
    }
  }

  /** There are pieces to send beyond the one committed to. */
  predicate HasMore(x: World, c: nat) {
    Shipping(x, c) && x.completions[c].phase.next + Committed(x, c) < |x.completions[c].shipment|
  }

  /** The completion goes on by itself. */
  function Resume(x: World, c: nat): seq<Step> {
    if Committed(x, c) == 1 then [Send(c, true), Look(c), Send(c, true)] else [Look(c), Send(c, true)]
  }

  lemma ResumeOverruns(x: World, c: nat)
    requires InOrder(x) && HasMore(x, c) && !Settled(x.sink, x.completions[c].key)
    ensures NeverUnmuted(x, Resume(x, c), c) && !Within(x, Resume(x, c), c)
  {
    hide Settled, SentBy;
    var m := x.completions[c];
    var i := m.phase.next;
    if m.phase.Sending? {
      var x1 := Next(x, Send(c, true));
      SentByAppend(x.log, Entry(c, m.shipment[i]), c);
      assert Resume(x, c)[1..] == [Look(c), Send(c, true)];
      LookAndSend(x1, c);
    } else {
      LookAndSend(x, c);
    }
  }

  lemma LookAndSend(x: World, c: nat)
    requires c in x.completions && x.completions[c].phase.Checking?
    requires x.completions[c].phase.next < |x.completions[c].shipment| && !Settled(x.sink, x.completions[c].key)
    ensures NeverUnmuted(x, [Look(c), Send(c, true)], c)
    ensures |SentBy(Run(x, [Look(c), Send(c, true)]).log, c)| == |SentBy(x.log, c)| + 1
  {
    hide Settled, SentBy;
    var m := x.completions[c];
    var x1 := Next(x, Look(c));
    var x2 := Next(x1, Send(c, true));
    assert [Look(c), Send(c, true)][1..] == [Send(c, true)];
    assert [Send(c, true)][1..] == [];
    assert Run(x1, [Send(c, true)]) == Run(x2, []);
    assert NeverUnmuted(x1, [Send(c, true)], c);
    SentByAppend(x.log, Entry(c, m.shipment[m.phase.next]), c);
  }

  /** A completion is held to its one piece in all runs that do not undo a discard, exactly when its
      playback is settled or it has no more pieces anyway. */
  lemma HeldIff(x: World, c: nat)
    requires Inv(x) && c < x.ids
    ensures Muted(x, c) || !HasMore(x, c) <==> forall steps :: NeverUnmuted(x, steps, c) ==> Within(x, steps, c)
  {
    hide InOrder, Buried, Named, NeverUnmuted, Within, Run;
    if Muted(x, c) {
      forall steps | NeverUnmuted(x, steps, c) ensures Within(x, steps, c) {
        AtMostOneMorePiece(x, steps, c);
      }
    } else if !HasMore(x, c) {
      forall steps ensures Within(x, steps, c) {
        NoMore(x, steps, c);
      }
    } else {
      ResumeOverruns(x, c);
    }
  }

  lemma {:induction false} ShipmentsStay(x: World, steps: seq<Step>, c: nat)
    requires InOrder(x) && c in x.shipments
    ensures InOrder(Run(x, steps)) && c in Run(x, steps).shipments && Run(x, steps).shipments[c] == x.shipments[c]
    decreases |steps|
  {
    hide InOrder, Next;
    if steps != [] {
      StepInOrder(x, steps[0]);
      ShipmentStays(x, steps[0], c);
      ShipmentsStay(Next(x, steps[0]), steps[1..], c);
    }
  }

  lemma ShipmentStays(x: World, step: Step, c: nat)
    requires InOrder(x) && c in x.shipments
    ensures c in Next(x, step).shipments && Next(x, step).shipments[c] == x.shipments[c]
  {
    hide SentBy, Resolve, Shipment, NormalizeTTSAudio;
  }

  lemma NoMore(x: World, steps: seq<Step>, c: nat)
    requires Inv(x) && Shipping(x, c) && !HasMore(x, c)
    ensures Within(x, steps, c)
  {
    ShipmentsStay(x, steps, c);
    hide SentBy, Run;
  }

  // ----- what mutes a completion

  /** Cancelling a playback mutes every completion that ships it. Interrupting its session does so exactly
      when the playback still carries its flag, or has a tombstone in the end: an earlier completion of the
      same playback may have taken the flag away. */
  lemma DiscardingMutes(x: World, c: nat, session: Id, playback: Id, ks: seq<Key>)
    requires Inv(x) && Shipping(x, c)
    ensures
      var k := x.completions[c].key;
      && (Resolve(x.sink, session, playback) == k ==> Muted(Next(x, Cancel(session, playback)), c))
      && (k.session != "" && Visits(x.sink, k.session, ks) ==>
            (Muted(Next(x, Interrupt(k.session, ks)), c) <==> k in x.sink.publishing || k in MarkAll(x.sink.order, ks)))
  {
    hide Visits, MarkAll, SentBy, Resolve;
    MarkAdds(x.sink.order, x.completions[c].key);
    hide Mark, NoRepeats;
  }

  // ----- completing each playback once

  /** One completion ships a playback at a time, and it carries the flag. */
  ghost predicate OnePerKey(x: World) {
    && (forall c, d ::
          c in x.completions && d in x.completions && x.completions[c].key == x.completions[d].key ==> c == d)
    && (forall c :: c in x.completions ==> x.completions[c].key in x.sink.publishing)
  }

  /** No completion begins to ship a playback that another one is shipping. */
  ghost predicate Once(x: World, step: Step) {
    step.Begin? ==>
      var k := Resolve(x.sink, step.session, step.playback);
      Begun(x.sink, k).1.Some? ==> forall c :: c in x.completions ==> x.completions[c].key != k
  }

  ghost predicate OnceEach(x: World, steps: seq<Step>)
    decreases |steps|
  {
    steps == [] || (Once(x, steps[0]) && OnceEach(Next(x, steps[0]), steps[1..]))
  }

  lemma StepOnePerKey(x: World, step: Step)
    requires OnePerKey(x) && Once(x, step)
    ensures OnePerKey(Next(x, step))
  {
    hide Resolve, Shipment, NormalizeTTSAudio, Release, Mark, MarkAll, Visits;
  }

  lemma OnceNeverUnmutes(x: World, step: Step, c: nat)
    requires OnePerKey(x) && Once(x, step)
    ensures !Unmutes(x, step, c)
  {
    hide Resolve, Mark, MarkAll, Visits, Release;
  }

  /** Where every playback is completed once at a time, nothing undoes a discard: at most the one piece
      still goes out, even if so many other playbacks are discarded that the tombstone is evicted. */
  lemma {:induction false} CompletedOnceStaysMuted(x: World, steps: seq<Step>, c: nat)
    requires Inv(x) && OnePerKey(x) && Muted(x, c) && OnceEach(x, steps)
    ensures NeverUnmuted(x, steps, c) && Within(x, steps, c)
    decreases |steps|
  {
    OnceUndoesNothing(x, steps, c);
    AtMostOneMorePiece(x, steps, c);
  }

  lemma {:induction false} OnceUndoesNothing(x: World, steps: seq<Step>, c: nat)
    requires OnePerKey(x) && OnceEach(x, steps)
    ensures NeverUnmuted(x, steps, c)
    decreases |steps|
  {
    hide OnePerKey, Once, Next, Unmutes;
    if steps != [] {
      OnceNeverUnmutes(x, steps[0], c);
      StepOnePerKey(x, steps[0]);
      OnceUndoesNothing(Next(x, steps[0]), steps[1..], c);
    }
  }

  // ----- two runs in which a discarded playback goes on

  const Sample := TtsSink.Chunk("s", "p", "t", "pcm_s16le", [0])

  const Played := Key("s", "p")

  lemma OneByteShips(k: Key)
    ensures |Shipment(k, "t", NormalizeTTSAudio([0], "pcm_s16le"))| == 1
  {
    PiecesSplit([0], MAX_PIECE);
  }

  /** The sink alone while playback `Played` is worked on. */
  function Shipped(flag: bool): Sink {
    Sink(map[], map[Played := flag], if flag then [Played] else [])
  }

  lemma {:induction false} RunAdds(x: World, first: seq<Step>, second: seq<Step>)
    ensures Run(x, first + second) == Run(Run(x, first), second)
    decreases |first|
  {
    hide Next;
    if first == [] {
      assert first + second == second;
    } else {
      assert (first + second)[1..] == first[1..] + second;
      RunAdds(Next(x, first[0]), first[1..], second);
    }
  }

  /** What completing a one-byte playback makes of a sink without buffers. */
  ghost function OneMore(x: World): World {
    var pieces := Shipment(Played, "t", NormalizeTTSAudio([0], "pcm_s16le"));
    World(x.sink.(publishing := x.sink.publishing[Played := false]),
          x.completions[x.ids := Completion(Played, pieces, Checking(0))], x.shipments[x.ids := pieces],
          x.log, x.ids + 1)
  }

  lemma ArriveAndBegin(x: World)
    requires x.sink.buffers == map[] && Played !in x.sink.order
    ensures Next(Next(x, Arrive(Sample)), Begin("s", "p")) == OneMore(x)
  {
    hide Shipment, NormalizeTTSAudio;
    OneByteShips(Played);
    var y := Next(x, Arrive(Sample));
    assert [] + Sample.data == [0];
    assert y.sink.buffers == map[Played := Buffer("s", "t", "pcm_s16le", [0])];
    assert y.sink.buffers - {Played} == map[];
    assert Resolve(y.sink, "s", "p") == Played;
  }

  /** First run: completed, cancelled, completed again (which uses up the tombstone), buffered anew and
      completed a third time. The third completion resets the flag under which the first was cancelled. */
  lemma BeginRevives()
    ensures
      var x := Run(Start, [Arrive(Sample), Begin("s", "p"), Cancel("s", "p")]);
      && Shipping(x, 0) && Muted(x, 0) && Committed(x, 0) == 0
      && !Within(x, [Begin("s", "p"), Arrive(Sample), Begin("s", "p"), Look(0), Send(0, true)], 0)
  {
    hide Shipment, SentBy, NormalizeTTSAudio;
    var pieces := Shipment(Played, "t", NormalizeTTSAudio([0], "pcm_s16le"));
    OneByteShips(Played);
    hide Within;
    var x3 := OneMore(Start).(sink := Shipped(true));
    CancelledAtWork();
    FirstGoesOn(x3, Completion(Played, pieces, Checking(0)));
  }

  lemma CancelledAtWork()
    ensures Run(Start, [Arrive(Sample), Begin("s", "p"), Cancel("s", "p")]) == OneMore(Start).(sink := Shipped(true))
  {
    hide Shipment, NormalizeTTSAudio;
    ArriveAndBegin(Start);
    CancelledOnce(OneMore(Start));
    Unfold3(Start, Arrive(Sample), Begin("s", "p"), Cancel("s", "p"));
  }

  /** The tombstone is used up by one completion, and the flag reset by the next. */
  lemma FlagReset(x: World)
    requires x.sink == Shipped(true)
    ensures
      var y := Run(x, [Begin("s", "p"), Arrive(Sample), Begin("s", "p")]);
      && y.sink == Shipped(false) && y.log == x.log
      && forall c :: c in x.completions && c != x.ids ==> c in y.completions && y.completions[c] == x.completions[c]
  {
    hide Shipment, NormalizeTTSAudio;
    var y := Next(x, Begin("s", "p"));
    assert y == x.(sink := Sink(map[], map[Played := true], []));
    ArriveAndBegin(y);
    Unfold3(x, Begin("s", "p"), Arrive(Sample), Begin("s", "p"));
  }

  lemma FirstGoesOn(x3: World, m: Completion)
    requires m.key == Played && |m.shipment| == 1 && m.phase == Checking(0)
    requires x3.sink == Shipped(true) && x3.completions == map[0 := m] && x3.ids == 1
    ensures !Within(x3, [Begin("s", "p"), Arrive(Sample), Begin("s", "p"), Look(0), Send(0, true)], 0)
  {
    hide SentBy, Next;
    FlagReset(x3);
    LookAndSend(Run(x3, [Begin("s", "p"), Arrive(Sample), Begin("s", "p")]), 0);
    RunAdds(x3, [Begin("s", "p"), Arrive(Sample), Begin("s", "p")], [Look(0), Send(0, true)]);
    assert [Begin("s", "p"), Arrive(Sample), Begin("s", "p")] + [Look(0), Send(0, true)]
        == [Begin("s", "p"), Arrive(Sample), Begin("s", "p"), Look(0), Send(0, true)];
  }

  lemma Unfold3(x: World, a: Step, b: Step, c: Step)
    ensures Run(x, [a, b, c]) == Next(Next(Next(x, a), b), c)
  {
    hide Next;
    assert [a, b, c][1..] == [b, c];
    assert [b, c][1..] == [c];
    assert [c][1..] == [];
    assert Run(x, [a, b, c]) == Run(Next(x, a), [b, c]);
    assert Run(Next(x, a), [b, c]) == Run(Next(Next(x, a), b), [c]);
    assert Run(Next(Next(x, a), b), [c]) == Run(Next(Next(Next(x, a), b), c), []);
  }

  lemma FirstEnds(x: World, m: Completion)
    requires m.key == Played && |m.shipment| == 1 && m.phase == Checking(0)
    requires x.sink == Shipped(true) && x.completions == map[0 := m.(phase := Ending(0)), 1 := m]
    ensures !Within(x, [End(0)] + [Look(1), Send(1, true)], 1)
  {
    hide SentBy;
    var y := Next(x, End(0));
    assert [End(0)][1..] == [] && Run(x, [End(0)]) == Run(y, []);
    LookAndSend(y, 1);
    RunAdds(x, [End(0)], [Look(1), Send(1, true)]);
  }

  lemma CompletedTwice()
    ensures
      var m := Completion(Played, Shipment(Played, "t", NormalizeTTSAudio([0], "pcm_s16le")), Checking(0));
      var x3 := Run(Start, [Arrive(Sample), Begin("s", "p"), Arrive(Sample)]);
      var x6 := Next(Next(Next(x3, Begin("s", "p")), Cancel("s", "p")), Look(0));
      && x6.sink == Shipped(true) && x6.completions == map[0 := m.(phase := Ending(0)), 1 := m]
      && x6.log == [] && x6.ids == 2
  {
    hide Shipment, NormalizeTTSAudio, Resolve;
    ArriveAndBegin(Start);
    ArriveAndBegin(OneMore(Start));
    Unfold3(Start, Arrive(Sample), Begin("s", "p"), Arrive(Sample));
    CancelledOnce(OneMore(OneMore(Start)));
  }

  lemma CancelledOnce(x: World)
    requires x.sink == Shipped(false)
    ensures Next(x, Cancel("s", "p")) == x.(sink := Shipped(true))
  {
  }

  /** Second run: completed twice, then cancelled. The end of the first completion takes the flag and the
      tombstone with it, and the second goes on. */
  lemma EndRevives()
    ensures
      var twice := [Arrive(Sample), Begin("s", "p"), Arrive(Sample)];
      var x := Run(Start, twice + [Begin("s", "p"), Cancel("s", "p"), Look(0)]);
      && Shipping(x, 1) && Muted(x, 1) && Committed(x, 1) == 0
      && !Within(x, [End(0)] + [Look(1), Send(1, true)], 1)
  {
    hide Shipment, SentBy, NormalizeTTSAudio, Within;
    var x3 := Run(Start, [Arrive(Sample), Begin("s", "p"), Arrive(Sample)]);
    var x6 := Next(Next(Next(x3, Begin("s", "p")), Cancel("s", "p")), Look(0));
    CompletedTwice();
    OneByteShips(Played);
    Unfold3(x3, Begin("s", "p"), Cancel("s", "p"), Look(0));
    RunAdds(Start, [Arrive(Sample), Begin("s", "p"), Arrive(Sample)], [Begin("s", "p"), Cancel("s", "p"), Look(0)]);
    FirstEnds(x6, Completion(Played, Shipment(Played, "t", NormalizeTTSAudio([0], "pcm_s16le")), Checking(0)));
  }

  // ----- while the tombstone lives

  /** The tombstone of `k` is there throughout the run. */
  ghost predicate Remembered(x: World, steps: seq<Step>, k: Key)
    decreases |steps|
  {
    k in x.sink.order && (steps == [] || Remembered(Next(x, steps[0]), steps[1..], k))
  }

  /** While its tombstone lives a discarded playback is not buffered and no completion starts shipping it:
      late chunks and completions come to nothing. */
  lemma {:induction false} TombstoneSilences(x: World, steps: seq<Step>, k: Key)
    requires Buried(x) && Remembered(x, steps, k)
    ensures
      var y := Run(x, steps);
      && k !in y.sink.buffers
      && (forall c :: c in y.completions && y.completions[c].key == k ==>
            c in x.completions && x.completions[c].key == k)
    decreases |steps|
  {
    if steps != [] {
      hide Next, NoRepeats;
      StepBuried(x, steps[0]);
      NoneBegins(x, steps[0], k);
      TombstoneSilences(Next(x, steps[0]), steps[1..], k);
    }
  }

  lemma NoneBegins(x: World, step: Step, k: Key)
    requires k in x.sink.order
    ensures forall c :: c in Next(x, step).completions && Next(x, step).completions[c].key == k ==>
              c in x.completions && x.completions[c].key == k
  {
    hide Resolve, Shipment, NormalizeTTSAudio;
  }

  /** How many tombstones are younger than that of `k`. */
  function Younger(order: seq<Key>, k: Key): nat
    decreases |order|
  {
    if order == [] then 0 else if order[0] == k then |order| - 1 else Younger(order[1..], k)
  }

  /** How many tombstones marking `ks` one after the other sets up. */
  function NewMarks(order: seq<Key>, ks: seq<Key>): nat
    decreases |ks|
  {
    if ks == [] then 0
    else (if ks[0].playback == "" || ks[0] in order then 0 else 1) + NewMarks(Mark(order, ks[0]), ks[1..])
  }

  lemma {:induction false} YoungerAt(order: seq<Key>, k: Key, i: nat)
    requires NoRepeats(order) && i < |order| && order[i] == k
    ensures Younger(order, k) == |order| - 1 - i
    decreases i
  {
    if i > 0 {
      assert order[0] != k;
      assert forall a, b :: 0 <= a < b < |order| - 1 ==> order[1..][a] == order[a + 1] && order[1..][b] == order[b + 1];
      YoungerAt(order[1..], k, i - 1);
    }
  }

  /** A tombstone outlives another mark exactly if fewer than 127 are younger, or the mark is not a new one. */
  lemma MarkKeepsIff(order: seq<Key>, j: Key, k: Key)
    requires NoRepeats(order) && |order| <= TOMBSTONES && k in order
    ensures k in Mark(order, j) <==> Younger(order, k) + NewMarks(order, [j]) < TOMBSTONES
    ensures k in Mark(order, j) ==> Younger(Mark(order, j), k) == Younger(order, k) + NewMarks(order, [j])
  {
    var i :| 0 <= i < |order| && order[i] == k;
    YoungerAt(order, k, i);
    MarkAdds(order, j);
    assert [j][1..] == [];
    var after := Mark(order, j);
    if j.playback != "" && j !in order {
      if |order| < TOMBSTONES {
        YoungerAt(after, k, i);
      } else if i > 0 {
        assert after[i - 1] == k;
        YoungerAt(after, k, i - 1);
      }
    }
  }

  /** Marking several keys keeps the tombstone of `k` if at most 127 are younger in the end; and only then,
      unless `k` itself is among those keys. */
  lemma {:induction false} MarkAllKeepsIff(order: seq<Key>, ks: seq<Key>, k: Key)
    requires NoRepeats(order) && |order| <= TOMBSTONES && k in order
    ensures Younger(order, k) + NewMarks(order, ks) < TOMBSTONES ==>
              && k in MarkAll(order, ks)
              && Younger(MarkAll(order, ks), k) == Younger(order, k) + NewMarks(order, ks)
    ensures k !in ks && Younger(order, k) + NewMarks(order, ks) >= TOMBSTONES ==> k !in MarkAll(order, ks)
    decreases |ks|
  {
    if ks == [] {
      var i :| 0 <= i < |order| && order[i] == k;
      YoungerAt(order, k, i);
    } else {
      MarkKeepsIff(order, ks[0], k);
      assert NewMarks(order, [ks[0]]) == (if ks[0].playback == "" || ks[0] in order then 0 else 1) by {
        assert [ks[0]][1..] == [];
      }
      MarkAdds(order, ks[0]);
      if k in Mark(order, ks[0]) {
        MarkAllKeepsIff(Mark(order, ks[0]), ks[1..], k);
      } else if k !in ks {
        MarkAllAdds(Mark(order, ks[0]), ks[1..]);
      }
    }
  }

  /** The marks that follow the last one of `k`: all of them if there is none. */
  function After(ks: seq<Key>, k: Key): (rest: seq<Key>)
    ensures |rest| <= |ks| && k !in rest && rest == ks[|ks| - |rest|..]
    ensures k !in ks ==> rest == ks
    ensures k in ks ==> |rest| < |ks| && ks[|ks| - |rest| - 1] == k
    decreases |ks|
  {
    if k !in ks then ks else After(ks[1..], k)
  }

  lemma LastMarkAdds(order: seq<Key>, ks: seq<Key>, k: Key)
    requires NoRepeats(order) && |order| <= TOMBSTONES && k.playback != "" && ks != [] && ks[|ks| - 1] == k
    ensures k in MarkAll(order, ks)
  {
    var first := ks[..|ks| - 1];
    assert ks == first + [k];
    MarkOneMore(order, first, k);
    MarkAllAdds(order, first);
    MarkAdds(MarkAll(order, first), k);
  }

  /** Whether `k` has a tombstone after any marks, its own among them or not: exactly if it had one after
      its own last mark and at most 127 are younger by then. */
  lemma TombstoneSurvivesIff(order: seq<Key>, ks: seq<Key>, k: Key)
    requires NoRepeats(order) && |order| <= 128 && k.playback != ""
    ensures
      var rest := After(ks, k);
      var base := MarkAll(order, ks[..|ks| - |rest|]);
      && (k in ks ==> k in base)
      && (k in MarkAll(order, ks) <==> k in base && Younger(base, k) + NewMarks(base, rest) < 128)
  {
    hide NoRepeats, Mark, MarkAll, Younger, NewMarks;
    var rest := After(ks, k);
    var upto := ks[..|ks| - |rest|];
    var base := MarkAll(order, upto);
    assert ks == upto + rest;
    MarkAllAdd(order, upto, rest);
    MarkAllAdds(order, upto);
    if k in ks {
      LastMarkAdds(order, upto, k);
    }
    if k in base {
      MarkAllKeepsIff(base, rest, k);
    } else {
      MarkAllAdds(base, rest);
    }
  }

  lemma RestNoRepeats(order: seq<Key>)
    requires NoRepeats(order) && order != []
    ensures NoRepeats(order[1..])
  {
    assert forall a, b :: 0 <= a < b < |order| - 1 ==> order[1..][a] == order[a + 1] && order[1..][b] == order[b + 1];
  }

  lemma {:induction false} ReleaseKeepsYounger(order: seq<Key>, j: Key, k: Key)
    requires NoRepeats(order) && k in order && j != k
    ensures k in Release(order, j) && Younger(Release(order, j), k) <= Younger(order, k)
    decreases |order|
  {
    hide NoRepeats;
    ReleaseRemoves(order, j);
    if order[0] != j && order[0] != k {
      RestNoRepeats(order);
      assert order == [order[0]] + order[1..];
      ReleaseKeepsYounger(order[1..], j, k);
      assert Release(order, j)[1..] == Release(order[1..], j);
    }
  }

  /** How many tombstones the step sets up. */
  ghost function Discards(x: World, step: Step): nat {
    match step
    case Cancel(session, playback) => NewMarks(x.sink.order, [Resolve(x.sink, session, playback)])
    case Interrupt(session, ks) =>
      if session != "" && Visits(x.sink, session, ks) then NewMarks(x.sink.order, ks) else 0
    case _ => 0
  }

  ghost function DiscardsIn(x: World, steps: seq<Step>): nat
    decreases |steps|
  {
    if steps == [] then 0 else Discards(x, steps[0]) + DiscardsIn(Next(x, steps[0]), steps[1..])
  }

  /** A completion of the playback uses its tombstone up: when it is called, or when it ends. */
  ghost predicate UsesUp(x: World, step: Step, k: Key) {
    match step
    case Begin(session, playback) => Resolve(x.sink, session, playback) == k
    case End(c) => c in x.completions && x.completions[c].phase.Ending? && x.completions[c].key == k
    case _ => false
  }

  ghost predicate NeverUsedUp(x: World, steps: seq<Step>, k: Key)
    decreases |steps|
  {
    steps == [] || (!UsesUp(x, steps[0], k) && NeverUsedUp(Next(x, steps[0]), steps[1..], k))
  }

  lemma StepRemembers(x: World, step: Step, k: Key)
    requires Buried(x) && k in x.sink.order && !UsesUp(x, step, k)
    requires Younger(x.sink.order, k) + Discards(x, step) < TOMBSTONES
    ensures
      var y := Next(x, step);
      && k in y.sink.order && Younger(y.sink.order, k) <= Younger(x.sink.order, k) + Discards(x, step)
  {
    hide Resolve, Shipment, NormalizeTTSAudio, Younger, NewMarks, Mark, MarkAll, Release, Visits, NoRepeats;
    match step
    case Begin(session, playback) => ReleaseKeepsYounger(x.sink.order, Resolve(x.sink, session, playback), k);
    case End(c) =>
      if c in x.completions && x.completions[c].phase.Ending? {
        ReleaseKeepsYounger(x.sink.order, x.completions[c].key, k);
      }
    case Cancel(session, playback) => MarkKeepsIff(x.sink.order, Resolve(x.sink, session, playback), k);
    case Interrupt(session, ks) => MarkAllKeepsIff(x.sink.order, ks, k);
    case _ =>
  }

  lemma {:induction false} TombstoneLives(x: World, steps: seq<Step>, k: Key)
    requires Buried(x) && k in x.sink.order && NeverUsedUp(x, steps, k)
    requires Younger(x.sink.order, k) + DiscardsIn(x, steps) < TOMBSTONES
    ensures Remembered(x, steps, k)
    decreases |steps|
  {
    if steps != [] {
      hide Buried, Next, UsesUp, Discards, Younger;
      StepRemembers(x, steps[0], k);
      StepBuried(x, steps[0]);
      TombstoneLives(Next(x, steps[0]), steps[1..], k);
    }
  }

  /** A playback that is cancelled stays silent until 128 other playbacks were discarded or a completion
      used its tombstone up: what arrives late is not buffered, and nothing starts to ship it. */
  lemma CancelledStaysSilent(x: World, session: Id, playback: Id, steps: seq<Step>)
    requires Buried(x) && playback != "" && session != "" && Key(session, playback) !in x.sink.order
    requires
      var y := Next(x, Cancel(session, playback));
      NeverUsedUp(y, steps, Key(session, playback)) && DiscardsIn(y, steps) < 128
    ensures
      var k := Key(session, playback);
      var y := Run(Next(x, Cancel(session, playback)), steps);
      && k !in y.sink.buffers
      && (forall c :: c in y.completions && y.completions[c].key == k ==>
            c in x.completions && x.completions[c].key == k)
  {
    var k := Key(session, playback);
    var y := Next(x, Cancel(session, playback));
    StepBuried(x, Cancel(session, playback));
    assert y.sink.order[|y.sink.order| - 1] == k;
    YoungerAt(y.sink.order, k, |y.sink.order| - 1);
    hide Buried, Remembered, DiscardsIn, NeverUsedUp, Younger;
    TombstoneLives(y, steps, k);
    TombstoneSilences(y, steps, k);
  }
}

/** The speech sink: audio is buffered per playback, shipped in pieces when the playback completes, and
    discarded when it is cancelled or interrupted. A tombstone keeps late audio of a discarded playback
    from coming back. */
module TtsSink {
  import opened Wrappers
  import opened Wav

  type Id = string

  datatype Key = Key(session: Id, playback: Id)

  datatype Buffer = Buffer(session: Id, turn: Id, encoding: string, pcm: Bytes)

  datatype Chunk = Chunk(session: Id, playback: Id, turn: Id, encoding: string, data: Bytes)

  const TOMBSTONES: nat := 128

  // `publishing` holds the playbacks being shipped, and whether each was interrupted since it began.
  // `order` lists the tombstones, oldest first.
  datatype Sink = Sink(buffers: map<Key, Buffer>, publishing: map<Key, bool>, order: seq<Key>)

  // ----- tombstones

  function Mark(order: seq<Key>, k: Key): seq<Key> {
    if k.playback == "" || k in order then order
    else if |order| >= TOMBSTONES then order[1..] + [k]
    else order + [k]
  }

  function Release(order: seq<Key>, k: Key): seq<Key>
    decreases |order|
  {
    if order == [] then [] else if order[0] == k then order[1..] else [order[0]] + Release(order[1..], k)
  }

  function MarkAll(order: seq<Key>, ks: seq<Key>): seq<Key>
    decreases |ks|
  {
    if ks == [] then order else MarkAll(Mark(order, ks[0]), ks[1..])
  }

  ghost predicate NoRepeats(order: seq<Key>) {
    forall i, j :: 0 <= i < j < |order| ==> order[i] != order[j]
  }

  lemma {:induction false} ReleaseRemoves(order: seq<Key>, k: Key)
    requires NoRepeats(order)
    ensures NoRepeats(Release(order, k))
    ensures k !in Release(order, k)
    ensures forall j :: j in Release(order, k) <==> j in order && j != k
    ensures |Release(order, k)| == |order| - if k in order then 1 else 0
    decreases |order|
  {
    if order != [] {
      assert order == [order[0]] + order[1..];
      assert forall i :: 0 < i < |order| ==> order[i] == order[1..][i - 1];
      ReleaseRemoves(order[1..], k);
      var rest := Release(order[1..], k);
      assert order[0] !in order[1..];
      assert order[0] !in rest;
      assert forall i :: 0 <= i < |rest| ==> rest[i] in rest;
    }
  }

  lemma MarkAdds(order: seq<Key>, k: Key)
    requires NoRepeats(order) && |order| <= TOMBSTONES
    ensures NoRepeats(Mark(order, k)) && |Mark(order, k)| <= TOMBSTONES
    ensures k.playback != "" ==> k in Mark(order, k)
    ensures forall j :: j in Mark(order, k) ==> j in order || j == k
    ensures |order| < TOMBSTONES ==> forall j :: j in order ==> j in Mark(order, k)
  {
  }

  lemma {:induction false} MarkAllAdds(order: seq<Key>, ks: seq<Key>)
    requires NoRepeats(order) && |order| <= TOMBSTONES
    ensures NoRepeats(MarkAll(order, ks)) && |MarkAll(order, ks)| <= TOMBSTONES
    ensures forall j :: j in MarkAll(order, ks) ==> j in order || j in ks
    decreases |ks|
  {
    if ks != [] {
      MarkAdds(order, ks[0]);
      MarkAllAdds(Mark(order, ks[0]), ks[1..]);
      assert ks[0] in ks && forall j :: j in ks[1..] ==> j in ks;
    }
  }

  // ----- buffering

  function Appended(s: Sink, c: Chunk): Sink {
    var k := Key(c.session, c.playback);
    if c.playback == "" || c.data == [] || k in s.order then s
    else
      var b := if k in s.buffers then s.buffers[k] else Buffer(c.session, c.turn, "", []);
      s.(buffers := s.buffers[k := Buffer(
           if c.session != "" then c.session else b.session,
           if c.turn != "" then c.turn else b.turn,
           if c.encoding != "" then c.encoding else b.encoding,
           b.pcm + c.data)])
  }

  predicate Candidate(s: Sink, playback: Id, k: Key) {
    k in s.buffers && k.playback == playback
  }

  /** A caller that omits the session means the only buffered playback of that id, if there is just one. */
  ghost function Resolve(s: Sink, session: Id, playback: Id): Key {
    var k := Key(session, playback);
    if k in s.buffers || session != "" then k
    else if m :| Candidate(s, playback, m) && forall j :: Candidate(s, playback, j) ==> j == m then m
    else k
  }

  // ----- discarding

  function Cancelled(s: Sink, k: Key): Sink {
    Sink(s.buffers - {k}, if k in s.publishing then s.publishing[k := true] else s.publishing, Mark(s.order, k))
  }

  function Of(s: Sink, session: Id): set<Key> {
    set k | k in s.buffers.Keys + s.publishing.Keys && k.session == session
  }

  /** Interrupting a session visits its keys in some order `ks`; the order matters only for eviction. */
  ghost predicate Visits(s: Sink, session: Id, ks: seq<Key>) {
    forall k :: k in ks <==> k in Of(s, session)
  }

  function Interrupted(s: Sink, session: Id, ks: seq<Key>): Sink {
    Sink(map k | k in s.buffers && k.session != session :: s.buffers[k],
         map k | k in s.publishing :: if k.session == session then true else s.publishing[k],
         MarkAll(s.order, ks))
  }

  // ----- completing

  /** Either the playback was discarded, or there is nothing to ship, or shipping begins. */
  function Begun(s: Sink, k: Key): (Sink, Option<Buffer>) {
    if k in s.order then (s.(buffers := s.buffers - {k}, order := Release(s.order, k)), None)
    else if k !in s.buffers || s.buffers[k].pcm == [] then (s.(buffers := s.buffers - {k}), None)
    else (s.(buffers := s.buffers - {k}, publishing := s.publishing[k := false]), Some(s.buffers[k]))
  }

  predicate Settled(s: Sink, k: Key) {
    if k in s.publishing then s.publishing[k] else k in s.order
  }

  function Finished(s: Sink, k: Key): Sink {
    s.(publishing := s.publishing - {k}, order := Release(s.order, k))
  }

  // ----- the sink as it works on its maps

  datatype Sent = Sent(key: Key, turn: Id, sequence: nat, last: bool, encoding: string, data: Bytes)

  function Shipment(k: Key, turn: Id, audio: Audio): seq<Sent> {
    var pieces := Pieces(audio.data, MAX_PIECE);
    seq(|pieces|, i requires 0 <= i < |pieces| => Sent(k, turn, i + 1, i == |pieces| - 1, audio.encoding, pieces[i]))
  }

  class AudioSink {
    var buffers: map<Key, Buffer>
    var publishing: map<Key, bool>
    var settled: set<Key>
    var settledOrder: seq<Key>
    var sent: seq<Sent>

    ghost function State(): Sink
      reads this
    {
      Sink(buffers, publishing, settledOrder)
    }

    /** Tombstone set and order list hold the same keys, each once, and no more than the limit. */
    ghost predicate Valid()
      reads this
    {
      && settled == (set k | k in settledOrder)
      && NoRepeats(settledOrder)
      && |settledOrder| <= TOMBSTONES
    }

    constructor ()
      ensures Valid() && State() == Sink(map[], map[], []) && sent == []
    {
      buffers, publishing, settled, settledOrder, sent := map[], map[], {}, [], [];
    }

    method MarkSettled(k: Key)
      requires Valid()
      modifies this
      ensures Valid() && State() == old(State()).(order := Mark(old(settledOrder), k)) && sent == old(sent)
    {
      MarkAdds(settledOrder, k);
      if k.playback == "" || k in settled { return; }
      settled := settled + {k};
      settledOrder := settledOrder + [k];
      if |settledOrder| <= TOMBSTONES { return; }
      var oldest := settledOrder[0];
      settledOrder := settledOrder[1..];
      settled := settled - {oldest};
      assert settledOrder == old(settledOrder)[1..] + [k];
      assert forall j :: j in settledOrder <==> j in settled;
    }

    /** Searches the order list for the key and cuts it out. */
    method ReleaseSettled(k: Key)
      requires Valid()
      modifies this
      ensures Valid() && State() == old(State()).(order := Release(old(settledOrder), k)) && sent == old(sent)
    {
      ReleaseRemoves(settledOrder, k);
      if k !in settled {
        ReleaseNothing(settledOrder, k);
        return;
      }
      settled := settled - {k};
      ghost var at :| 0 <= at < |settledOrder| && settledOrder[at] == k;
      var i := 0;
      while settledOrder[i] != k
        invariant i <= at < |settledOrder| && settledOrder == old(settledOrder)
        invariant forall j :: 0 <= j < i ==> settledOrder[j] != k
        decreases at - i
      {
        i := i + 1;
      }
      ReleaseAt(settledOrder, k, i);
      settledOrder := settledOrder[..i] + settledOrder[i + 1..];
    }

    method Publish(c: Chunk)
      requires Valid()
      modifies this
      ensures Valid() && State() == Appended(old(State()), c) && sent == old(sent)
    {
      if c.playback == "" || |c.data| == 0 { return; }
      var k := Key(c.session, c.playback);
      if k in settled { return; }
      var buf := if k in buffers then buffers[k] else Buffer(c.session, c.turn, "", []);
      if c.turn != "" { buf := buf.(turn := c.turn); }
      if c.session != "" { buf := buf.(session := c.session); }
      if c.encoding != "" { buf := buf.(encoding := c.encoding); }
      buffers := buffers[k := buf.(pcm := buf.pcm + c.data)];
    }

    /** Looks for a single candidate, giving up on the second. */
    method BufferKey(session: Id, playback: Id) returns (k: Key)
      ensures k == Resolve(State(), session, playback)
    {
      k := Key(session, playback);
      if k in buffers || session != "" { return; }
      var found: Option<Key> := None;
      var left := buffers.Keys;
      while left != {}
        invariant left <= buffers.Keys
        invariant found.Some? ==> Candidate(State(), playback, found.value) && found.value !in left
        invariant forall j :: j !in left && Candidate(State(), playback, j) ==> found == Some(j)
        decreases left
      {
        var candidate :| candidate in left;
        left := left - {candidate};
        if candidate.playback == playback {
          if found.Some? {
            assert Candidate(State(), playback, candidate) && Candidate(State(), playback, found.value);
            return;
          }
          found := Some(candidate);
        }
      }
      if found.Some? { k := found.value; }
    }

    method Cancel(session: Id, playback: Id)
      requires Valid()
      modifies this
      ensures Valid() && sent == old(sent)
      ensures State() == Cancelled(old(State()), Resolve(old(State()), session, playback))
    {
      var k := BufferKey(session, playback);
      CancelLocked(k);
    }

    method CancelLocked(k: Key)
      requires Valid()
      modifies this
      ensures Valid() && sent == old(sent) && State() == Cancelled(old(State()), k)
    {
      buffers := buffers - {k};
      MarkSettled(k);
      if k in publishing { publishing := publishing[k := true]; }
    }

    /** Visits the session's buffers, then what it is publishing, in any order. */
    method InterruptCurrent(session: Id) returns (ghost ks: seq<Key>)
      requires Valid()
      modifies this
      ensures Valid() && sent == old(sent)
      ensures Visits(old(State()), session, ks)
      ensures State() == Interrupted(old(State()), session, ks)
    {
      ghost var dropped := DropBuffers(session);
      ghost var flagged := FlagShipments(session);
      ks := dropped + flagged;
      MarkAllAdd(old(settledOrder), dropped, flagged);
    }

    method DropBuffers(session: Id) returns (ghost ks: seq<Key>)
      requires Valid()
      modifies this
      ensures Valid() && sent == old(sent) && publishing == old(publishing)
      ensures buffers == map k | k in old(buffers) && k.session != session :: old(buffers)[k]
      ensures forall k :: k in ks <==> k in old(buffers) && k.session == session
      ensures settledOrder == MarkAll(old(settledOrder), ks)
    {
      ks := [];
      var left := buffers.Keys;
      while left != {}
        invariant Valid() && sent == old(sent) && publishing == old(publishing)
        invariant left <= old(buffers).Keys
        invariant forall k :: k in buffers <==> k in old(buffers) && (k in left || k.session != session)
        invariant forall k :: k in buffers ==> buffers[k] == old(buffers)[k]
        invariant forall k :: k in ks <==> k in old(buffers) && k !in left && k.session == session
        invariant settledOrder == MarkAll(old(settledOrder), ks)
        decreases left
      {
        var k :| k in left;
        left := left - {k};
        if k.session == session {
          buffers := buffers - {k};
          MarkOneMore(old(settledOrder), ks, k);
          MarkSettled(k);
          ks := ks + [k];
        }
      }
    }

    method FlagShipments(session: Id) returns (ghost ks: seq<Key>)
      requires Valid()
      modifies this
      ensures Valid() && sent == old(sent) && buffers == old(buffers)
      ensures publishing == map k | k in old(publishing) :: if k.session == session then true else old(publishing)[k]
      ensures forall k :: k in ks <==> k in old(publishing) && k.session == session
      ensures settledOrder == MarkAll(old(settledOrder), ks)
    {
      ks := [];
      var left := publishing.Keys;
      while left != {}
        invariant Valid() && sent == old(sent) && buffers == old(buffers)
        invariant left <= publishing.Keys == old(publishing).Keys
        invariant forall k :: k in publishing ==>
                    publishing[k] == if k !in left && k.session == session then true else old(publishing)[k]
        invariant forall k :: k in ks <==> k in old(publishing) && k !in left && k.session == session
        invariant settledOrder == MarkAll(old(settledOrder), ks)
        decreases left
      {
        var k :| k in left;
        left := left - {k};
        if k.session == session {
          publishing := publishing[k := true];
          MarkOneMore(old(settledOrder), ks, k);
          MarkSettled(k);
          ks := ks + [k];
        }
      }
    }

    /** Completing a playback: its audio goes out in pieces numbered from one, the last one marked, until
        the playback is cancelled or the data channel refuses a piece, and nothing of it stays behind.
        `accepted` is how many sends the channel accepts, and `cancelledAt` after how many pieces another
        caller cancels the playback. */
    method Complete(session: Id, playback: Id, accepted: nat, cancelledAt: nat) returns (ok: bool)
      requires Valid()
      modifies this
      ensures Valid()
      ensures
        var k := Resolve(old(State()), session, playback);
        var (begun, buffer) := Begun(old(State()), k);
        match buffer
        case None => State() == begun && sent == old(sent) && ok
        case Some(b) =>
          var pieces := Shipment(k, b.turn, NormalizeTTSAudio(b.pcm, b.encoding));
          var cancelled := cancelledAt < |pieces| && cancelledAt <= accepted;
          && State() == Finished(if cancelled then Cancelled(begun, k) else begun, k)
          && ok == (cancelled || |pieces| <= accepted)
          && sent == old(sent) + if cancelled then pieces[..cancelledAt] else if ok then pieces else pieces[..accepted]
    {
      var k := BufferKey(session, playback);
      if k in settled {
        buffers := buffers - {k};
        ReleaseSettled(k);
        return true;
      }
      var buf := if k in buffers then Some(buffers[k]) else None;
      buffers := buffers - {k};
      if buf.None? || |buf.value.pcm| == 0 { return true; }
      publishing := publishing[k := false];
      var audio := NormalizeTTSAudio(buf.value.pcm, buf.value.encoding);
      var pieces := SplitBytes(audio.data, MAX_PIECE);
      PiecesSplit(audio.data, MAX_PIECE);
      SplitUnique(pieces, Pieces(audio.data, MAX_PIECE), audio.data, MAX_PIECE);
      ghost var before := State();
      ok := true;
      var i := 0;
      while i < |pieces|
        invariant i <= |pieces| && i <= accepted && i <= cancelledAt && ok
        invariant Valid() && State() == before && k in publishing && !publishing[k]
        invariant sent == old(sent) + Shipment(k, buf.value.turn, audio)[..i]
      {
        if i == cancelledAt { CancelLocked(k); }
        if publishing[k] { break; }
        if i == accepted {
          ok := false;
          break;
        }
        sent := sent + [Sent(k, buf.value.turn, i + 1, i == |pieces| - 1, audio.encoding, pieces[i])];
        i := i + 1;
      }
      publishing := publishing - {k};
      ReleaseSettled(k);
    }
  }

  lemma {:induction false} MarkOneMore(order: seq<Key>, ks: seq<Key>, k: Key)
    ensures MarkAll(order, ks + [k]) == Mark(MarkAll(order, ks), k)
    decreases |ks|
  {
    if ks == [] {
      assert [] + [k] == [k];
    } else {
      assert (ks + [k])[1..] == ks[1..] + [k];
      MarkOneMore(Mark(order, ks[0]), ks[1..], k);
    }
  }

  lemma {:induction false} MarkAllAdd(order: seq<Key>, js: seq<Key>, ks: seq<Key>)
    ensures MarkAll(order, js + ks) == MarkAll(MarkAll(order, js), ks)
    decreases |js|
  {
    if js == [] {
      assert [] + ks == ks;
    } else {
      assert (js + ks)[1..] == js[1..] + ks;
      MarkAllAdd(Mark(order, js[0]), js[1..], ks);
    }
  }

  lemma {:induction false} ReleaseAt(order: seq<Key>, k: Key, i: nat)
    requires i < |order| && order[i] == k
    requires forall j :: 0 <= j < i ==> order[j] != k
    ensures Release(order, k) == order[..i] + order[i + 1..]
    decreases i
  {
    if i > 0 {
      assert forall j :: 0 <= j < i - 1 ==> order[1..][j] == order[j + 1];
      ReleaseAt(order[1..], k, i - 1);
      assert order[..i] == [order[0]] + order[1..][..i - 1];
      assert order[1..][i..] == order[i + 1..];
    }
  }

  lemma {:induction false} ReleaseNothing(order: seq<Key>, k: Key)
    requires k !in order
    ensures Release(order, k) == order
    decreases |order|
  {
    if order != [] {
      ReleaseNothing(order[1..], k);
    }
  }
}

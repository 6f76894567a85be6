/** Client-side read models that accept only observations newer than what they show: connections by
    version, runtimes by time, modes by generation and time; and never an identity they have left. */
module Observers {
  import opened Wrappers

  type Id = string

  type Time = int

  // `mark` is a connection's version or a mode's generation.
  datatype Snapshot = Snapshot(id: Id, mark: int, at: Time, body: Id)

  datatype Kind = ByVersion | ByTime | ByGeneration

  // `timed`: a new identity must also carry a later time. Only the mobile client's mode rule omits that.
  datatype Rule = Rule(kind: Kind, timed: bool)

  const CONNECTION := Rule(ByVersion, true)
  const RUNTIME := Rule(ByTime, true)
  const MODE := Rule(ByGeneration, true)
  const MOBILE_MODE := Rule(ByGeneration, false)

  predicate Newer(kind: Kind, a: Snapshot, b: Snapshot) {
    match kind
    case ByVersion => a.mark < b.mark
    case ByTime => a.at < b.at
    case ByGeneration => a.mark < b.mark || (a.mark == b.mark && a.at < b.at)
  }

  datatype Observer = Observer(current: Option<Snapshot>, retired: set<Id>)

  const Blind := Observer(None, {})

  predicate Accepts(o: Observer, rule: Rule, next: Snapshot) {
    o.current.Some? ==>
      var previous := o.current.value;
      if previous.id == next.id then Newer(rule.kind, previous, next)
      else next.id !in o.retired && (rule.timed ==> previous.at < next.at)
  }

  function Observe(o: Observer, rule: Rule, next: Snapshot): Observer {
    if !Accepts(o, rule, next) then o
    else
      Observer(Some(next),
               if o.current.Some? && o.current.value.id != next.id then o.retired + {o.current.value.id} else o.retired)
  }

  // ----- the device's store

  class StateStore {
    var connection: Option<Snapshot>
    var runtime: Option<Snapshot>
    var mode: Option<Snapshot>
    var retiredConnectIDs: set<Id>
    var retiredStartOps: set<Id>
    var retiredRuntimeIDs: set<Id>

    constructor ()
      ensures Observer(connection, retiredConnectIDs) == Blind
      ensures Observer(runtime, retiredStartOps) == Blind
      ensures Observer(mode, retiredRuntimeIDs) == Blind
    {
      connection, runtime, mode := None, None, None;
      retiredConnectIDs, retiredStartOps, retiredRuntimeIDs := {}, {}, {};
    }

    method ApplyConnection(next: Snapshot) returns (accepted: bool)
      modifies `connection, `retiredConnectIDs
      ensures accepted == (next.id != "" && Accepts(old(Observer(connection, retiredConnectIDs)), CONNECTION, next))
      ensures Observer(connection, retiredConnectIDs) ==
                if next.id != "" then Observe(old(Observer(connection, retiredConnectIDs)), CONNECTION, next)
                else old(Observer(connection, retiredConnectIDs))
    {
      if next.id == "" { return false; }
      if connection.Some? {
        var previous := connection.value;
        if previous.id == next.id {
          if next.mark <= previous.mark { return false; }
        } else {
          if next.id in retiredConnectIDs || next.at <= previous.at { return false; }
          retiredConnectIDs := retiredConnectIDs + {previous.id};
        }
      }
      connection := Some(next);
      return true;
    }

    method ApplyRuntime(next: Snapshot) returns (accepted: bool)
      modifies `runtime, `retiredStartOps
      ensures accepted == (next.id != "" && next.at != 0
                           && Accepts(old(Observer(runtime, retiredStartOps)), RUNTIME, next))
      ensures Observer(runtime, retiredStartOps) ==
                if next.id != "" && next.at != 0 then Observe(old(Observer(runtime, retiredStartOps)), RUNTIME, next)
                else old(Observer(runtime, retiredStartOps))
    {
      if next.id == "" || next.at == 0 { return false; }
      if runtime.Some? {
        var previous := runtime.value;
        if previous.id == next.id {
          if next.at <= previous.at { return false; }
        } else {
          if next.id in retiredStartOps || next.at <= previous.at { return false; }
          retiredStartOps := retiredStartOps + {previous.id};
        }
      }
      runtime := Some(next);
      return true;
    }

    method ApplyMode(next: Snapshot) returns (accepted: bool)
      modifies `mode, `retiredRuntimeIDs
      ensures accepted == (next.id != "" && next.mark >= 1 && next.at != 0
                           && Accepts(old(Observer(mode, retiredRuntimeIDs)), MODE, next))
      ensures Observer(mode, retiredRuntimeIDs) ==
                if next.id != "" && next.mark >= 1 && next.at != 0 then
                  Observe(old(Observer(mode, retiredRuntimeIDs)), MODE, next)
                else old(Observer(mode, retiredRuntimeIDs))
    {
      if next.id == "" || next.mark < 1 || next.at == 0 { return false; }
      if mode.Some? {
        var previous := mode.value;
        if previous.id == next.id {
          if next.mark < previous.mark || (next.mark == previous.mark && next.at <= previous.at) { return false; }
        } else {
          if next.id in retiredRuntimeIDs || next.at <= previous.at { return false; }
          retiredRuntimeIDs := retiredRuntimeIDs + {previous.id};
        }
      }
      mode := Some(next);
      return true;
    }
  }

  // ----- what an observer has shown

  /** The snapshots accepted out of a stream, in order. */
  function Shown(o: Observer, rule: Rule, stream: seq<Snapshot>): seq<Snapshot>
    decreases |stream|
  {
    if stream == [] then []
    else
      (if Accepts(o, rule, stream[0]) then [stream[0]] else []) + Shown(Observe(o, rule, stream[0]), rule, stream[1..])
  }

  function ObserveAll(o: Observer, rule: Rule, stream: seq<Snapshot>): Observer
    decreases |stream|
  {
    if stream == [] then o else ObserveAll(Observe(o, rule, stream[0]), rule, stream[1..])
  }

  /** Once an identity is left it never comes back. */
  ghost predicate Contiguous(h: seq<Snapshot>) {
    forall i, j, k :: 0 <= i <= j <= k < |h| && h[i].id == h[k].id ==> h[j].id == h[i].id
  }

  /** Each snapshot follows the one before it by the rule. */
  ghost predicate Ordered(rule: Rule, h: seq<Snapshot>) {
    forall i :: 0 <= i < |h| - 1 ==>
      if h[i].id == h[i + 1].id then Newer(rule.kind, h[i], h[i + 1]) else rule.timed ==> h[i].at < h[i + 1].at
  }

  ghost predicate Traces(o: Observer, h: seq<Snapshot>) {
    && (o.current.None? <==> h == [])
    && (h != [] ==> o.current == Some(h[|h| - 1]))
    && (forall id :: id in o.retired <==> exists i :: 0 <= i < |h| && h[i].id == id && id != h[|h| - 1].id)
  }

  ghost predicate Sound(o: Observer, rule: Rule, h: seq<Snapshot>) {
    Contiguous(h) && Ordered(rule, h) && Traces(o, h)
  }

  lemma OneMore(o: Observer, rule: Rule, h: seq<Snapshot>, next: Snapshot)
    requires Sound(o, rule, h) && Accepts(o, rule, next)
    ensures Sound(Observe(o, rule, next), rule, h + [next])
  {
    var more := h + [next];
    var after := Observe(o, rule, next);
    if h != [] && h[|h| - 1].id != next.id {
      forall i | 0 <= i < |h| ensures h[i].id != next.id {
        assert h[i].id != h[|h| - 1].id ==> h[i].id in o.retired;
      }
    }
    forall id ensures id in after.retired <==> exists i :: 0 <= i < |more| && more[i].id == id && id != next.id {
      if id in after.retired {
        if id in o.retired {
          var i :| 0 <= i < |h| && h[i].id == id && id != h[|h| - 1].id;
          assert more[i].id == id;
        } else {
          assert more[|h| - 1].id == id;
        }
      }
    }
  }

  lemma {:induction false} StaysSound(o: Observer, rule: Rule, h: seq<Snapshot>, stream: seq<Snapshot>)
    requires Sound(o, rule, h)
    ensures Sound(ObserveAll(o, rule, stream), rule, h + Shown(o, rule, stream))
    decreases |stream|
  {
    hide Sound, Accepts, Observe;
    if stream == [] {
      assert h + [] == h;
    } else {
      var shown := Shown(Observe(o, rule, stream[0]), rule, stream[1..]);
      if Accepts(o, rule, stream[0]) {
        OneMore(o, rule, h, stream[0]);
        StaysSound(Observe(o, rule, stream[0]), rule, h + [stream[0]], stream[1..]);
        assert h + ([stream[0]] + shown) == (h + [stream[0]]) + shown;
      } else {
        Ignored(o, rule, stream[0]);
        StaysSound(o, rule, h, stream[1..]);
        assert [] + shown == shown;
      }
    }
  }

  lemma Ignored(o: Observer, rule: Rule, next: Snapshot)
    ensures !Accepts(o, rule, next) ==> Observe(o, rule, next) == o
  {
  }

  // ----- the guarantees

  /** Whatever arrives, in whatever order: what was shown visits each identity in one contiguous stretch,
      strictly newer from one snapshot to the next; the identity shown now was never left before. */
  lemma NeverRegresses(rule: Rule, stream: seq<Snapshot>)
    ensures
      var h := Shown(Blind, rule, stream);
      var o := ObserveAll(Blind, rule, stream);
      && Contiguous(h) && Ordered(rule, h)
      && (o.current.Some? ==> o.current.value.id !in o.retired && h != [] && o.current.value == h[|h| - 1])
  {
    hide Shown, ObserveAll;
    ShownIsSound(rule, stream);
    var h := Shown(Blind, rule, stream);
    var o := ObserveAll(Blind, rule, stream);
    if o.current.Some? {
      hide Contiguous, Ordered;
      assert o.current.value == h[|h| - 1];
      assert o.current.value.id !in o.retired;
    }
  }

  lemma ShownIsSound(rule: Rule, stream: seq<Snapshot>)
    ensures Sound(ObserveAll(Blind, rule, stream), rule, Shown(Blind, rule, stream))
  {
    BlindIsSound(rule);
    hide Shown, ObserveAll, Sound;
    StaysSound(Blind, rule, [], stream);
    assert [] + Shown(Blind, rule, stream) == Shown(Blind, rule, stream);
  }

  lemma BlindIsSound(rule: Rule)
    ensures Sound(Blind, rule, [])
  {
  }

  /** Within its stretch an identity only gets newer, over any distance. */
  lemma {:induction false} NewerOverAnyDistance(rule: Rule, h: seq<Snapshot>, i: nat, j: nat)
    requires Contiguous(h) && Ordered(rule, h)
    requires i < j < |h| && h[i].id == h[j].id
    ensures Newer(rule.kind, h[i], h[j])
    decreases j - i
  {
    if i + 1 < j {
      assert h[j - 1].id == h[i].id;
      NewerOverAnyDistance(rule, h, i, j - 1);
      assert h[j - 1].id == h[j].id;
    }
  }

  /** What a runtime display shows only ever moves forward in time, across all its start operations. */
  lemma {:induction false} RuntimeTimeIncreases(h: seq<Snapshot>, i: nat, j: nat)
    requires Ordered(RUNTIME, h)
    requires i < j < |h|
    ensures h[i].at < h[j].at
    decreases j - i
  {
    if i + 1 < j {
      RuntimeTimeIncreases(h, i, j - 1);
    }
    assert h[j - 1].at < h[(j - 1) + 1].at;
  }

  /** A new identity is later than the last snapshot before it, in every store of the device. */
  lemma BoundaryIsLater(stream: seq<Snapshot>, rule: Rule, i: nat)
    requires rule.timed
    requires i + 1 < |Shown(Blind, rule, stream)|
    requires Shown(Blind, rule, stream)[i].id != Shown(Blind, rule, stream)[i + 1].id
    ensures Shown(Blind, rule, stream)[i].at < Shown(Blind, rule, stream)[i + 1].at
  {
    NeverRegresses(rule, stream);
  }

  // ----- time across identities

  /** Of two snapshots of different identities the one shown later is later. */
  ghost predicate TimeOrdered(h: seq<Snapshot>) {
    forall i, j :: 0 <= i < j < |h| && h[i].id != h[j].id ==> h[i].at < h[j].at
  }

  /** Time never goes back from one snapshot of an identity to the next. */
  ghost predicate NoStepBack(h: seq<Snapshot>) {
    forall i :: 0 <= i < |h| - 1 && h[i].id == h[i + 1].id ==> h[i].at <= h[i + 1].at
  }

  /** Exactly how an accepted connection or mode can fail to be later than the one shown: its identity is
      the same, and its version or generation is newer. */
  lemma StepsBackIff(o: Observer, rule: Rule, next: Snapshot)
    requires rule.timed && o.current.Some? && next.at <= o.current.value.at
    ensures Accepts(o, rule, next) <==>
              rule.kind != ByTime && next.id == o.current.value.id && o.current.value.mark < next.mark
  {
  }

  /** Where times do not go back within an identity, they go forward across identities, over any distance. */
  lemma {:induction false} TimeOrderAcrossIdentities(rule: Rule, h: seq<Snapshot>, i: nat, j: nat)
    requires rule.timed && Ordered(rule, h) && NoStepBack(h)
    requires i < j < |h|
    ensures h[i].at <= h[j].at
    ensures h[i].id != h[j].id ==> h[i].at < h[j].at
    decreases j - i
  {
    assert if h[j - 1].id == h[(j - 1) + 1].id then h[j - 1].at <= h[j].at else h[j - 1].at < h[j].at;
    if i + 1 < j {
      TimeOrderAcrossIdentities(rule, h, i, j - 1);
    }
  }

  lemma SteadyStreamsAreOrdered(rule: Rule, stream: seq<Snapshot>)
    requires rule.timed && NoStepBack(Shown(Blind, rule, stream))
    ensures TimeOrdered(Shown(Blind, rule, stream))
  {
    hide Shown;
    NeverRegresses(rule, stream);
    var h := Shown(Blind, rule, stream);
    forall i: nat, j: nat | i < j < |h| && h[i].id != h[j].id ensures h[i].at < h[j].at {
      TimeOrderAcrossIdentities(rule, h, i, j);
    }
  }

  /** The latest time shown of any identity but `id`. */
  function Floor(h: seq<Snapshot>, id: Id): Option<Time>
    decreases |h|
  {
    if h == [] then None
    else
      var x := h[|h| - 1];
      var before := Floor(h[..|h| - 1], id);
      if x.id == id || (before.Some? && x.at <= before.value) then before else Some(x.at)
  }

  predicate AboveFloor(h: seq<Snapshot>, next: Snapshot) {
    Floor(h, next.id).Some? ==> Floor(h, next.id).value < next.at
  }

  lemma {:induction false} FloorIsLatest(h: seq<Snapshot>, next: Snapshot)
    ensures AboveFloor(h, next) <==> forall i :: 0 <= i < |h| && h[i].id != next.id ==> h[i].at < next.at
    decreases |h|
  {
    if h != [] {
      var before := h[..|h| - 1];
      FloorIsLatest(before, next);
      assert forall i :: 0 <= i < |before| ==> h[i] == before[i];
      assert (forall i :: 0 <= i < |h| && h[i].id != next.id ==> h[i].at < next.at) <==>
             && (forall i :: 0 <= i < |before| && before[i].id != next.id ==> before[i].at < next.at)
             && (h[|h| - 1].id != next.id ==> h[|h| - 1].at < next.at);
    }
  }

  /** What is shown stays in time order across identities exactly when each snapshot taken is later than all
      those shown of other identities. A caller can check that against the floor before it applies one. */
  lemma TimeOrderedIff(h: seq<Snapshot>)
    ensures TimeOrdered(h) <==> forall k :: 0 <= k < |h| ==> AboveFloor(h[..k], h[k])
  {
    hide AboveFloor;
    forall k | 0 <= k < |h|
      ensures AboveFloor(h[..k], h[k]) <==> forall i :: 0 <= i < k && h[i].id != h[k].id ==> h[i].at < h[k].at
    {
      FloorIsLatest(h[..k], h[k]);
      assert forall i :: 0 <= i < k ==> h[..k][i] == h[i];
    }
  }

  /** A new snapshot keeps the order exactly when it is above the floor. */
  lemma OneMoreOrderedIff(h: seq<Snapshot>, next: Snapshot)
    requires TimeOrdered(h)
    ensures TimeOrdered(h + [next]) <==> AboveFloor(h, next)
  {
    FloorIsLatest(h, next);
    hide AboveFloor;
    var more := h + [next];
    if TimeOrdered(more) {
      forall i | 0 <= i < |h| && h[i].id != next.id ensures h[i].at < next.at {
        assert more[i] == h[i] && more[|h|] == next;
      }
    }
  }

  /** Two snapshots of one identity of which the newer is earlier, and another identity in between. */
  lemma TimeMayDrop(rule: Rule)
    requires !rule.timed || rule.kind != ByTime
    ensures exists stream :: !TimeOrdered(Shown(Blind, rule, stream))
  {
    var a, b, c := Snapshot("a", 1, 10, ""), Snapshot("a", 2, 3, ""), Snapshot("b", 1, 5, "");
    var rest := if rule.kind == ByTime then [c] else [b, c];
    var stream := [a] + rest;
    assert stream[1..] == rest && [b, c][1..] == [c] && [c][1..] == [];
    var o1 := Observe(Blind, rule, a);
    var o2 := Observe(o1, rule, b);
    assert Shown(o1, rule, [c]) == (if Accepts(o1, rule, c) then [c] else []) + [];
    assert Shown(o2, rule, [c]) == [c] + [];
    assert Shown(o1, rule, [b, c]) == if rule.kind == ByTime then Shown(o1, rule, [c]) else [b] + ([c] + []);
    var h := Shown(Blind, rule, stream);
    assert h == [a] + Shown(o1, rule, rest);
    assert h[0] == a && h[|h| - 1] == c;
  }

  /** Of all rules only the runtimes' keeps time in order across identities on every stream; connections
      and modes, on the device as on the phone, do not. */
  lemma AlwaysOrderedIff(rule: Rule)
    ensures (forall stream :: TimeOrdered(Shown(Blind, rule, stream))) <==> rule == RUNTIME
  {
    hide Shown, TimeOrdered;
    if rule == RUNTIME {
      forall stream ensures TimeOrdered(Shown(Blind, rule, stream)) {
        RuntimesAreOrdered(stream);
      }
    } else {
      TimeMayDrop(rule);
    }
  }

  lemma RuntimesAreOrdered(stream: seq<Snapshot>)
    ensures TimeOrdered(Shown(Blind, RUNTIME, stream))
  {
    hide Shown;
    NeverRegresses(RUNTIME, stream);
    var h := Shown(Blind, RUNTIME, stream);
    forall i: nat, j: nat | i < j < |h| ensures h[i].at < h[j].at {
      RuntimeTimeIncreases(h, i, j);
    }
  }

  /** The mobile client's mode rule has no time check between runtimes: a runtime not seen before may be
      older than the one shown, so only identity, and not time, is safe across runtimes there. */
  lemma MobileModeTimeMayDrop(o: Observer, next: Snapshot)
    requires o.current.Some? && o.current.value.id != next.id && next.id !in o.retired
    requires next.at <= o.current.value.at
    ensures Observe(o, MOBILE_MODE, next).current == Some(next)
    ensures Observe(o, MODE, next) == o
  {
  }

  /** An observation is taken exactly when it is newer in its own identity, or of an identity never left. */
  lemma TakenIff(stream: seq<Snapshot>, rule: Rule, next: Snapshot)
    ensures
      var h := Shown(Blind, rule, stream);
      var o := ObserveAll(Blind, rule, stream);
      Observe(o, rule, next).current == Some(next) && (h == [] || next != h[|h| - 1]) <==>
        || h == []
        || (h[|h| - 1].id == next.id && Newer(rule.kind, h[|h| - 1], next))
        || ((forall i :: 0 <= i < |h| ==> h[i].id != next.id) && (rule.timed ==> h[|h| - 1].at < next.at))
  {
    hide Shown, ObserveAll, Contiguous, Ordered;
    ShownIsSound(rule, stream);
    var h := Shown(Blind, rule, stream);
    var o := ObserveAll(Blind, rule, stream);
    if h != [] && h[|h| - 1].id != next.id {
      assert next.id in o.retired <==> exists i :: 0 <= i < |h| && h[i].id == next.id;
    }
  }
}

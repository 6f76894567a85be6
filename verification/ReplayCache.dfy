/** The single-flight replay cache of the control plane: one record per idempotency key, running until its
    owner finishes, then kept until it expires; bounded in total and per session by running counters. */
module ReplayCache {
  import opened Wrappers

  type Id = string

  type Time = int

  datatype Outcome = Value(body: Id) | Failure(error: Id)

  // Records are told apart by `id`, as by their addresses. No expiry: the operation is still running.
  datatype Record = Record(id: nat, session: Id, hash: Id, expiresAt: Option<Time>)

  datatype Error = PayloadConflict | Capacity

  datatype Limits = Limits(total: nat, perSession: nat, ttl: nat)

  // ----- the map as a value

  predicate Expired(record: Record, now: Time) {
    record.expiresAt.Some? && record.expiresAt.value <= now
  }

  function Purged(replays: map<Id, Record>, now: Time): map<Id, Record> {
    map k | k in replays && !Expired(replays[k], now) :: replays[k]
  }

  ghost function KeysOf(replays: map<Id, Record>, session: Id): set<Id> {
    set k | k in replays && replays[k].session == session
  }

  ghost predicate Fits(replays: map<Id, Record>, limits: Limits) {
    |replays| <= limits.total && forall s :: |KeysOf(replays, s)| <= limits.perSession
  }

  datatype Reservation = Run(record: Record) | Wait(record: Record)

  /** What reserving `key` at `now` does: wait for the record that is there, or run a new one. */
  ghost function Reserved(replays: map<Id, Record>, limits: Limits, session: Id, key: Id, hash: Id, now: Time, id: nat)
    : (map<Id, Record>, Result<Reservation, Error>)
  {
    if key in replays && !Expired(replays[key], now) then
      (replays, if replays[key].hash != hash then Err(PayloadConflict) else Ok(Wait(replays[key])))
    else
      var rest := Purged(replays, now);
      if |rest| >= limits.total || |KeysOf(rest, session)| >= limits.perSession then (rest, Err(Capacity))
      else
        var record := Record(id, session, hash, None);
        (rest[key := record], Ok(Run(record)))
  }

  function Removed(replays: map<Id, Record>, key: Id, id: nat): map<Id, Record> {
    if key in replays && replays[key].id == id then replays - {key} else replays
  }

  // ----- the cache with its counters, updated in place

  class Cache {
    const limits: Limits
    var replays: map<Id, Record>
    var replayEntriesBySession: map<Id, nat>

    /** The counters are the true counts, and sessions without entries have no counter. */
    ghost predicate Valid()
      reads this
    {
      && (forall s :: s in replayEntriesBySession ==>
            replayEntriesBySession[s] > 0 && replayEntriesBySession[s] == |KeysOf(replays, s)|)
      && (forall k :: k in replays ==> replays[k].session in replayEntriesBySession)
    }

    ghost predicate Bounded()
      reads this
    {
      Fits(replays, limits)
    }

    constructor (limits: Limits)
      ensures Valid() && Bounded() && replays == map[] && this.limits == limits
    {
      this.limits := limits;
      replays, replayEntriesBySession := map[], map[];
      new;
      assert forall s :: KeysOf(replays, s) == {};
    }

    /** Removes the entry of `key`, if it still is the expected record, and its share of the counter. */
    method RemoveReplay(key: Id, expected: nat)
      requires Valid()
      modifies this
      ensures Valid()
      ensures replays == Removed(old(replays), key, expected)
    {
      if key !in replays || replays[key].id != expected { return; }
      var session := replays[key].session;
      ghost var before := replays;
      replays := replays - {key};
      KeysAfterRemoval(before, key);
      if replayEntriesBySession[session] - 1 > 0 {
        replayEntriesBySession := replayEntriesBySession[session := replayEntriesBySession[session] - 1];
      } else {
        replayEntriesBySession := replayEntriesBySession - {session};
        assert KeysOf(replays, session) == {};
      }
      assert forall k :: k in replays && replays[k].session == session ==> k in KeysOf(replays, session);
    }

    /** Visits every entry, in any order, and removes those that have expired. */
    method PurgeExpired(now: Time)
      requires Valid()
      modifies this
      ensures Valid()
      ensures replays == Purged(old(replays), now)
    {
      var left := replays.Keys;
      while left != {}
        invariant Valid()
        invariant left <= replays.Keys <= old(replays).Keys
        invariant forall k :: k in replays ==> replays[k] == old(replays)[k]
        invariant forall k :: k in old(replays) && k !in left ==> (k in replays <==> !Expired(old(replays)[k], now))
        decreases left
      {
        var key :| key in left;
        left := left - {key};
        if Expired(replays[key], now) {
          RemoveReplay(key, replays[key].id);
        }
      }
      assert replays == Purged(old(replays), now);
    }

    method Reserve(session: Id, key: Id, hash: Id, now: Time, id: nat) returns (r: Result<Reservation, Error>)
      requires Valid()
      modifies this
      ensures Valid()
      ensures (replays, r) == Reserved(old(replays), limits, session, key, hash, now, id)
      ensures old(Bounded()) ==> Bounded()
    {
      ghost var before := replays;
      ReservedFits(before, limits, session, key, hash, now, id);
      hide Fits;
      if key in replays {
        var previous := replays[key];
        if Expired(previous, now) {
          RemoveReplay(key, previous.id);
          assert Purged(replays, now) == Purged(before, now);
        } else {
          return if previous.hash != hash then Err(PayloadConflict) else Ok(Wait(previous));
        }
      }
      PurgeExpired(now);
      assert replays == Purged(before, now);
      var count := CountOf(session);
      if |replays| >= limits.total || count >= limits.perSession { return Err(Capacity); }
      var record := Record(id, session, hash, None);
      Insert(key, record, count);
      return Ok(Run(record));
    }

    method CountOf(session: Id) returns (count: nat)
      requires Valid()
      ensures count == |KeysOf(replays, session)|
    {
      if session in replayEntriesBySession { return replayEntriesBySession[session]; }
      assert KeysOf(replays, session) == {};
      return 0;
    }

    method Insert(key: Id, record: Record, count: nat)
      requires Valid() && key !in replays && count == |KeysOf(replays, record.session)|
      modifies this
      ensures Valid() && replays == old(replays)[key := record]
    {
      OneMoreKey(replays, key, record);
      hide KeysOf;
      replays := replays[key := record];
      replayEntriesBySession := replayEntriesBySession[record.session := count + 1];
    }

    /** The owner's last section: a failure frees the key at once, a success keeps it until it expires. */
    method Finish(key: Id, record: Record, outcome: Outcome, now: Time)
      requires Valid()
      requires key in replays && replays[key] == record
      modifies this
      ensures Valid()
      ensures replays == if outcome.Failure? then Removed(old(replays), key, record.id)
                         else old(replays)[key := record.(expiresAt := Some(now + limits.ttl))]
    {
      if outcome.Failure? {
        RemoveReplay(key, record.id);
      } else {
        ghost var before := replays;
        replays := replays[key := record.(expiresAt := Some(now + limits.ttl))];
        assert forall s :: KeysOf(replays, s) == KeysOf(before, s);
      }
    }
  }

  lemma KeysAfterRemoval(replays: map<Id, Record>, key: Id)
    requires key in replays
    ensures forall s :: KeysOf(replays - {key}, s) ==
              if s == replays[key].session then KeysOf(replays, s) - {key} else KeysOf(replays, s)
    ensures key in KeysOf(replays, replays[key].session)
  {
  }

  lemma OneMoreKey(replays: map<Id, Record>, key: Id, record: Record)
    requires key !in replays
    ensures forall s ::
              |KeysOf(replays[key := record], s)| == |KeysOf(replays, s)| + if s == record.session then 1 else 0
  {
    KeysAfterInsertion(replays, key, record);
    assert key !in KeysOf(replays, record.session);
  }

  lemma KeysAfterInsertion(replays: map<Id, Record>, key: Id, record: Record)
    requires key !in replays
    ensures forall s :: KeysOf(replays[key := record], s) ==
              if s == record.session then KeysOf(replays, s) + {key} else KeysOf(replays, s)
    ensures |replays[key := record]| == |replays| + 1
  {
    assert replays[key := record].Keys == replays.Keys + {key};
  }

  lemma PurgedIsSmaller(replays: map<Id, Record>, now: Time)
    ensures |Purged(replays, now)| <= |replays|
    ensures forall s :: |KeysOf(Purged(replays, now), s)| <= |KeysOf(replays, s)|
  {
    SubsetIsSmaller(Purged(replays, now).Keys, replays.Keys);
    forall s ensures |KeysOf(Purged(replays, now), s)| <= |KeysOf(replays, s)| {
      SubsetIsSmaller(KeysOf(Purged(replays, now), s), KeysOf(replays, s));
    }
  }

  lemma {:induction false} SubsetIsSmaller(a: set<Id>, b: set<Id>)
    requires a <= b
    ensures |a| <= |b|
  {
    if a != {} {
      var x :| x in a;
      SubsetIsSmaller(a - {x}, b - {x});
    }
  }

  // ----- requests that share the cache

  datatype Phase = Owner(record: nat) | Waiter(record: nat) | Answered(record: nat, outcome: Outcome) | Rejected

  datatype Request = Request(session: Id, key: Id, hash: Id, phase: Phase)

  // What is known of every record ever made.
  datatype Made = Made(key: Id, hash: Id)

  datatype Settled = Settled(outcome: Outcome, expiresAt: Time)

  datatype World = World(
    replays: map<Id, Record>, requests: map<nat, Request>, made: map<nat, Made>, settled: map<nat, Settled>,
    ids: nat, now: Time)

  // A request reads the clock before it takes the mutex, so its reading may lag behind.
  datatype Step =
    | Arrive(r: nat, session: Id, key: Id, hash: Id, lag: nat)
    | Finish(r: nat, outcome: Outcome)
    | Wake(r: nat)
    | Cancel(r: nat)
    | Pass(elapsed: nat)

  /** Steps that are not enabled change nothing. */
  ghost function Next(x: World, limits: Limits, step: Step): World {
    match step
    case Arrive(r, session, key, hash, lag) =>
      if r in x.requests then x
      else
        var (replays, reply) := Reserved(x.replays, limits, session, key, hash, x.now - lag, x.ids);
        var (p, made) :=
          match reply
          case Err(_) => (Rejected, x.made)
          case Ok(Run(record)) => (Owner(record.id), x.made[record.id := Made(key, hash)])
          case Ok(Wait(record)) => (Waiter(record.id), x.made);
        x.(replays := replays, requests := x.requests[r := Request(session, key, hash, p)], made := made,
           ids := x.ids + 1)
    case Finish(r, outcome) =>
      if r in x.requests && x.requests[r].phase.Owner? then
        var q := x.requests[r];
        var id := q.phase.record;
        x.(replays := if outcome.Failure? then Removed(x.replays, q.key, id)
                      else if q.key in x.replays && x.replays[q.key].id == id then
                        x.replays[q.key := x.replays[q.key].(expiresAt := Some(x.now + limits.ttl))]
                      else x.replays,
           requests := x.requests[r := q.(phase := Answered(id, outcome))],
           settled := x.settled[id := Settled(outcome, x.now + limits.ttl)])
      else x
    case Wake(r) =>
      if r in x.requests && x.requests[r].phase.Waiter? && x.requests[r].phase.record in x.settled then
        var id := x.requests[r].phase.record;
        x.(requests := x.requests[r := x.requests[r].(phase := Answered(id, x.settled[id].outcome))])
      else x
    case Cancel(r) =>
      if r in x.requests && x.requests[r].phase.Waiter? then
        x.(requests := x.requests[r := x.requests[r].(phase := Rejected)])
      else x
    case Pass(d) => x.(now := x.now + d)
  }

  ghost function RunWorld(x: World, limits: Limits, steps: seq<Step>): World
    decreases |steps|
  {
    if steps == [] then x else RunWorld(Next(x, limits, steps[0]), limits, steps[1..])
  }

  const Start := World(map[], map[], map[], map[], 0, 0)

  // ----- the invariant

  ghost predicate RecordsKnown(x: World) {
    && (forall k :: k in x.replays ==>
          x.replays[k].id in x.made && x.made[x.replays[k].id] == Made(k, x.replays[k].hash))
    && (forall id :: id in x.made ==> id < x.ids)
    && (forall id :: id in x.settled ==> id in x.made)
    && (forall k :: k in x.replays ==>
          (x.replays[k].expiresAt.None? <==> x.replays[k].id !in x.settled))
  }

  /** A record that has not been settled, or was settled with a value that is still fresh, is in the map. */
  ghost predicate KeptWhileValid(x: World) {
    && (forall id :: id in x.made && id !in x.settled ==>
          x.made[id].key in x.replays && x.replays[x.made[id].key].id == id)
    && (forall id ::
          (id in x.made && id in x.settled && x.settled[id].outcome.Value? && x.now < x.settled[id].expiresAt) ==>
          && x.made[id].key in x.replays && x.replays[x.made[id].key].id == id
          && x.replays[x.made[id].key].expiresAt == Some(x.settled[id].expiresAt))
  }

  ghost predicate RequestsKnow(x: World) {
    && (forall r :: r in x.requests && !x.requests[r].phase.Rejected? ==>
          && x.requests[r].phase.record in x.made
          && x.made[x.requests[r].phase.record] == Made(x.requests[r].key, x.requests[r].hash))
    && (forall r :: r in x.requests && x.requests[r].phase.Owner? ==> x.requests[r].phase.record !in x.settled)
    && (forall r, q ::
          (&& r in x.requests && q in x.requests && x.requests[r].phase.Owner? && x.requests[q].phase.Owner?
           && x.requests[r].phase.record == x.requests[q].phase.record)
          ==> r == q)
    && (forall r :: r in x.requests && x.requests[r].phase.Answered? ==>
          && x.requests[r].phase.record in x.settled
          && x.settled[x.requests[r].phase.record].outcome == x.requests[r].phase.outcome)
  }

  ghost predicate Inv(x: World, limits: Limits) {
    RecordsKnown(x) && KeptWhileValid(x) && RequestsKnow(x) && Fits(x.replays, limits)
  }

  lemma ReservedFits(replays: map<Id, Record>, limits: Limits, session: Id, key: Id, hash: Id, now: Time, id: nat)
    ensures Fits(replays, limits) ==> Fits(Reserved(replays, limits, session, key, hash, now, id).0, limits)
  {
    if Fits(replays, limits) && !(key in replays && !Expired(replays[key], now)) {
      PurgedFits(replays, limits, now);
      hide KeysOf, Purged;
      var rest := Purged(replays, now);
      if |rest| < limits.total && |KeysOf(rest, session)| < limits.perSession {
        PurgedLacks(replays, key, now);
        InsertionFits(rest, limits, key, Record(id, session, hash, None));
      }
    }
  }

  lemma PurgedFits(replays: map<Id, Record>, limits: Limits, now: Time)
    requires Fits(replays, limits)
    ensures Fits(Purged(replays, now), limits)
  {
    PurgedIsSmaller(replays, now);
    hide KeysOf, Purged;
  }

  lemma PurgedLacks(replays: map<Id, Record>, key: Id, now: Time)
    requires key !in replays || Expired(replays[key], now)
    ensures key !in Purged(replays, now)
  {
  }

  lemma InsertionFits(replays: map<Id, Record>, limits: Limits, key: Id, record: Record)
    requires Fits(replays, limits) && key !in replays
    requires |replays| < limits.total && |KeysOf(replays, record.session)| < limits.perSession
    ensures Fits(replays[key := record], limits)
  {
    KeysAfterInsertion(replays, key, record);
    hide KeysOf;
    var after := replays[key := record];
    forall s ensures |KeysOf(after, s)| <= limits.perSession {
      assert |KeysOf(replays, s)| <= limits.perSession;
    }
  }

  /** A reservation keeps every entry that has not expired and adds at most its own. */
  lemma ReservedFacts(replays: map<Id, Record>, limits: Limits, session: Id, key: Id, hash: Id, now: Time, id: nat)
    ensures
      var (after, reply) := Reserved(replays, limits, session, key, hash, now, id);
      && (forall k :: k in replays && !Expired(replays[k], now) ==> k in after && after[k] == replays[k])
      && (forall k :: k in after ==>
            || (k in replays && after[k] == replays[k])
            || (k == key && reply.Ok? && reply.value.Run? && after[k] == reply.value.record))
      && (reply.Ok? && reply.value.Run? ==>
            && reply.value.record == Record(id, session, hash, None)
            && key in after && after[key] == reply.value.record
            && (key in replays ==> Expired(replays[key], now)))
      && (reply.Ok? && reply.value.Wait? ==>
            key in replays && reply.value.record == replays[key] && replays[key].hash == hash && after == replays)
  {
  }

  lemma ArriveKnown(x: World, limits: Limits, r: nat, session: Id, key: Id, hash: Id, lag: nat)
    requires RecordsKnown(x)
    ensures RecordsKnown(Next(x, limits, Arrive(r, session, key, hash, lag)))
  {
    ReservedFacts(x.replays, limits, session, key, hash, x.now - lag, x.ids);
    hide Reserved;
  }

  lemma ArriveKept(x: World, limits: Limits, r: nat, session: Id, key: Id, hash: Id, lag: nat)
    requires RecordsKnown(x) && KeptWhileValid(x)
    ensures KeptWhileValid(Next(x, limits, Arrive(r, session, key, hash, lag)))
  {
    ReservedFacts(x.replays, limits, session, key, hash, x.now - lag, x.ids);
    hide Reserved;
  }

  lemma ArriveRequests(x: World, limits: Limits, r: nat, session: Id, key: Id, hash: Id, lag: nat)
    requires RecordsKnown(x) && RequestsKnow(x)
    ensures RequestsKnow(Next(x, limits, Arrive(r, session, key, hash, lag)))
  {
    ReservedFacts(x.replays, limits, session, key, hash, x.now - lag, x.ids);
    hide Reserved;
  }

  lemma ArriveKeeps(x: World, limits: Limits, r: nat, session: Id, key: Id, hash: Id, lag: nat)
    requires Inv(x, limits)
    ensures Inv(Next(x, limits, Arrive(r, session, key, hash, lag)), limits)
  {
    hide RecordsKnown, KeptWhileValid, RequestsKnow, Fits, Reserved;
    ReservedFits(x.replays, limits, session, key, hash, x.now - lag, x.ids);
    ArriveKnown(x, limits, r, session, key, hash, lag);
    ArriveKept(x, limits, r, session, key, hash, lag);
    ArriveRequests(x, limits, r, session, key, hash, lag);
  }

  lemma RemovalFits(replays: map<Id, Record>, limits: Limits, key: Id)
    requires Fits(replays, limits) && key in replays
    ensures Fits(replays - {key}, limits)
  {
    SubsetIsSmaller((replays - {key}).Keys, replays.Keys);
    KeysAfterRemoval(replays, key);
    hide KeysOf;
    var after := replays - {key};
    forall s ensures |KeysOf(after, s)| <= limits.perSession {
      assert |KeysOf(replays, s)| <= limits.perSession;
    }
  }

  lemma RenewalFits(replays: map<Id, Record>, limits: Limits, key: Id, record: Record)
    requires Fits(replays, limits) && key in replays && record.session == replays[key].session
    ensures Fits(replays[key := record], limits)
  {
    var after := replays[key := record];
    assert after.Keys == replays.Keys;
    forall s ensures KeysOf(after, s) == KeysOf(replays, s) {
    }
    hide KeysOf;
  }

  lemma FinishKnown(x: World, limits: Limits, r: nat, outcome: Outcome)
    requires RecordsKnown(x) && KeptWhileValid(x) && RequestsKnow(x)
    ensures RecordsKnown(Next(x, limits, Finish(r, outcome)))
  {
    if r in x.requests && x.requests[r].phase.Owner? {
      OwnerHolds(x, r);
      assert x.requests[r].phase.record in x.made;
    }
    hide KeptWhileValid, RequestsKnow;
  }

  lemma OwnersRecord(x: World, r: nat)
    requires RequestsKnow(x) && r in x.requests && x.requests[r].phase.Owner?
    ensures
      var id := x.requests[r].phase.record;
      id in x.made && x.made[id].key == x.requests[r].key && id !in x.settled
  {
  }

  lemma FinishKept(x: World, limits: Limits, r: nat, outcome: Outcome)
    requires RecordsKnown(x) && KeptWhileValid(x) && RequestsKnow(x)
    ensures KeptWhileValid(Next(x, limits, Finish(r, outcome)))
  {
    hide RequestsKnow;
    if r in x.requests && x.requests[r].phase.Owner? {
      OwnersRecord(x, r);
    }
  }

  lemma FinishRequests(x: World, limits: Limits, r: nat, outcome: Outcome)
    requires RequestsKnow(x)
    ensures RequestsKnow(Next(x, limits, Finish(r, outcome)))
  {
  }

  lemma OwnerHolds(x: World, r: nat)
    requires KeptWhileValid(x) && RequestsKnow(x)
    requires r in x.requests && x.requests[r].phase.Owner?
    ensures x.requests[r].key in x.replays && x.replays[x.requests[r].key].id == x.requests[r].phase.record
  {
  }

  lemma FinishKeeps(x: World, limits: Limits, r: nat, outcome: Outcome)
    requires Inv(x, limits)
    ensures Inv(Next(x, limits, Finish(r, outcome)), limits)
  {
    hide RecordsKnown, KeptWhileValid, RequestsKnow, Fits;
    FinishKnown(x, limits, r, outcome);
    FinishKept(x, limits, r, outcome);
    FinishRequests(x, limits, r, outcome);
    if r in x.requests && x.requests[r].phase.Owner? {
      var q := x.requests[r];
      OwnerHolds(x, r);
      RemovalFits(x.replays, limits, q.key);
      RenewalFits(x.replays, limits, q.key, x.replays[q.key].(expiresAt := Some(x.now + limits.ttl)));
    }
  }

  lemma QuietRecords(x: World, limits: Limits, step: Step)
    requires RecordsKnown(x) && KeptWhileValid(x)
    requires step.Wake? || step.Cancel? || step.Pass?
    ensures RecordsKnown(Next(x, limits, step)) && KeptWhileValid(Next(x, limits, step))
  {
  }

  lemma QuietRequests(x: World, limits: Limits, step: Step)
    requires RequestsKnow(x)
    requires step.Wake? || step.Cancel? || step.Pass?
    ensures RequestsKnow(Next(x, limits, step))
  {
  }

  lemma QuietKeeps(x: World, limits: Limits, step: Step)
    requires Inv(x, limits)
    requires step.Wake? || step.Cancel? || step.Pass?
    ensures Inv(Next(x, limits, step), limits)
  {
    hide RecordsKnown, KeptWhileValid, RequestsKnow, Fits;
    QuietRecords(x, limits, step);
    QuietRequests(x, limits, step);
  }

  lemma StepKeeps(x: World, limits: Limits, step: Step)
    requires Inv(x, limits)
    ensures Inv(Next(x, limits, step), limits)
  {
    hide Inv, Next;
    match step
    case Arrive(r, session, key, hash, lag) => ArriveKeeps(x, limits, r, session, key, hash, lag);
    case Finish(r, outcome) => FinishKeeps(x, limits, r, outcome);
    case _ => QuietKeeps(x, limits, step);
  }

  lemma {:induction false} RunKeeps(x: World, limits: Limits, steps: seq<Step>)
    requires Inv(x, limits)
    ensures Inv(RunWorld(x, limits, steps), limits)
    decreases |steps|
  {
    hide Inv, Next;
    if steps != [] {
      StepKeeps(x, limits, steps[0]);
      RunKeeps(Next(x, limits, steps[0]), limits, steps[1..]);
    }
  }

  lemma StartsEmpty(limits: Limits)
    ensures Inv(Start, limits)
  {
    assert forall s :: KeysOf(Start.replays, s) == {};
  }

  // ----- the guarantees

  /** Single flight: in every run at most one operation of a key is running. */
  lemma OneFlightPerKey(limits: Limits, steps: seq<Step>, r: nat, q: nat)
    requires
      var x := RunWorld(Start, limits, steps);
      && r in x.requests && q in x.requests && x.requests[r].phase.Owner? && x.requests[q].phase.Owner?
      && x.requests[r].key == x.requests[q].key
    ensures r == q
  {
    StartsEmpty(limits);
    RunKeeps(Start, limits, steps);
  }

  /** Everybody answered from a record asked for its key with its payload, and got its owner's outcome. */
  lemma WaitersGetTheOwnersOutcome(limits: Limits, steps: seq<Step>, r: nat, q: nat)
    requires
      var x := RunWorld(Start, limits, steps);
      && r in x.requests && q in x.requests && x.requests[r].phase.Answered? && x.requests[q].phase.Answered?
      && x.requests[r].phase.record == x.requests[q].phase.record
    ensures
      var x := RunWorld(Start, limits, steps);
      && x.requests[r].phase.outcome == x.requests[q].phase.outcome
      && x.requests[r].key == x.requests[q].key && x.requests[r].hash == x.requests[q].hash
  {
    StartsEmpty(limits);
    RunKeeps(Start, limits, steps);
  }

  /** An operation runs again only after every earlier run of its key has failed or outlived its expiry. */
  lemma RunsAgainOnlyAfterFailureOrExpiry(limits: Limits, steps: seq<Step>, step: Step, earlier: nat)
    requires step.Arrive? && step.r !in RunWorld(Start, limits, steps).requests
    requires
      var x := RunWorld(Start, limits, steps);
      && Next(x, limits, step).requests[step.r].phase.Owner?
      && earlier in x.made && x.made[earlier].key == step.key
    ensures
      var x := RunWorld(Start, limits, steps);
      && earlier in x.settled
      && (x.settled[earlier].outcome.Failure? || x.settled[earlier].expiresAt <= x.now)
  {
    StartsEmpty(limits);
    RunKeeps(Start, limits, steps);
    hide KeysOf;
  }

  /** The cache never holds more entries than its limits, in total and for each session. */
  lemma AlwaysBounded(limits: Limits, steps: seq<Step>, s: Id)
    ensures |RunWorld(Start, limits, steps).replays| <= limits.total
    ensures |KeysOf(RunWorld(Start, limits, steps).replays, s)| <= limits.perSession
  {
    StartsEmpty(limits);
    RunKeeps(Start, limits, steps);
  }

  /** A repeated request is never refused for want of room, nor run again, while its key is held. */
  lemma HeldKeyAnswers(replays: map<Id, Record>, limits: Limits, session: Id, key: Id, hash: Id, now: Time, id: nat)
    requires key in replays && !Expired(replays[key], now)
    ensures Reserved(replays, limits, session, key, hash, now, id).1 ==
              if replays[key].hash == hash then Ok(Wait(replays[key])) else Err(PayloadConflict)
  {
  }
}

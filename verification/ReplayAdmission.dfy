/** Who gets to run an operation: the replay cache seen from the requests that arrive. */
module ReplayAdmission {
  import opened Wrappers
  import opened ReplayCache

  // ----- who runs

  /** Still running, or finished and not outlived. */
  predicate Fresh(record: Record, now: Time) {
    record.expiresAt.None? || now < record.expiresAt.value
  }

  ghost function FreshKeys(replays: map<Id, Record>, now: Time): set<Id> {
    set k | k in replays && Fresh(replays[k], now)
  }

  ghost function FreshKeysOf(replays: map<Id, Record>, session: Id, now: Time): set<Id> {
    set k | k in replays && Fresh(replays[k], now) && replays[k].session == session
  }

  ghost predicate HasRoom(replays: map<Id, Record>, limits: Limits, session: Id, now: Time) {
    |FreshKeys(replays, now)| < limits.total && |FreshKeysOf(replays, session, now)| < limits.perSession
  }

  predicate Held(replays: map<Id, Record>, key: Id, now: Time) {
    key in replays && Fresh(replays[key], now)
  }

  /** A request runs exactly if nobody holds its key and there is room among the records that have not
      expired, in total and for its session; for want of room alone it is refused. A held key is answered by
      waiting, or by a conflict if the payload is another. Expired records are gone afterwards, unless the
      key was held, and no other record changes. */
  lemma ReserveOutcome(replays: map<Id, Record>, limits: Limits, session: Id, key: Id, hash: Id, now: Time, id: nat)
    ensures
      var (after, r) := Reserved(replays, limits, session, key, hash, now, id);
      var held, room := Held(replays, key, now), HasRoom(replays, limits, session, now);
      && (r == Ok(Run(Record(id, session, hash, None))) <==> !held && room)
      && (r == Err(Capacity) <==> !held && !room)
      && (r == Err(PayloadConflict) <==> held && replays[key].hash != hash)
      && (held && replays[key].hash == hash ==> r == Ok(Wait(replays[key])))
      && (held ==> after == replays)
      && (!held ==>
            && after.Keys == FreshKeys(replays, now) + (if room then {key} else {})
            && (forall k :: k in after && k != key ==> after[k] == replays[k])
            && (room ==> after[key] == Record(id, session, hash, None)))
  {
    PurgedIsFresh(replays, session, now);
    hide Purged, KeysOf, FreshKeys, FreshKeysOf;
  }

  lemma PurgedIsFresh(replays: map<Id, Record>, session: Id, now: Time)
    ensures
      var rest := Purged(replays, now);
      && rest.Keys == FreshKeys(replays, now) && |rest| == |FreshKeys(replays, now)|
      && KeysOf(rest, session) == FreshKeysOf(replays, session, now)
      && (forall k :: k in rest ==> k in replays && rest[k] == replays[k] && Fresh(replays[k], now))
    ensures forall k :: k in replays ==> (Expired(replays[k], now) <==> !Fresh(replays[k], now))
  {
    assert Purged(replays, now).Keys == FreshKeys(replays, now);
  }

  /** What is known of the runs of a key: one of them still runs, or has a value that is still fresh. */
  ghost predicate Taken(x: World, key: Id, at: Time) {
    exists id :: id in x.made && x.made[id].key == key && StillCounts(x, id, at)
  }

  predicate StillCounts(x: World, id: nat, at: Time) {
    id !in x.settled || (x.settled[id].outcome.Value? && at < x.settled[id].expiresAt)
  }

  /** Finished records hold the values their owners settled them with. */
  ghost predicate ValuesHeld(x: World) {
    forall k :: k in x.replays && x.replays[k].expiresAt.Some? ==>
      && x.replays[k].id in x.settled && x.settled[x.replays[k].id].outcome.Value?
      && x.replays[k].expiresAt == Some(x.settled[x.replays[k].id].expiresAt)
  }

  lemma ArriveHoldsValues(x: World, limits: Limits, r: nat, session: Id, key: Id, hash: Id, lag: nat)
    requires ValuesHeld(x)
    ensures ValuesHeld(Next(x, limits, Arrive(r, session, key, hash, lag)))
  {
    ReservedFacts(x.replays, limits, session, key, hash, x.now - lag, x.ids);
    hide Reserved;
  }

  lemma StepHoldsValues(x: World, limits: Limits, step: Step)
    requires Inv(x, limits) && ValuesHeld(x)
    ensures ValuesHeld(Next(x, limits, step))
  {
    match step
    case Arrive(r, session, key, hash, lag) => ArriveHoldsValues(x, limits, r, session, key, hash, lag);
    case Finish(r, outcome) =>
      if r in x.requests && x.requests[r].phase.Owner? {
        OwnerHolds(x, r);
      }
      hide KeptWhileValid, RequestsKnow, Fits;
    case _ =>
  }

  lemma {:induction false} RunHoldsValues(x: World, limits: Limits, steps: seq<Step>)
    requires Inv(x, limits) && ValuesHeld(x)
    ensures ValuesHeld(RunWorld(x, limits, steps))
    decreases |steps|
  {
    hide Inv, ValuesHeld, Next;
    if steps != [] {
      StepKeeps(x, limits, steps[0]);
      StepHoldsValues(x, limits, steps[0]);
      RunHoldsValues(Next(x, limits, steps[0]), limits, steps[1..]);
    }
  }

  lemma HeldMeansTaken(x: World, limits: Limits, key: Id, at: Time)
    requires Inv(x, limits) && ValuesHeld(x)
    ensures Held(x.replays, key, at) ==> Taken(x, key, at)
    ensures Taken(x, key, at) && x.now <= at ==> Held(x.replays, key, at)
  {
    hide Fits, RequestsKnow;
    if Held(x.replays, key, at) {
      assert StillCounts(x, x.replays[key].id, at);
    }
    if Taken(x, key, at) && x.now <= at {
      var id :| id in x.made && x.made[id].key == key && StillCounts(x, id, at);
    }
  }

  /** In every run, a request that arrives becomes the owner of a new run exactly if no earlier run of its key
      is under way or has a fresh value, and the records that have not expired leave room. */
  lemma OwnerIffFreeAndRoom(limits: Limits, steps: seq<Step>, r: nat, session: Id, key: Id, hash: Id)
    requires r !in RunWorld(Start, limits, steps).requests
    ensures
      var x := RunWorld(Start, limits, steps);
      var y := Next(x, limits, Arrive(r, session, key, hash, 0));
      && (y.requests[r].phase == Owner(x.ids) <==>
            !Taken(x, key, x.now) && HasRoom(x.replays, limits, session, x.now))
      && (!Taken(x, key, x.now) && !HasRoom(x.replays, limits, session, x.now) ==> y.requests[r].phase == Rejected)
  {
    var x := RunWorld(Start, limits, steps);
    StartsEmpty(limits);
    RunKeeps(Start, limits, steps);
    RunHoldsValues(Start, limits, steps);
    hide RunWorld;
    HeldMeansTaken(x, limits, key, x.now);
    ReserveOutcome(x.replays, limits, session, key, hash, x.now, x.ids);
    hide Inv, ValuesHeld, Held, Taken, HasRoom, Reserved;
  }

  /** A value answers repeated requests with the same payload for exactly its time to live; after that, and
      after a failure at once, the operation runs again where there is room. */
  lemma FinishedThenRepeated(x: World, limits: Limits, r: nat, outcome: Outcome, wait: nat, q: nat)
    requires Inv(x, limits)
    requires r in x.requests && x.requests[r].phase.Owner? && q !in x.requests
    ensures
      var first := x.requests[r];
      var id := first.phase.record;
      var later := Next(Next(x, limits, Finish(r, outcome)), limits, Pass(wait));
      var y := Next(later, limits, Arrive(q, first.session, first.key, first.hash, 0));
      && later.now == x.now + wait && q !in later.requests
      && (y.requests[q].phase == Waiter(id) <==> outcome.Value? && wait < limits.ttl)
      && (y.requests[q].phase == Waiter(id) ==> Next(y, limits, Wake(q)).requests[q].phase == Answered(id, outcome))
      && (outcome.Failure? || limits.ttl <= wait ==>
            y.requests[q].phase ==
              if HasRoom(later.replays, limits, first.session, later.now) then Owner(later.ids) else Rejected)
  {
    hide Inv, HasRoom, Reserved, Next;
    var first := x.requests[r];
    var finished := Next(x, limits, Finish(r, outcome));
    FinishedRecord(x, limits, r, outcome);
    PassOnlyPasses(finished, limits, wait);
    ArrivalOutcome(Next(finished, limits, Pass(wait)), limits, q, first.session, first.key, first.hash);
    WakesWithOutcome(x, limits, r, outcome, wait, q);
  }

  lemma PassOnlyPasses(x: World, limits: Limits, wait: nat)
    ensures Next(x, limits, Pass(wait)) == x.(now := x.now + wait)
  {
  }

  /** What becomes of a request that arrives now. */
  lemma ArrivalOutcome(x: World, limits: Limits, q: nat, session: Id, key: Id, hash: Id)
    requires q !in x.requests
    ensures
      var phase := Next(x, limits, Arrive(q, session, key, hash, 0)).requests[q].phase;
      if Held(x.replays, key, x.now) then
        phase == if x.replays[key].hash == hash then Waiter(x.replays[key].id) else Rejected
      else phase == if HasRoom(x.replays, limits, session, x.now) then Owner(x.ids) else Rejected
  {
    ReserveOutcome(x.replays, limits, session, key, hash, x.now, x.ids);
    HeldIsThere(x.replays, key, x.now);
    hide Held, HasRoom, Reserved;
  }

  lemma HeldIsThere(replays: map<Id, Record>, key: Id, now: Time)
    ensures Held(replays, key, now) ==> key in replays
  {
  }

  /** A value keeps its record until it expires, a failure frees the key. */
  lemma FinishedRecord(x: World, limits: Limits, r: nat, outcome: Outcome)
    requires Inv(x, limits) && r in x.requests && x.requests[r].phase.Owner?
    ensures
      var q := x.requests[r];
      var y := Next(x, limits, Finish(r, outcome));
      && q.phase.record < x.ids && y.ids == x.ids && y.now == x.now && y.requests.Keys == x.requests.Keys
      && (outcome.Failure? ==> q.key !in y.replays)
      && (outcome.Value? ==>
            && q.key in y.replays && y.replays[q.key].id == q.phase.record && y.replays[q.key].hash == q.hash
            && y.replays[q.key].expiresAt == Some(x.now + limits.ttl))
  {
    OwnerHolds(x, r);
    RecordIsItsOwn(x, r);
    hide Inv;
  }

  lemma WakesWithOutcome(x: World, limits: Limits, r: nat, outcome: Outcome, wait: nat, q: nat)
    requires r in x.requests && x.requests[r].phase.Owner? && q !in x.requests
    ensures
      var first := x.requests[r];
      var later := Next(Next(x, limits, Finish(r, outcome)), limits, Pass(wait));
      var y := Next(later, limits, Arrive(q, first.session, first.key, first.hash, 0));
      y.requests[q].phase == Waiter(first.phase.record) ==>
        Next(y, limits, Wake(q)).requests[q].phase == Answered(first.phase.record, outcome)
  {
    hide Reserved, Removed;
  }

  lemma RecordIsItsOwn(x: World, r: nat)
    requires RecordsKnown(x) && KeptWhileValid(x) && RequestsKnow(x)
    requires r in x.requests && x.requests[r].phase.Owner?
    ensures
      var q := x.requests[r];
      && q.key in x.replays && x.replays[q.key].hash == q.hash && q.phase.record < x.ids
      && x.replays[q.key].expiresAt.None?
  {
    OwnerHolds(x, r);
  }

  /** A caller that gives up waiting is refused, and the record stays for the others. */
  lemma CancelledWaiterIsRefused(x: World, limits: Limits, r: nat)
    requires r in x.requests && x.requests[r].phase.Waiter?
    ensures
      var y := Next(x, limits, Cancel(r));
      && y.requests[r].phase == Rejected && y.requests.Keys == x.requests.Keys
      && (forall q :: q in x.requests && q != r ==> y.requests[q] == x.requests[q])
      && y.(requests := x.requests) == x
  {
  }
}

/** What storing, correcting, leasing and settling turns come to, case by case, and what an attribution means
    for the turn from then on. */
module TurnOutcomes {
  import opened Wrappers
  import opened TurnStore
  import opened TurnDelivery
  import opened TurnDeliverySafety

  // ----- storing

  predicate WritesTurn(a: Db, b: Db, t: Id) {
    && b.participants == a.participants && b.sessions == a.sessions && b.now == a.now
    && b.turns.Keys == a.turns.Keys + {t}
    && (forall u :: u in a.turns && u != t ==> b.turns[u] == a.turns[u])
  }

  /** A new turn carries what its event says, without the speaker's profile and never corrected yet; if its
      event calls for attribution, one fresh row is queued for it. */
  lemma StoreOutcome(db: Db, e: Event)
    requires Inv(db) && IsFresh(db, e)
    ensures
      var (after, r) := StoreFinalTurn(db, e);
      && (r.Ok? <==> ParticipantKnown(db, e) && (ShouldEnqueue(e) ==> e.session in db.sessions))
      && (r.Err? ==> r.error == NotFound && after == db)
      && (r.Ok? ==>
            && e.turnId !in db.turns && WritesTurn(db, after, e.turnId)
            && var row := after.turns[e.turnId];
            && row.eventId == e.eventId && row.hash == e && row.session == e.session && row.sequence == e.sequence
            && row.participant == e.participant && row.speaker == e.speaker.(profile := None)
            && row.text == e.text && row.confidence == e.confidence && row.status == e.status && row.corrected.None?
            && after.tasks.Keys == db.tasks.Keys + (if ShouldEnqueue(e) then {e.turnId} else {})
            && (forall t :: t in db.tasks ==> after.tasks[t] == db.tasks[t])
            && (ShouldEnqueue(e) ==> QueuedAt(after.tasks[e.turnId], e.session, db.now)))
  {
    FreshIsNew(db, e);
    assert e.turnId !in db.tasks;
    StoreCases(db, e);
    RowIsWritten(db, e);
    EnqueueOutcome(WithRow(db, e), e.turnId, e.session);
    hide IsFresh, ShouldEnqueue, Inv, ParticipantKnown, Enqueue, QueuedAt, StoreFinalTurn;
  }

  function WithRow(db: Db, e: Event): Db {
    db.(turns := db.turns[e.turnId := RowOf(e)])
  }

  lemma StoreCases(db: Db, e: Event)
    requires IsFresh(db, e)
    ensures
      var (queued, ok) := Enqueue(WithRow(db, e), e.turnId, e.session);
      StoreFinalTurn(db, e) ==
        if !ParticipantKnown(db, e) || (ShouldEnqueue(e) && !ok) then (db, Err(NotFound))
        else (if ShouldEnqueue(e) then queued else WithRow(db, e), Ok(()))
  {
    hide IsFresh, ShouldEnqueue, ParticipantKnown, Enqueue, RowOf;
  }

  lemma RowIsWritten(db: Db, e: Event)
    requires e.turnId !in db.turns
    ensures
      var after := WithRow(db, e);
      && WritesTurn(db, after, e.turnId) && after.tasks == db.tasks
      && after.turns[e.turnId] == RowOf(e)
  {
  }

  /** Waiting for its first attempt, from that time on. */
  predicate QueuedAt(task: Task, session: Id, at: Time) {
    && task.session == session && task.status == Queued && task.availableAt == at && task.attempts == 0
    && task.receipt.None? && task.lastError.None?
  }

  /** A turn has one row at most: queuing it again keeps the row and succeeds for the row's own session. */
  lemma EnqueueOutcome(db: Db, turn: Id, session: Id)
    ensures
      var (after, ok) := Enqueue(db, turn, session);
      && (ok <==> session in db.sessions && (turn in db.tasks ==> db.tasks[turn].session == session))
      && (after != db <==> session in db.sessions && turn !in db.tasks)
      && (after != db ==>
            && after == db.(tasks := after.tasks) && after.tasks.Keys == db.tasks.Keys + {turn}
            && (forall t :: t in db.tasks ==> after.tasks[t] == db.tasks[t])
            && QueuedAt(after.tasks[turn], session, db.now))
  {
    if turn !in db.tasks {
      assert turn in db.tasks[turn := NewTask(session, db.now)];
    }
  }

  /** A turn calls for attribution exactly if it is unresolved and its provider told speakers apart. */
  lemma EnqueuedIff(e: Event)
    ensures ShouldEnqueue(e) <==>
              && e.status != Confirmed && e.status != Corrected
              && e.speaker.provider.Some?
              && exists i :: 0 <= i < |e.speaker.provider.value| && e.speaker.provider.value[i] !in " \t\n\r"
  {
    if e.speaker.provider.Some? {
      forall i | 0 <= i < |e.speaker.provider.value|
        ensures e.speaker.provider.value[i] in {' ', '\t', '\n', '\r'} <==> e.speaker.provider.value[i] in " \t\n\r"
      {
        BlankCharacters(e.speaker.provider.value[i]);
      }
    }
  }

  lemma BlankCharacters(c: char)
    ensures c in " \t\n\r" <==> c in {' ', '\t', '\n', '\r'}
  {
    assert " \t\n\r" == [' ', '\t', '\n', '\r'];
  }

  lemma UnknownEvents(db: Db, e: Event)
    ensures !IsFresh(db, e) ==> StoreFinalTurn(db, e) == (db, if IsReplay(db, e) then Ok(()) else Err(Conflict))
    ensures ParticipantKnown(db, e) <==> e.participant.None? || (e.session, e.participant.value) in db.participants
  {
  }

  /** A stored payload accepts an event that equals it up to the route fields older consumers left out. */
  lemma MatchesIff(e: Event, stored: Event)
    ensures HashMatches(e, stored) <==>
              && stored.(routes := e.routes) == e
              && (stored.routes.trigger == e.routes.trigger || stored.routes.trigger == "")
              && ((stored.routes.tts == e.routes.tts && stored.routes.delivery == e.routes.delivery)
                  || (!stored.routes.tts && !stored.routes.delivery))
  {
  }

  // ----- correcting

  predicate ValidUpdate(u: Update) {
    u.turn != "" && u.participant != "" && (u.status == Confirmed || u.status == Corrected)
  }

  /** The row attributes its turn to that speaker, as the update asks for. */
  predicate AttributedTo(before: Row, after: Row, u: Update, speaker: Speaker) {
    && after.participant == Some(u.participant) && after.speaker == speaker && after.status == u.status
    && after.confidence == (if u.confidenceSet then u.confidence else before.confidence)
    && after.corrected == Some(Correction("system", u.at))
    && after.eventId == before.eventId && after.hash == before.hash && after.session == before.session
    && after.sequence == before.sequence && after.text == before.text
  }

  /** A correction attributes the turn to the participant it names, with what the session knows of that
      participant as its speaker; the guarded kind only while the turn is unresolved. */
  lemma CorrectOutcome(db: Db, u: Update)
    ensures
      var (after, r) := CorrectAttribution(db, u);
      var known := u.turn in db.turns && (db.turns[u.turn].session, u.participant) in db.participants;
      && (r.Ok? <==>
            ValidUpdate(u) && known && (u.onlyIfUnresolved ==>
              db.turns[u.turn].status == Pending || db.turns[u.turn].status == Provisional))
      && (r == Err(NotFound) <==> ValidUpdate(u) && u.turn !in db.turns)
      && (r == Err(StaleAttribution) <==>
            && ValidUpdate(u) && known && u.onlyIfUnresolved
            && (db.turns[u.turn].status == Confirmed || db.turns[u.turn].status == Corrected))
      && (r == Err(InvalidAttribution) <==> !ValidUpdate(u) || (u.turn in db.turns && !known))
      && (r.Err? ==> after == db)
      && (r.Ok? ==>
            && WritesTurn(db, after, u.turn) && after.tasks == db.tasks && r.value == after.turns[u.turn]
            && AttributedTo(db.turns[u.turn], r.value, u, db.participants[(db.turns[u.turn].session, u.participant)]))
  {
  }

  // ----- what an attribution means from then on

  /** The run corrects turn `t` by hand. */
  predicate CorrectsByHand(steps: seq<Step>, t: Id) {
    exists i :: 0 <= i < |steps| && steps[i].CorrectByHand? && steps[i].update.turn == t
  }

  lemma ResolvedStays(x: World, step: Step, t: Id)
    requires WorldInv(x) && t in x.db.turns && !Unresolved(x.db.turns[t].status)
    requires !(step.CorrectByHand? && step.update.turn == t)
    ensures t in Next(x, step).db.turns && Next(x, step).db.turns[t] == x.db.turns[t]
  {
    hide Inv, OutboxKept, ConsumersKept, AppliedOnce, StoreFinalTurn, CorrectAttribution, Append, Settle, Claim;
    match step
    case Consume(c, luck) =>
      if c in x.consumers {
        StoreSpares(x.db, x.consumers[c].event, t);
      }
    case Apply(w, _, _, _) =>
      if w in x.workers && x.workers[w].phase.Applying? {
        CorrectOutcome(x.db, x.workers[w].phase.update);
      }
    case CorrectByHand(u) => CorrectOutcome(x.db, u);
    case _ =>
  }

  lemma StoreSpares(db: Db, e: Event, t: Id)
    requires t in db.turns
    ensures t in StoreFinalTurn(db, e).0.turns && StoreFinalTurn(db, e).0.turns[t] == db.turns[t]
  {
    if IsFresh(db, e) {
      FreshIsNew(db, e);
    }
  }

  lemma {:induction false} ResolvedLasts(x: World, steps: seq<Step>, t: Id)
    requires WorldInv(x) && t in x.db.turns && !Unresolved(x.db.turns[t].status)
    requires !CorrectsByHand(steps, t)
    ensures t in Run(x, steps).db.turns && Run(x, steps).db.turns[t] == x.db.turns[t]
    decreases |steps|
  {
    hide WorldInv, Next, Unresolved;
    if steps != [] {
      assert !(steps[0].CorrectByHand? && steps[0].update.turn == t);
      ResolvedStays(x, steps[0], t);
      StepKeeps(x, steps[0]);
      LaterStepsToo(steps, t);
      ResolvedLasts(Next(x, steps[0]), steps[1..], t);
    }
  }

  lemma LaterStepsToo(steps: seq<Step>, t: Id)
    requires steps != [] && !CorrectsByHand(steps, t)
    ensures !CorrectsByHand(steps[1..], t)
  {
  }

  /** An attribution a worker applied gives the turn the participant of its decision and the speaker its session
      knew by that id, and in every later run the turn stays attributed so until it is corrected by hand. */
  lemma AttributionLasts(
      participants: map<(Id, Id), Speaker>, sessions: set<Id>, steps: seq<Step>, apply: Step, more: seq<Step>)
    requires apply.Apply?
    requires
      var x := Run(Start(participants, sessions), steps);
      && |Next(x, apply).applied| > |x.applied|
      && apply.w in x.workers && !CorrectsByHand(more, x.workers[apply.w].turn)
    ensures
      var x := Run(Start(participants, sessions), steps);
      var t := x.workers[apply.w].turn;
      var later := Run(Next(x, apply), more).db;
      && x.workers[apply.w].phase.Applying? && t in x.db.turns && t in later.turns
      && var u := x.workers[apply.w].phase.update;
      && (x.db.turns[t].session, u.participant) in x.db.participants
      && AttributedTo(x.db.turns[t], later.turns[t], u, x.db.participants[(x.db.turns[t].session, u.participant)])
  {
    var x := Run(Start(participants, sessions), steps);
    RunKeeps(Start(participants, sessions), steps);
    hide Run;
    StepKeeps(x, apply);
    AppliedAttributes(x, apply);
    hide WorldInv, Next, AttributedTo, CorrectsByHand, Unresolved;
    ResolvedLasts(Next(x, apply), more, x.workers[apply.w].turn);
  }

  lemma AppliedAttributes(x: World, apply: Step)
    requires WorkersKept(x) && apply.Apply? && |Next(x, apply).applied| > |x.applied|
    ensures apply.w in x.workers && x.workers[apply.w].phase.Applying?
    ensures
      var u := x.workers[apply.w].phase.update;
      var after := Next(x, apply).db;
      && u.turn == x.workers[apply.w].turn && u.turn in x.db.turns && u.turn in after.turns
      && !Unresolved(after.turns[u.turn].status)
      && (x.db.turns[u.turn].session, u.participant) in x.db.participants
      && AttributedTo(x.db.turns[u.turn], after.turns[u.turn], u,
                      x.db.participants[(x.db.turns[u.turn].session, u.participant)])
  {
    CorrectOutcome(x.db, x.workers[apply.w].phase.update);
    hide CorrectAttribution;
  }

  // ----- leasing and settling

  /** A row can be leased once its time has come, waiting or under a lease that ran out; the lease runs for a
      minute from now and counts as an attempt. */
  lemma LeaseOutcome(o: Outbox, id: Id, receipt: Id, now: Time, tasks: map<Id, Task>, turn: Id)
    ensures
      var after := TurnDelivery.Claim(o, id, receipt, now);
      var free := id in o && ((o[id].status == Waiting && o[id].availableAt <= now)
                              || (o[id].status == Leased && o[id].lockedUntil <= now));
      && after.Keys == o.Keys && (forall i :: i in o && i != id ==> after[i] == o[i])
      && (!free ==> after == o)
      && (free ==>
            && after[id].event == o[id].event && after[id].availableAt == o[id].availableAt
            && after[id].status == Leased && after[id].receipt == Some(receipt)
            && after[id].lockedUntil == now + 60 && after[id].attempts == o[id].attempts + 1)
    ensures
      var after := ClaimTask(tasks, turn, receipt, now);
      var free := turn in tasks && ((tasks[turn].status == Queued && tasks[turn].availableAt <= now)
                                    || (tasks[turn].status == Processing && tasks[turn].lockedUntil <= now));
      && after.Keys == tasks.Keys && (forall t :: t in tasks && t != turn ==> after[t] == tasks[t])
      && (!free ==> after == tasks)
      && (free ==>
            && after[turn].session == tasks[turn].session && after[turn].availableAt == tasks[turn].availableAt
            && after[turn].lastError == tasks[turn].lastError
            && after[turn].status == Processing && after[turn].receipt == Some(receipt)
            && after[turn].lockedUntil == now + 60 && after[turn].attempts == tasks[turn].attempts + 1)
  {
  }

  /** The holder's verdict acknowledges, rejects, or gives the row back for a second later; others' changes
      nothing. */
  lemma SettleOutcome(o: Outbox, id: Id, receipt: Id, v: Verdict, now: Time)
    ensures
      var after := Settle(o, id, receipt, v, now);
      var held := id in o && o[id].status == Leased && o[id].receipt == Some(receipt);
      && after.Keys == o.Keys && (forall i :: i in o && i != id ==> after[i] == o[i])
      && (!held ==> after == o)
      && (held ==>
            && after[id].event == o[id].event && after[id].attempts == o[id].attempts
            && after[id].receipt.None? && after[id].lockedUntil == 0
            && after[id].status == (if v == Ack then Acked else if v == Nack then Waiting else Rejected)
            && after[id].availableAt == if v == Nack then now + 1 else o[id].availableAt)
  {
  }

  /** Likewise for an attribution row, which records the error of its last attempt. */
  lemma SettleTaskOutcome(tasks: map<Id, Task>, turn: Id, receipt: Id, v: TaskVerdict, error: Option<Id>)
    ensures
      var after := SettleTask(tasks, turn, receipt, v, error);
      var held := turn in tasks && tasks[turn].status == Processing && tasks[turn].receipt == Some(receipt);
      && after.Keys == tasks.Keys && (forall t :: t in tasks && t != turn ==> after[t] == tasks[t])
      && (!held ==> after == tasks)
      && (held ==>
            && after[turn].session == tasks[turn].session && after[turn].attempts == tasks[turn].attempts
            && after[turn].receipt.None? && after[turn].lockedUntil == 0 && after[turn].lastError == error
            && (v == Done ==> after[turn].status == Completed)
            && (v == Fail ==> after[turn].status == TaskStatus.Failed)
            && (v.Retry? ==> after[turn].status == Queued)
            && after[turn].availableAt == if v.Retry? then v.availableAt else tasks[turn].availableAt)
  {
  }

  /** An event is complete exactly if every name it must carry is there, it is numbered and dated, and its speech
      does not end before it starts. */
  lemma WellFormedIff(e: Event)
    ensures
      var names := {e.eventId, e.traceId, e.turnId, e.session, e.text.sourceLanguage, e.text.targetLanguage,
                    e.text.source, e.text.translated, e.speaker.code};
      WellFormed(e) <==>
        && "" !in names && 1 <= e.sequence && 1 <= e.text.configVersion
        && 0 !in {e.text.startedAt, e.text.endedAt, e.text.occurredAt} && !(e.text.endedAt < e.text.startedAt)
  {
  }

  /** A complete event without a participant can be consumed only while its attribution is pending; one that
      names a participant, whenever the name is not empty. */
  lemma ConsumableIff(e: Event)
    ensures e.participant.None? ==> (Consumable(e) <==> WellFormed(e) && e.status == Pending)
    ensures e.participant.Some? ==> (Consumable(e) <==> WellFormed(e) && e.participant.value != "")
  {
    hide WellFormed;
  }

  /** What a consumer hears of an event, and what becomes of the delivery: what never can be stored is rejected
      at once, what only failed is given back until the eighth attempt. */
  lemma ConsumptionOutcome(db: Db, e: Event, luck: Luck, attempts: nat)
    requires Inv(db)
    ensures
      var (after, r) := Consumption(db, e, luck);
      && (!Consumable(e) ==> after == db && r == Err(InvalidRequest) && Decide(r, attempts) == Reject)
      && (Consumable(e) && luck.FailsBefore? ==>
            after == db && r == Err(Transient) && Decide(r, attempts) == if attempts < 8 then Nack else Reject)
      && (Consumable(e) && !luck.FailsBefore? ==>
            && after == StoreFinalTurn(db, e).0
            && (StoreFinalTurn(db, e).1.Err? ==> Decide(r, attempts) == Reject)
            && (StoreFinalTurn(db, e).1.Ok? && luck.Fine? ==> Decide(r, attempts) == Ack))
  {
    UnknownEvents(db, e);
    if IsFresh(db, e) {
      StoreOutcome(db, e);
    }
    hide Consumable, StoreFinalTurn, IsFresh, IsReplay, Inv;
  }

  /** An event is appended once; under its id only the same payload is accepted again. */
  lemma AppendOutcome(o: Outbox, e: Event, now: Time)
    ensures
      var (after, r) := Append(o, e, now);
      && (r == Err(InvalidRequest) <==> !WellFormed(e))
      && (r == Err(Conflict) <==> WellFormed(e) && e.eventId in o && !HashMatches(e, o[e.eventId].event))
      && (r.Ok? || r == Err(InvalidRequest) || r == Err(Conflict))
      && (after != o <==> WellFormed(e) && e.eventId !in o)
      && (after != o ==>
            && after.Keys == o.Keys + {e.eventId} && (forall i :: i in o ==> after[i] == o[i])
            && after[e.eventId].event == e && after[e.eventId].status == Waiting
            && after[e.eventId].availableAt == now && after[e.eventId].receipt.None? && after[e.eventId].attempts == 0)
  {
    hide WellFormed, HashMatches;
    if e.eventId !in o {
      assert e.eventId in o[e.eventId := OutRow(e, Waiting, now, None, 0, 0)];
    }
  }

  // ----- how an attempt at attribution settles

  /** A shutdown settles nothing. Otherwise only missing evidence or the eighth attempt fails a row for good;
      every other failure is tried again at the time given. */
  lemma FailureOutcome(noEvidence: bool, attempts: nat, shutdown: bool, retryAt: Time)
    ensures
      var v := SettleFailure(noEvidence, attempts, shutdown, retryAt);
      && (v.None? <==> shutdown)
      && (v == Some(Fail) <==> !shutdown && (noEvidence || 8 <= attempts))
      && (v == Some(Retry(retryAt)) <==> !shutdown && !noEvidence && attempts < 8)
  {
  }

  /** What a worker does with a resolver's answer: nothing to change is done, a decision is applied under the
      guard and is done even if it came too late, and anything else is a failure; only evidence that will
      never come fails for good before the eighth attempt. */
  lemma AttributingOutcome(
      db: Db, turn: Id, resolution: Resolution, attempts: nat, shutdown: bool, at: Time, retryAt: Time)
    ensures
      var (after, v) := Attributing(db, turn, resolution, attempts, shutdown, at, retryAt);
      var decided := resolution.Move? && resolution.participant != "";
      var r := if decided
               then CorrectAttribution(db, Update(turn, resolution.participant, resolution.status,
                                                  resolution.confidenceSet, resolution.confidence, at, true))
               else (db, Err(InvalidAttribution));
      && after == r.0
      && (v == Some(Done) <==>
            resolution.Keep? || (resolution.Move? && (!decided || r.1.Ok? || r.1.error == StaleAttribution)))
      && (v == Some(Fail) <==>
            && !shutdown && (resolution.NoEvidence? || 8 <= attempts)
            && (resolution.NoEvidence? || resolution.ResolverDown?
                || (decided && r.1.Err? && r.1.error != StaleAttribution)))
      && (v == None ==> shutdown) && (v == None || v == Some(Done) || v == Some(Fail) || v == Some(Retry(retryAt)))
  {
    hide CorrectAttribution;
  }
}

/** What deliveries and attributions come to when nobody interferes: an event that waits gets stored and
    acknowledged, and a turn whose decision is made gets attributed. */
module TurnProgress {
  import opened Wrappers
  import opened TurnStore
  import opened TurnDelivery
  import opened TurnDeliverySafety
  import opened TurnOutcomes

  /** Receiver `c` leases the event, consumes it and settles the lease. */
  function Delivery(c: nat, id: Id, receipt: Id, luck: Luck): seq<Step> {
    [Receive(c, id, receipt), Consume(c, luck), SettleDelivery(c)]
  }

  /** Worker `w` leases the turn's row, decides, applies its decision and settles the row. */
  function Attributed(w: nat, turn: Id, receipt: Id, decision: Resolution, at: Time): seq<Step> {
    [ReceiveTask(w, turn, receipt), Resolve(w, decision, at, false), Apply(w, Fine, at, false), SettleWork(w, None)]
  }

  lemma ThreeSteps(x: World, a: Step, b: Step, c: Step)
    ensures Run(x, [a, b, c]) == Next(Next(Next(x, a), b), c)
  {
    hide Next;
    assert [a, b, c][1..] == [b, c] && [b, c][1..] == [c] && [c][1..] == [];
    assert Run(Next(x, a), [b, c]) == Run(Next(Next(x, a), b), [c]);
    assert Run(Next(Next(x, a), b), [c]) == Run(Next(Next(Next(x, a), b), c), []);
  }

  lemma FourSteps(x: World, a: Step, b: Step, c: Step, d: Step)
    ensures Run(x, [a, b, c, d]) == Next(Next(Next(Next(x, a), b), c), d)
  {
    hide Next;
    assert [a, b, c, d][1..] == [b, c, d];
    ThreeSteps(Next(x, a), b, c, d);
  }

  // ----- deliveries

  lemma Received(x: World, c: nat, id: Id, receipt: Id)
    requires c !in x.consumers && receipt !in x.receipts
    requires id in x.outbox && Claimable(x.outbox[id], x.db.now)
    ensures
      var y := Next(x, Receive(c, id, receipt));
      && c in y.consumers
      && y.consumers[c] == Consumer(x.outbox[id].event, receipt, x.outbox[id].attempts + 1, Consuming)
      && y.db == x.db && HeldBy(y.outbox, id, receipt) && y.outbox[id].event == x.outbox[id].event
      && y.outbox[id].attempts == x.outbox[id].attempts + 1
  {
    LeaseOutcome(x.outbox, id, receipt, x.db.now, map[], "");
  }

  lemma Consumed(x: World, c: nat)
    requires c in x.consumers && x.consumers[c].phase.Consuming? && Consumable(x.consumers[c].event)
    ensures
      var (db, r) := StoreFinalTurn(x.db, x.consumers[c].event);
      var y := Next(x, Consume(c, Fine));
      && y.db == db && y.outbox == x.outbox && c in y.consumers
      && y.consumers[c] == x.consumers[c].(phase := Settling(Decide(r, x.consumers[c].attempts)))
  {
    hide Consumable, StoreFinalTurn;
  }

  /** What becomes of an event that waits in the outbox, when nobody interferes: it is stored and acknowledged
      if it can be stored, and rejected otherwise. */
  lemma EventIsDelivered(x: World, c: nat, id: Id, receipt: Id)
    requires WorldInv(x) && c !in x.consumers && receipt !in x.receipts
    requires id in x.outbox && Claimable(x.outbox[id], x.db.now) && Consumable(x.outbox[id].event)
    ensures
      var e := x.outbox[id].event;
      var y := Run(x, Delivery(c, id, receipt, Fine));
      var storable := IsReplay(x.db, e) || (IsFresh(x.db, e) && ParticipantKnown(x.db, e)
                                            && (ShouldEnqueue(e) ==> e.session in x.db.sessions));
      && id in y.outbox && c !in y.consumers
      && (storable ==> Stored(y.db, e) && y.outbox[id].status == Acked)
      && (!storable ==> y.db == x.db && y.outbox[id].status == Rejected)
  {
    var e := x.outbox[id].event;
    var x1 := Next(x, Receive(c, id, receipt));
    var x2 := Next(x1, Consume(c, Fine));
    ThreeSteps(x, Receive(c, id, receipt), Consume(c, Fine), SettleDelivery(c));
    Received(x, c, id, receipt);
    Consumed(x1, c);
    StoreSucceedsIff(x.db, e);
    UnknownEvents(x.db, e);
    if IsFresh(x.db, e) {
      StoreOutcome(x.db, e);
    }
    if StoreFinalTurn(x.db, e).1.Ok? {
      ConsumedIsStored(x.db, e, Fine);
    }
    SettleOutcome(x2.outbox, id, receipt, x2.consumers[c].phase.verdict, x2.db.now);
    hide WorldInv, Consumable, IsFresh, IsReplay, StoreFinalTurn, Stored, Settle, ParticipantKnown, ShouldEnqueue, Run;
  }

  /** While the database cannot be reached an event is given back for a second later, seven times; the eighth
      attempt rejects it. */
  lemma EventIsTriedAgain(x: World, c: nat, id: Id, receipt: Id)
    requires WorldInv(x) && c !in x.consumers && receipt !in x.receipts
    requires id in x.outbox && Claimable(x.outbox[id], x.db.now) && Consumable(x.outbox[id].event)
    ensures
      var y := Run(x, Delivery(c, id, receipt, FailsBefore));
      && id in y.outbox && c !in y.consumers && y.db == x.db && y.outbox[id].attempts == x.outbox[id].attempts + 1
      && y.outbox[id].status == (if y.outbox[id].attempts < 8 then Waiting else Rejected)
      && (y.outbox[id].status == Waiting ==> y.outbox[id].availableAt == x.db.now + 1)
  {
    var x1 := Next(x, Receive(c, id, receipt));
    var x2 := Next(x1, Consume(c, FailsBefore));
    ThreeSteps(x, Receive(c, id, receipt), Consume(c, FailsBefore), SettleDelivery(c));
    Received(x, c, id, receipt);
    SettleOutcome(x2.outbox, id, receipt, x2.consumers[c].phase.verdict, x2.db.now);
    hide WorldInv, Consumable, StoreFinalTurn, Settle, Run;
  }

  // ----- attribution

  lemma ReceivedTask(x: World, w: nat, t: Id, receipt: Id)
    requires w !in x.workers && receipt !in x.receipts
    requires t in x.db.tasks && TaskClaimable(x.db.tasks[t], x.db.now)
    ensures
      var y := Next(x, ReceiveTask(w, t, receipt));
      && w in y.workers && y.workers[w].turn == t && y.workers[w].receipt == receipt && y.workers[w].phase == Resolving
      && y.applied == x.applied && y.db.turns == x.db.turns && y.db.participants == x.db.participants
      && TaskHeldBy(y.db.tasks, t, receipt) && y.workers[w].attempts == y.db.tasks[t].attempts
  {
    LeaseOutcome(map[], "", receipt, x.db.now, x.db.tasks, t);
  }

  lemma AppliedDecision(x: World, w: nat, u: Update, at: Time)
    requires w in x.workers && x.workers[w].phase == Applying(u) && ValidUpdate(u) && x.workers[w].turn == u.turn
    requires u.turn in x.db.turns && Unresolved(x.db.turns[u.turn].status)
    requires (x.db.turns[u.turn].session, u.participant) in x.db.participants
    ensures
      var y := Next(x, Apply(w, Fine, at, false));
      && u.turn in y.db.turns && y.db.tasks == x.db.tasks && y.applied == x.applied + [u.turn]
      && AttributedTo(x.db.turns[u.turn], y.db.turns[u.turn], u,
                      x.db.participants[(x.db.turns[u.turn].session, u.participant)])
      && w in y.workers && y.workers[w] == x.workers[w].(phase := SettlingTask(Done))
  {
    CorrectOutcome(x.db, u);
    hide CorrectAttribution, AttributedTo;
  }

  lemma SettledWork(x: World, w: nat)
    requires w in x.workers && x.workers[w].phase == SettlingTask(Done)
    requires TaskHeldBy(x.db.tasks, x.workers[w].turn, x.workers[w].receipt)
    ensures
      var t := x.workers[w].turn;
      var y := Next(x, SettleWork(w, None));
      && w !in y.workers && y.applied == x.applied && y.db.turns == x.db.turns
      && t in y.db.tasks && y.db.tasks[t].status == Completed
  {
    SettleTaskOutcome(x.db.tasks, x.workers[w].turn, x.workers[w].receipt, Done, None);
  }

  /** A row whose time has come, for a turn that is still unresolved, and a decision for a participant its
      session knows: when nobody interferes the turn is attributed as decided, and the row is done. */
  lemma TurnIsAttributed(x: World, w: nat, t: Id, receipt: Id, decision: Resolution, at: Time)
    requires w !in x.workers && receipt !in x.receipts
    requires t != "" && t in x.db.turns && Unresolved(x.db.turns[t].status)
    requires t in x.db.tasks && TaskClaimable(x.db.tasks[t], x.db.now)
    requires decision.Move? && decision.participant != "" && !Unresolved(decision.status)
    requires (x.db.turns[t].session, decision.participant) in x.db.participants
    ensures
      var y := Run(x, Attributed(w, t, receipt, decision, at));
      var u := Update(t, decision.participant, decision.status, decision.confidenceSet, decision.confidence, at, true);
      && t in y.db.turns && t in y.db.tasks && y.db.tasks[t].status == Completed
      && AttributedTo(x.db.turns[t], y.db.turns[t], u, x.db.participants[(x.db.turns[t].session, decision.participant)])
      && y.applied == x.applied + [t] && w !in y.workers
  {
    var u := Update(t, decision.participant, decision.status, decision.confidenceSet, decision.confidence, at, true);
    assert ValidUpdate(u);
    hide AttributedTo, Run, ValidUpdate;
    FourSteps(x, ReceiveTask(w, t, receipt), Resolve(w, decision, at, false), Apply(w, Fine, at, false),
              SettleWork(w, None));
    var x1 := Next(x, ReceiveTask(w, t, receipt));
    ReceivedTask(x, w, t, receipt);
    var x2 := Next(x1, Resolve(w, decision, at, false));
    assert x2 == x1.(workers := WorkerGoto(x1, w, Applying(u)));
    hide Next;
    AppliedDecision(x2, w, u, at);
    SettledWork(Next(x2, Apply(w, Fine, at, false)), w);
  }

  /** A worker that decides and applies its decision does to the turn, and settles, what its handler does. */
  lemma WorkerHandles(x: World, w: nat, resolution: Resolution, at: Time, shutdown: bool)
    requires w in x.workers && x.workers[w].phase == Resolving
    ensures
      var q := x.workers[w];
      var (db, v) := Attributing(x.db, q.turn, resolution, q.attempts, shutdown, at, at);
      var y := Next(Next(x, Resolve(w, resolution, at, shutdown)), Apply(w, Fine, at, shutdown));
      && y.db == db && y.outbox == x.outbox && y.consumers == x.consumers
      && (v.None? ==> w !in y.workers)
      && (v.Some? ==> w in y.workers && y.workers[w] == q.(phase := SettlingTask(v.value)))
  {
    hide CorrectAttribution;
  }

  /** A decision whose call is lost counts as a failed attempt, whether it took effect or not. */
  lemma LostApplicationFails(x: World, w: nat, luck: Luck, retryAt: Time, stopping: bool)
    requires w in x.workers && x.workers[w].phase.Applying? && !luck.Fine?
    ensures
      var q := x.workers[w];
      var v := SettleFailure(false, q.attempts, stopping, retryAt);
      var y := Next(x, Apply(w, luck, retryAt, stopping));
      && y.db == (if luck.FailsBefore? then x.db else CorrectAttribution(x.db, q.phase.update).0)
      && (v.None? ==> w !in y.workers)
      && (v.Some? ==> w in y.workers && y.workers[w] == q.(phase := SettlingTask(v.value)))
  {
    hide CorrectAttribution;
  }

  // ----- what may come in between

  /** The session and the speaker of an event become known. */
  function Introduced(x: World, e: Event, speaker: Speaker): World {
    var y := Next(x, AddSession(e.session));
    if e.participant.Some? then Next(y, PutParticipant(e.session, e.participant.value, speaker)) else y
  }

  lemma IntroducedIsKnown(x: World, e: Event, speaker: Speaker)
    requires WorldInv(x)
    ensures
      var y := Introduced(x, e, speaker);
      && WorldInv(y) && ParticipantKnown(y.db, e) && e.session in y.db.sessions
      && y == x.(db := y.db) && y.db.turns == x.db.turns
  {
    hide WorldInv;
    StepKeeps(x, AddSession(e.session));
    if e.participant.Some? {
      StepKeeps(Next(x, AddSession(e.session)), PutParticipant(e.session, e.participant.value, speaker));
    }
  }

  /** Once its session and speaker are known, an event that is published for the first time gets stored. */
  lemma PublishedIsDelivered(x: World, e: Event, speaker: Speaker, c: nat, receipt: Id)
    requires WorldInv(x) && Consumable(e) && e.eventId !in x.outbox && IsFresh(x.db, e)
    requires c !in x.consumers && receipt !in x.receipts
    ensures
      var y := Run(Next(Introduced(x, e, speaker), Publish(e)), Delivery(c, e.eventId, receipt, Fine));
      && Stored(y.db, e) && e.eventId in y.outbox && y.outbox[e.eventId].status == Acked
  {
    hide Introduced, WorldInv, IsFresh, Run, Stored, Consumable, ShouldEnqueue, ParticipantKnown, Delivery;
    var x1 := Introduced(x, e, speaker);
    IntroducedIsKnown(x, e, speaker);
    FreshStaysFresh(x.db, x1.db, e);
    StepKeeps(x1, Publish(e));
    PublishedWaits(x1, e);
    hide Next;
    EventIsDelivered(Next(x1, Publish(e)), c, e.eventId, receipt);
  }

  lemma PublishedWaits(x: World, e: Event)
    requires Consumable(e) && e.eventId !in x.outbox
    ensures
      var y := Next(x, Publish(e));
      && y == x.(outbox := y.outbox) && e.eventId in y.outbox && y.outbox[e.eventId].event == e
      && Claimable(y.outbox[e.eventId], y.db.now)
  {
    AppendOutcome(x.outbox, e, x.db.now);
    hide WellFormed;
  }

  lemma FreshStaysFresh(a: Db, b: Db, e: Event)
    requires b.turns == a.turns && IsFresh(a, e)
    ensures IsFresh(b, e)
  {
  }

  /** A delivery whose receiver is lost comes back to another one as soon as its lease has run out, and so does
      an attribution row. */
  lemma LostLeaseComesBack(x: World, c: nat, d: nat, receipt: Id, wait: nat)
    requires WorldInv(x) && c in x.consumers && d !in x.consumers && receipt !in x.receipts
    requires HeldBy(x.outbox, x.consumers[c].event.eventId, x.consumers[c].receipt)
    ensures
      var e := x.consumers[c].event;
      var y := Next(Next(Next(x, LoseConsumer(c)), Pass(wait)), Receive(d, e.eventId, receipt));
      && c !in y.consumers && (d in y.consumers <==> x.outbox[e.eventId].lockedUntil <= x.db.now + wait)
      && (d in y.consumers ==> y.consumers[d].event == e && HeldBy(y.outbox, e.eventId, receipt))
  {
    hide Stored;
  }

  lemma LostWorkComesBack(x: World, v: nat, w: nat, receipt: Id, wait: nat)
    requires v in x.workers && w !in x.workers && receipt !in x.receipts
    requires TaskHeldBy(x.db.tasks, x.workers[v].turn, x.workers[v].receipt)
    ensures
      var t := x.workers[v].turn;
      var y := Next(Next(Next(x, LoseWorker(v)), Pass(wait)), ReceiveTask(w, t, receipt));
      && v !in y.workers && (w in y.workers <==> x.db.tasks[t].lockedUntil <= x.db.now + wait)
      && (w in y.workers ==> y.workers[w].turn == t && TaskHeldBy(y.db.tasks, t, receipt))
  {
  }

  /** A correction by hand attributes a turn whatever was decided before. */
  lemma ManualCorrectionCounts(x: World, u: Update)
    requires ValidUpdate(u) && !u.onlyIfUnresolved && u.turn in x.db.turns
    requires (x.db.turns[u.turn].session, u.participant) in x.db.participants
    ensures
      var y := Next(x, CorrectByHand(u));
      && u.turn in y.db.turns
      && AttributedTo(x.db.turns[u.turn], y.db.turns[u.turn], u,
                      x.db.participants[(x.db.turns[u.turn].session, u.participant)])
  {
    CorrectOutcome(x.db, u);
    hide CorrectAttribution;
  }
}

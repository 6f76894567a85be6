/** Over any redeliveries, conflicting payloads, crashes between commit and acknowledgement, and manual
    corrections: nothing is stored twice, nothing acknowledged is missing, and asynchronous attribution
    changes a turn at most once. */
module TurnDeliverySafety {
  import opened Wrappers
  import opened TurnStore
  import opened TurnDelivery

  // ----- the invariant

  predicate Stored(db: Db, e: Event) {
    e.turnId in db.turns && HashMatches(e, db.turns[e.turnId].hash)
  }

  ghost predicate OutboxKept(x: World) {
    forall id :: id in x.outbox ==>
      && x.outbox[id].event.eventId == id
      && (x.outbox[id].status == Leased <==> x.outbox[id].receipt.Some?)
      && (x.outbox[id].receipt.Some? ==> x.outbox[id].receipt.value in x.receipts)
      && (x.outbox[id].status == Acked ==> Stored(x.db, x.outbox[id].event))
  }

  ghost predicate ConsumersKept(x: World) {
    && (forall c :: c in x.consumers ==>
          && x.consumers[c].event.eventId in x.outbox
          && x.outbox[x.consumers[c].event.eventId].event == x.consumers[c].event
          && x.consumers[c].receipt in x.receipts
          && (x.consumers[c].phase == Settling(Ack) ==> Stored(x.db, x.consumers[c].event)))
    && (forall c, d :: c in x.consumers && d in x.consumers && x.consumers[c].receipt == x.consumers[d].receipt ==>
          c == d)
  }

  ghost predicate WorkersKept(x: World) {
    && (forall w :: w in x.workers ==>
          && x.workers[w].receipt in x.receipts
          && (x.workers[w].phase.Applying? ==>
                x.workers[w].phase.update.turn == x.workers[w].turn && x.workers[w].phase.update.onlyIfUnresolved))
    && (forall v, w :: v in x.workers && w in x.workers && x.workers[v].receipt == x.workers[w].receipt ==> v == w)
  }

  ghost predicate AppliedOnce(x: World) {
    && (forall i :: 0 <= i < |x.applied| ==> x.applied[i] in x.db.turns && !Unresolved(x.db.turns[x.applied[i]].status))
    && (forall i, j :: 0 <= i < j < |x.applied| ==> x.applied[i] != x.applied[j])
  }

  ghost predicate WorldInv(x: World) {
    Inv(x.db) && OutboxKept(x) && ConsumersKept(x) && WorkersKept(x) && AppliedOnce(x)
  }

  lemma StoredStays(a: Db, b: Db, e: Event)
    requires Evolves(a, b) && Stored(a, e)
    ensures Stored(b, e)
  {
  }

  // ----- the tables

  lemma TasksOnly(db: Db, tasks: map<Id, Task>)
    requires tasks.Keys == db.tasks.Keys && forall t :: t in tasks ==> tasks[t].session == db.tasks[t].session
    ensures Evolves(db, db.(tasks := tasks))
    ensures Inv(db) ==> Inv(db.(tasks := tasks))
  {
  }

  lemma StepTables(x: World, step: Step)
    requires Inv(x.db)
    ensures Inv(Next(x, step).db) && Evolves(x.db, Next(x, step).db)
  {
    hide Inv, Evolves, StoreFinalTurn, CorrectAttribution, Append, Settle, Decide, Consumable;
    Same(x.db);
    match step
    case Consume(c, luck) =>
      if c in x.consumers {
        StoreKeeps(x.db, x.consumers[c].event);
        StoreEvolves(x.db, x.consumers[c].event);
      }
    case ReceiveTask(w, turn, receipt) => TasksOnly(x.db, ClaimTask(x.db.tasks, turn, receipt, x.db.now));
    case Apply(w, luck, retryAt, stopping) =>
      if w in x.workers && x.workers[w].phase.Applying? {
        CorrectKeeps(x.db, x.workers[w].phase.update);
        CorrectEvolves(x.db, x.workers[w].phase.update);
      }
    case SettleWork(w, lastError) =>
      if w in x.workers && x.workers[w].phase.SettlingTask? {
        var q := x.workers[w];
        TasksOnly(x.db, SettleTask(x.db.tasks, q.turn, q.receipt, q.phase.verdict, lastError));
      }
    case CorrectByHand(u) =>
      CorrectKeeps(x.db, u);
      CorrectEvolves(x.db, u);
    case AddSession(s) => Elsewhere(x.db, x.db.participants, x.db.sessions + {s});
    case PutParticipant(s, p, speaker) => Elsewhere(x.db, x.db.participants[(s, p) := speaker], x.db.sessions);
    case Pass(d) => Later(x.db, d);
    case _ =>
  }

  lemma Same(db: Db)
    ensures Evolves(db, db)
  {
  }

  lemma Later(db: Db, d: nat)
    ensures Evolves(db, db.(now := db.now + d))
    ensures Inv(db) ==> Inv(db.(now := db.now + d))
  {
  }

  /** Sessions and speakers come and change without touching turns. */
  lemma Elsewhere(db: Db, participants: map<(Id, Id), Speaker>, sessions: set<Id>)
    ensures Evolves(db, db.(participants := participants, sessions := sessions))
    ensures Inv(db) ==> Inv(db.(participants := participants, sessions := sessions))
  {
  }

  // ----- deliveries

  lemma ConsumedIsStored(db: Db, e: Event, luck: Luck)
    requires Inv(db)
    requires Consumption(db, e, luck).1.Ok?
    ensures Stored(Consumption(db, e, luck).0, e)
  {
    hide IsFresh;
    StoredHasRow(db, e);
  }

  lemma OutboxSame(x: World, y: World)
    requires OutboxKept(x) && y.outbox == x.outbox && x.receipts <= y.receipts && Evolves(x.db, y.db)
    ensures OutboxKept(y)
  {
    forall id | id in x.outbox && Stored(x.db, x.outbox[id].event) ensures Stored(y.db, x.outbox[id].event) {
      StoredStays(x.db, y.db, x.outbox[id].event);
    }
    hide Evolves, Stored;
  }

  lemma PublishOutbox(x: World, e: Event)
    requires OutboxKept(x)
    ensures OutboxKept(Next(x, Publish(e)))
  {
    hide Stored, WellFormed;
  }

  lemma ReceiveOutbox(x: World, c: nat, id: Id, receipt: Id)
    requires OutboxKept(x)
    ensures OutboxKept(Next(x, Receive(c, id, receipt)))
  {
    hide Stored;
  }

  lemma SettleOutbox(x: World, c: nat)
    requires OutboxKept(x) && ConsumersKept(x)
    ensures OutboxKept(Next(x, SettleDelivery(c)))
  {
    hide Stored;
  }

  lemma OthersLeaveOutbox(x: World, step: Step)
    requires !step.Publish? && !step.Receive? && !step.SettleDelivery?
    ensures Next(x, step).outbox == x.outbox && x.receipts <= Next(x, step).receipts
  {
    hide Consumption, CorrectAttribution, ClaimTask, SettleTask;
  }

  lemma StepOutbox(x: World, step: Step)
    requires Inv(x.db) && OutboxKept(x) && ConsumersKept(x)
    ensures OutboxKept(Next(x, step))
  {
    hide Inv, OutboxKept, ConsumersKept, Evolves, Next;
    match step
    case Publish(e) => PublishOutbox(x, e);
    case Receive(c, id, receipt) => ReceiveOutbox(x, c, id, receipt);
    case SettleDelivery(c) => SettleOutbox(x, c);
    case _ =>
      StepTables(x, step);
      OthersLeaveOutbox(x, step);
      OutboxSame(x, Next(x, step));
  }

  lemma StoredEventsStay(x: World, step: Step)
    requires Inv(x.db)
    ensures forall d :: d in x.consumers && Stored(x.db, x.consumers[d].event) ==>
              Stored(Next(x, step).db, x.consumers[d].event)
  {
    hide Stored, Next;
    StepTables(x, step);
    forall d | d in x.consumers && Stored(x.db, x.consumers[d].event)
      ensures Stored(Next(x, step).db, x.consumers[d].event)
    {
      StoredStays(x.db, Next(x, step).db, x.consumers[d].event);
    }
  }

  lemma ConsumeKeepsConsumers(x: World, c: nat, luck: Luck)
    requires Inv(x.db) && ConsumersKept(x)
    ensures ConsumersKept(Next(x, Consume(c, luck)))
  {
    hide Inv, Evolves, Stored, Consumption;
    StoredEventsStay(x, Consume(c, luck));
    if c in x.consumers && Consumption(x.db, x.consumers[c].event, luck).1.Ok? {
      ConsumedIsStored(x.db, x.consumers[c].event, luck);
    }
  }

  lemma ConsumersSame(x: World, y: World)
    requires ConsumersKept(x) && x.receipts <= y.receipts && Evolves(x.db, y.db)
    requires forall c :: c in y.consumers ==> c in x.consumers && y.consumers[c] == x.consumers[c]
    requires forall id :: id in x.outbox ==> id in y.outbox && y.outbox[id].event == x.outbox[id].event
    ensures ConsumersKept(y)
  {
    forall c | c in x.consumers && Stored(x.db, x.consumers[c].event) ensures Stored(y.db, x.consumers[c].event) {
      StoredStays(x.db, y.db, x.consumers[c].event);
    }
    hide Evolves, Stored;
  }

  lemma ReceiveConsumers(x: World, c: nat, id: Id, receipt: Id)
    requires OutboxKept(x) && ConsumersKept(x)
    ensures ConsumersKept(Next(x, Receive(c, id, receipt)))
  {
    hide Stored;
  }

  /** Events are never changed or dropped from the outbox. */
  lemma EventsStay(x: World, step: Step)
    ensures forall id :: id in x.outbox ==>
              id in Next(x, step).outbox && Next(x, step).outbox[id].event == x.outbox[id].event
    ensures x.receipts <= Next(x, step).receipts
  {
    hide Consumption, CorrectAttribution, ClaimTask, SettleTask, WellFormed, SettleFailure;
  }

  lemma ConsumersLeave(x: World, step: Step)
    requires !step.Consume? && !step.Receive?
    ensures forall c :: c in Next(x, step).consumers ==>
              c in x.consumers && Next(x, step).consumers[c] == x.consumers[c]
  {
    hide Consumption, CorrectAttribution, ClaimTask, SettleTask, WellFormed, SettleFailure;
  }

  lemma StepConsumers(x: World, step: Step)
    requires Inv(x.db) && OutboxKept(x) && ConsumersKept(x)
    ensures ConsumersKept(Next(x, step))
  {
    match step
    case Consume(c, luck) => ConsumeKeepsConsumers(x, c, luck);
    case Receive(c, id, receipt) => ReceiveConsumers(x, c, id, receipt);
    case _ =>
      hide Inv, OutboxKept, ConsumersKept, Evolves, Next;
      StepTables(x, step);
      EventsStay(x, step);
      ConsumersLeave(x, step);
      ConsumersSame(x, Next(x, step));
  }

  // ----- attribution

  lemma WorkersMoved(x: World, y: World, w: nat)
    requires WorkersKept(x) && x.receipts <= y.receipts
    requires forall v :: v in y.workers ==> v in x.workers && y.workers[v].receipt == x.workers[v].receipt
                                            && y.workers[v].turn == x.workers[v].turn
    requires forall v :: v in y.workers && v != w ==> y.workers[v] == x.workers[v]
    requires w in y.workers && y.workers[w].phase.Applying? ==>
               y.workers[w].phase.update.turn == y.workers[w].turn && y.workers[w].phase.update.onlyIfUnresolved
    ensures WorkersKept(y)
  {
  }

  lemma ReceiveTaskWorkers(x: World, w: nat, turn: Id, receipt: Id)
    requires WorkersKept(x)
    ensures WorkersKept(Next(x, ReceiveTask(w, turn, receipt)))
  {
    hide ClaimTask;
  }

  lemma ApplyWorkers(x: World, w: nat, luck: Luck, retryAt: Time, stopping: bool)
    requires WorkersKept(x)
    ensures WorkersKept(Next(x, Apply(w, luck, retryAt, stopping)))
  {
    hide WorkersKept, CorrectAttribution;
    if w in x.workers && x.workers[w].phase.Applying? {
      WorkersMoved(x, Next(x, Apply(w, luck, retryAt, stopping)), w);
    }
  }

  lemma ResolveWorkers(x: World, w: nat, resolution: Resolution, at: Time, shutdown: bool)
    requires WorkersKept(x)
    ensures WorkersKept(Next(x, Resolve(w, resolution, at, shutdown)))
  {
    hide WorkersKept;
    AnyApplying(x, w);
    WorkersMoved(x, Next(x, Resolve(w, resolution, at, shutdown)), w);
  }

  lemma LeaveWorkers(x: World, step: Step)
    requires WorkersKept(x)
    requires step.SettleWork? || step.LoseWorker?
    ensures WorkersKept(Next(x, step))
  {
    hide WorkersKept, SettleTask;
    AnyApplying(x, step.w);
    WorkersMoved(x, Next(x, step), step.w);
  }

  /** All other steps leave the workers and their receipts alone. */
  lemma OthersLeaveWorkers(x: World, step: Step)
    requires !step.ReceiveTask? && !step.Resolve? && !step.Apply? && !step.SettleWork? && !step.LoseWorker?
    ensures Next(x, step).workers == x.workers && x.receipts <= Next(x, step).receipts
  {
    hide Consumption, CorrectAttribution, Append, Settle, Claim;
  }

  lemma SameWorkers(x: World, y: World)
    requires WorkersKept(x) && y.workers == x.workers && x.receipts <= y.receipts
    ensures WorkersKept(y)
  {
  }

  lemma StepWorkers(x: World, step: Step)
    requires WorkersKept(x)
    ensures WorkersKept(Next(x, step))
  {
    hide WorkersKept, Next;
    match step
    case ReceiveTask(w, turn, receipt) => ReceiveTaskWorkers(x, w, turn, receipt);
    case Resolve(w, resolution, at, shutdown) => ResolveWorkers(x, w, resolution, at, shutdown);
    case Apply(w, luck, retryAt, stopping) => ApplyWorkers(x, w, luck, retryAt, stopping);
    case SettleWork(_, _) => LeaveWorkers(x, step);
    case LoseWorker(_) => LeaveWorkers(x, step);
    case _ =>
      OthersLeaveWorkers(x, step);
      SameWorkers(x, Next(x, step));
  }

  lemma AnyApplying(x: World, w: nat)
    requires WorkersKept(x)
    ensures w in x.workers && x.workers[w].phase.Applying? ==>
              x.workers[w].phase.update.turn == x.workers[w].turn && x.workers[w].phase.update.onlyIfUnresolved
  {
  }

  /** A guarded correction takes effect only on an unresolved turn, and resolves it. */
  lemma GuardedCorrection(db: Db, u: Update)
    requires u.onlyIfUnresolved && CorrectAttribution(db, u).1.Ok?
    ensures u.turn in db.turns && Unresolved(db.turns[u.turn].status)
    ensures
      var after := CorrectAttribution(db, u).0;
      u.turn in after.turns && !Unresolved(after.turns[u.turn].status)
  {
  }

  lemma AppliedSame(x: World, y: World)
    requires AppliedOnce(x) && y.applied == x.applied && Evolves(x.db, y.db)
    ensures AppliedOnce(y)
  {
  }

  lemma AppliedMore(x: World, y: World, turn: Id)
    requires AppliedOnce(x) && Evolves(x.db, y.db) && y.applied == x.applied + [turn]
    requires turn in x.db.turns && Unresolved(x.db.turns[turn].status)
    requires turn in y.db.turns && !Unresolved(y.db.turns[turn].status)
    ensures AppliedOnce(y)
  {
    hide Unresolved;
  }

  lemma ApplyOnce(x: World, w: nat, luck: Luck, retryAt: Time, stopping: bool)
    requires Inv(x.db) && WorkersKept(x) && AppliedOnce(x)
    ensures AppliedOnce(Next(x, Apply(w, luck, retryAt, stopping)))
  {
    var y := Next(x, Apply(w, luck, retryAt, stopping));
    StepTables(x, Apply(w, luck, retryAt, stopping));
    hide Inv, AppliedOnce, CorrectAttribution, Unresolved, Evolves;
    if y.applied == x.applied {
      AppliedSame(x, y);
    } else {
      GuardedCorrection(x.db, x.workers[w].phase.update);
      AppliedMore(x, y, x.workers[w].turn);
    }
  }

  lemma OthersApplyNothing(x: World, step: Step)
    requires !step.Apply?
    ensures Next(x, step).applied == x.applied
  {
    hide Consumption, CorrectAttribution, ClaimTask, SettleTask, Append, Settle, Claim;
  }

  lemma StepApplied(x: World, step: Step)
    requires Inv(x.db) && WorkersKept(x) && AppliedOnce(x)
    ensures AppliedOnce(Next(x, step))
  {
    hide Inv, WorkersKept, AppliedOnce, Evolves, Next;
    if step.Apply? {
      ApplyOnce(x, step.w, step.applyLuck, step.retryAt, step.stopping);
    } else {
      StepTables(x, step);
      OthersApplyNothing(x, step);
      AppliedSame(x, Next(x, step));
    }
  }

  // ----- every run

  lemma StepKeeps(x: World, step: Step)
    requires WorldInv(x)
    ensures WorldInv(Next(x, step))
  {
    hide Inv, OutboxKept, ConsumersKept, WorkersKept, AppliedOnce, Next;
    StepTables(x, step);
    StepOutbox(x, step);
    StepConsumers(x, step);
    StepWorkers(x, step);
    StepApplied(x, step);
  }

  lemma {:induction false} RunKeeps(x: World, steps: seq<Step>)
    requires WorldInv(x)
    ensures WorldInv(Run(x, steps)) && Evolves(x.db, Run(x, steps).db)
    decreases |steps|
  {
    hide Inv, OutboxKept, ConsumersKept, WorkersKept, AppliedOnce, Next, Evolves;
    if steps == [] {
      Same(x.db);
    } else {
      StepKeeps(x, steps[0]);
      StepTables(x, steps[0]);
      RunKeeps(Next(x, steps[0]), steps[1..]);
      EvolvesTransitive(x.db, Next(x, steps[0]).db, Run(x, steps).db);
    }
  }

  // ----- the guarantees

  /** In every run the stored turns stay unique on event id, on turn id, and on session and sequence, carry
      the translation they were stored with, and have a task exactly if their event called for one. */
  lemma TurnsStayGenuine(participants: map<(Id, Id), Speaker>, sessions: set<Id>, steps: seq<Step>, t: Id, u: Id)
    requires
      var db := Run(Start(participants, sessions), steps).db;
      t in db.turns && u in db.turns
    ensures
      var db := Run(Start(participants, sessions), steps).db;
      && (db.turns[t].eventId == db.turns[u].eventId ==> t == u)
      && (db.turns[t].session == db.turns[u].session && db.turns[t].sequence == db.turns[u].sequence ==> t == u)
      && db.turns[t].text == db.turns[t].hash.text
      && (t in db.tasks <==> ShouldEnqueue(db.turns[t].hash))
  {
    RunKeeps(Start(participants, sessions), steps);
    hide ShouldEnqueue;
  }

  /** An acknowledged event is stored, and stays so: consuming it once more, from any later state, succeeds
      and changes nothing. */
  lemma AckedIsStoredForGood(
      participants: map<(Id, Id), Speaker>, sessions: set<Id>, steps: seq<Step>, more: seq<Step>, id: Id)
    requires
      var o := Run(Start(participants, sessions), steps).outbox;
      id in o && o[id].status == Acked
    ensures
      var x := Run(Start(participants, sessions), steps);
      var later := Run(x, more).db;
      StoreFinalTurn(later, x.outbox[id].event) == (later, Ok(()))
  {
    var x := Run(Start(participants, sessions), steps);
    RunKeeps(Start(participants, sessions), steps);
    RunKeeps(x, more);
    StoredStays(x.db, Run(x, more).db, x.outbox[id].event);
    hide KeysUnique, TasksMatch, OutboxKept, ConsumersKept, WorkersKept, AppliedOnce, ShouldEnqueue;
    StoredIsReplay(Run(x, more).db, x.outbox[id].event);
    ReplayChangesNothing(Run(x, more).db, x.outbox[id].event);
  }

  /** Asynchronous attribution changes a turn at most once, and what it changed is resolved from then on. */
  lemma AttributedAtMostOnce(participants: map<(Id, Id), Speaker>, sessions: set<Id>, steps: seq<Step>, i: nat, j: nat)
    requires
      var applied := Run(Start(participants, sessions), steps).applied;
      i < |applied| && j < |applied| && applied[i] == applied[j]
    ensures i == j
    ensures
      var x := Run(Start(participants, sessions), steps);
      x.applied[i] in x.db.turns && !Unresolved(x.db.turns[x.applied[i]].status)
  {
    RunKeeps(Start(participants, sessions), steps);
  }

  /** Of all the consumers that ever received an event, at most one holds it, and only that one can settle it. */
  lemma OneHolder(participants: map<(Id, Id), Speaker>, sessions: set<Id>, steps: seq<Step>, c: nat, d: nat)
    requires
      var x := Run(Start(participants, sessions), steps);
      && c in x.consumers && d in x.consumers && x.consumers[c].event.eventId == x.consumers[d].event.eventId
      && HeldBy(x.outbox, x.consumers[c].event.eventId, x.consumers[c].receipt)
      && HeldBy(x.outbox, x.consumers[d].event.eventId, x.consumers[d].receipt)
    ensures c == d
  {
    RunKeeps(Start(participants, sessions), steps);
  }

  /** Settling moves a row exactly when the receipt still holds it; a task likewise. */
  lemma SettlesIffHeld(o: Outbox, id: Id, receipt: Id, v: Verdict, tasks: map<Id, Task>, turn: Id, w: TaskVerdict,
                       error: Option<Id>, now: Time)
    ensures Settle(o, id, receipt, v, now) != o <==> HeldBy(o, id, receipt)
    ensures SettleTask(tasks, turn, receipt, w, error) != tasks <==> TaskHeldBy(tasks, turn, receipt)
  {
    if HeldBy(o, id, receipt) {
      assert Settle(o, id, receipt, v, now)[id].receipt != o[id].receipt;
    }
    if TaskHeldBy(tasks, turn, receipt) {
      assert SettleTask(tasks, turn, receipt, w, error)[turn].receipt != tasks[turn].receipt;
    }
  }

  /** An event is acknowledged exactly if it is stored and no call failed on the way, and put aside for good
      exactly if it can never be stored or was tried the allowed number of times. A stored event whose reply
      or scheduling was lost comes back. */
  lemma VerdictIff(db: Db, e: Event, luck: Luck, attempts: nat)
    requires Inv(db)
    ensures
      var (after, r) := Consumption(db, e, luck);
      && (Decide(r, attempts) == Ack <==> Consumable(e) && luck.Fine? && Stored(after, e))
      && (Decide(r, attempts) == Reject <==> r.Err? && (Permanent(r.error) || attempts >= MAX_ATTEMPTS))
      && (luck.Fine? && Consumable(e) && IsFresh(db, e) && ParticipantKnown(db, e) && e.session in db.sessions ==>
            Decide(r, attempts) == Ack && Stored(after, e) && !Stored(db, e))
  {
    if Consumption(db, e, luck).1.Ok? {
      ConsumedIsStored(db, e, luck);
    }
    if Stored(db, e) {
      StoredIsReplay(db, e);
      ReplayChangesNothing(db, e);
    }
    if IsFresh(db, e) {
      FreshIsNew(db, e);
      StoreSucceedsIff(db, e);
    }
    hide IsFresh, IsReplay, KeysUnique, TasksMatch;
  }
}

/** At-least-once delivery of final turns and of attribution tasks: rows are leased under fresh receipts,
    settled only under the receipt that holds them, and leased again when a lease runs out. */
module TurnDelivery {
  import opened Wrappers
  import opened TurnStore

  const LEASE: Time := 60

  const MAX_ATTEMPTS: nat := 8

  // ----- the outbox of final turns

  datatype OutStatus = Waiting | Leased | Acked | Rejected

  datatype OutRow = OutRow(
    event: Event, status: OutStatus, availableAt: Time, receipt: Option<Id>, lockedUntil: Time, attempts: nat)

  type Outbox = map<Id, OutRow>

  predicate Filled(s: Id) {
    s != ""
  }

  /** The fields every event must have before it enters durable delivery. */
  predicate WellFormed(e: Event) {
    && Filled(e.eventId) && Filled(e.traceId) && Filled(e.turnId) && Filled(e.session) && e.sequence > 0
    && Filled(e.text.sourceLanguage) && Filled(e.text.targetLanguage) && Filled(e.text.source)
    && Filled(e.text.translated)
    && Filled(e.speaker.code) && e.text.configVersion > 0
    && e.text.startedAt != 0 && e.text.endedAt != 0 && e.text.startedAt <= e.text.endedAt && e.text.occurredAt != 0
  }

  function Append(o: Outbox, e: Event, now: Time): (Outbox, Result<(), Error>) {
    if !WellFormed(e) then (o, Err(InvalidRequest))
    else if e.eventId !in o then (o[e.eventId := OutRow(e, Waiting, now, None, 0, 0)], Ok(()))
    else (o, if HashMatches(e, o[e.eventId].event) then Ok(()) else Err(Conflict))
  }

  predicate Claimable(row: OutRow, now: Time) {
    (row.status == Waiting && row.availableAt <= now) || (row.status == Leased && row.lockedUntil <= now)
  }

  function Claim(o: Outbox, id: Id, receipt: Id, now: Time): Outbox {
    if id in o && Claimable(o[id], now) then
      o[id := o[id].(status := Leased, receipt := Some(receipt), lockedUntil := now + LEASE,
                       attempts := o[id].attempts + 1)]
    else o
  }

  datatype Verdict = Ack | Nack | Reject

  predicate HeldBy(o: Outbox, id: Id, receipt: Id) {
    id in o && o[id].status == Leased && o[id].receipt == Some(receipt)
  }

  /** A receipt that no longer holds its row settles nothing, and that is not an error. */
  function Settle(o: Outbox, id: Id, receipt: Id, v: Verdict, now: Time): Outbox {
    if !HeldBy(o, id, receipt) then o
    else
      var row := o[id].(receipt := None, lockedUntil := 0);
      o[id := match v
              case Ack => row.(status := Acked)
              case Nack => row.(status := Waiting, availableAt := now + 1)
              case Reject => row.(status := Rejected)]
  }

  // ----- consuming

  predicate Consumable(e: Event) {
    && WellFormed(e)
    && e.participant != Some("")
    && (e.participant.None? ==> e.status == Pending)
  }

  predicate Permanent(error: Error) {
    error == InvalidRequest || error == Conflict || error == NotFound
  }

  /** What the handler does with a delivery after consuming it. */
  function Decide(r: Result<(), Error>, attempts: nat): Verdict {
    match r
    case Ok(_) => Ack
    case Err(e) => if Permanent(e) || attempts >= MAX_ATTEMPTS then Reject else Nack
  }

  // ----- attribution tasks

  predicate TaskClaimable(task: Task, now: Time) {
    (task.status == Queued && task.availableAt <= now) || (task.status == Processing && task.lockedUntil <= now)
  }

  function ClaimTask(tasks: map<Id, Task>, turn: Id, receipt: Id, now: Time): map<Id, Task> {
    if turn in tasks && TaskClaimable(tasks[turn], now) then
      tasks[turn := tasks[turn].(status := Processing, receipt := Some(receipt), lockedUntil := now + LEASE,
                                 attempts := tasks[turn].attempts + 1)]
    else tasks
  }

  datatype TaskVerdict = Done | Retry(availableAt: Time) | Fail

  predicate TaskHeldBy(tasks: map<Id, Task>, turn: Id, receipt: Id) {
    turn in tasks && tasks[turn].status == Processing && tasks[turn].receipt == Some(receipt)
  }

  function SettleTask(tasks: map<Id, Task>, turn: Id, receipt: Id, v: TaskVerdict, error: Option<Id>): map<Id, Task> {
    if !TaskHeldBy(tasks, turn, receipt) then tasks
    else
      var task := tasks[turn].(receipt := None, lockedUntil := 0, lastError := error);
      tasks[turn := match v
                    case Done => task.(status := Completed)
                    case Retry(at) => task.(status := Queued, availableAt := at)
                    case Fail => task.(status := Failed)]
  }

  /** How a failed attempt settles: never during a shutdown, for good without evidence or after the last
      attempt, and by another attempt otherwise. */
  function SettleFailure(noEvidence: bool, attempts: nat, shutdown: bool, retryAt: Time): Option<TaskVerdict> {
    if shutdown then None else if noEvidence || attempts >= MAX_ATTEMPTS then Some(Fail) else Some(Retry(retryAt))
  }

  // ----- the two queues as they work on their tables

  class FinalTurnOutbox {
    var rows: Outbox

    constructor ()
      ensures rows == map[]
    {
      rows := map[];
    }

    method Publish(e: Event, now: Time) returns (r: Result<(), Error>)
      modifies this
      ensures (rows, r) == Append(old(rows), e, now)
    {
      if !WellFormed(e) { return Err(InvalidRequest); }
      if e.eventId !in rows {
        rows := rows[e.eventId := OutRow(e, Waiting, now, None, 0, 0)];
        return Ok(());
      }
      return if HashMatches(e, rows[e.eventId].event) then Ok(()) else Err(Conflict);
    }

    /** Leases some claimable row, or reports that there is none. */
    method ReceiveOnce(receipt: Id, now: Time) returns (id: Id, found: Option<OutRow>)
      modifies this
      ensures found.Some? ==> id in old(rows) && Claimable(old(rows)[id], now) && id in rows && found.value == rows[id]
      ensures found.Some? ==> rows == Claim(old(rows), id, receipt, now)
      ensures found.None? ==> rows == old(rows) && forall i :: i in rows ==> !Claimable(rows[i], now)
    {
      id := "";
      if i :| i in rows && Claimable(rows[i], now) {
        var row := rows[i];
        row := row.(status := Leased, receipt := Some(receipt), lockedUntil := now + LEASE,
                    attempts := row.attempts + 1);
        rows := rows[i := row];
        return i, Some(rows[i]);
      }
      return id, None;
    }

    method SettleRow(id: Id, receipt: Id, v: Verdict, now: Time)
      modifies this
      ensures rows == Settle(old(rows), id, receipt, v, now)
    {
      if id !in rows || rows[id].receipt != Some(receipt) || rows[id].status != Leased { return; }
      var row := rows[id].(receipt := None, lockedUntil := 0);
      match v {
        case Ack => row := row.(status := Acked);
        case Nack => row := row.(status := Waiting, availableAt := now + 1);
        case Reject => row := row.(status := Rejected);
      }
      rows := rows[id := row];
    }
  }

  class AttributionTaskStore {
    var tasks: map<Id, Task>

    constructor ()
      ensures tasks == map[]
    {
      tasks := map[];
    }

    method ReceiveOnce(receipt: Id, now: Time) returns (turn: Id, found: Option<Task>)
      modifies this
      ensures found.Some? ==> turn in old(tasks) && TaskClaimable(old(tasks)[turn], now)
      ensures found.Some? ==> turn in tasks && found.value == tasks[turn]
      ensures found.Some? ==> tasks == ClaimTask(old(tasks), turn, receipt, now)
      ensures found.None? ==> tasks == old(tasks) && forall t :: t in tasks ==> !TaskClaimable(tasks[t], now)
    {
      turn := "";
      if t :| t in tasks && TaskClaimable(tasks[t], now) {
        var task := tasks[t];
        tasks := tasks[t := task.(status := Processing, receipt := Some(receipt), lockedUntil := now + LEASE,
                                  attempts := task.attempts + 1)];
        return t, Some(tasks[t]);
      }
      return turn, None;
    }

    method Settle(turn: Id, receipt: Id, v: TaskVerdict, error: Option<Id>)
      modifies this
      ensures tasks == SettleTask(old(tasks), turn, receipt, v, error)
    {
      if turn !in tasks || tasks[turn].receipt != Some(receipt) || tasks[turn].status != Processing { return; }
      var task := tasks[turn].(receipt := None, lockedUntil := 0, lastError := error);
      match v {
        case Done => task := task.(status := Completed);
        case Retry(at) => task := task.(status := Queued, availableAt := at);
        case Fail => task := task.(status := Failed);
      }
      tasks := tasks[turn := task];
    }
  }

  // ----- handling one delivery

  /** Consumes an event and settles its delivery by what came of it. */
  class FinalTurnHandler {
    const writer: TurnWriter
    const outbox: FinalTurnOutbox

    constructor (writer: TurnWriter, outbox: FinalTurnOutbox)
      ensures this.writer == writer && this.outbox == outbox
    {
      this.writer, this.outbox := writer, outbox;
    }

    /** Stores a valid event and hands it to the scheduler; `luck` is how those two calls fare. */
    method Consume(e: Event, luck: Luck) returns (r: Result<(), Error>)
      modifies writer
      ensures (writer.State(), r) == Consumption(old(writer.State()), e, luck)
    {
      if !WellFormed(e) { return Err(InvalidRequest); }
      if e.participant == Some("") { return Err(InvalidRequest); }
      if e.participant.None? && e.status != Pending { return Err(InvalidRequest); }
      if luck.FailsBefore? { return Err(Transient); }
      r := writer.Store(e);
      if r.Err? { return; }
      if luck.FailsAfter? { r := Err(luck.error); }
    }

    /** Tells the outbox, which may not hear of it, or not be heard to have heard. */
    method Confirm(id: Id, receipt: Id, v: Verdict, now: Time, luck: Luck) returns (settled: bool)
      modifies outbox
      ensures outbox.rows == if luck.FailsBefore? then old(outbox.rows)
                             else Settle(old(outbox.rows), id, receipt, v, now)
      ensures settled == luck.Fine?
    {
      if luck.FailsBefore? { return false; }
      outbox.SettleRow(id, receipt, v, now);
      return luck.Fine?;
    }

    /** One delivery: `luck` is how consuming fares and `reach` how settling does. A failed settlement is
        reported and never followed by another one. */
    method Handle(e: Event, receipt: Id, attempts: nat, now: Time, luck: Luck, reach: Luck)
      returns (r: Result<(), Error>, settled: bool)
      modifies writer, outbox
      ensures (writer.State(), r) == Consumption(old(writer.State()), e, luck)
      ensures outbox.rows == if reach.FailsBefore? then old(outbox.rows)
                             else Settle(old(outbox.rows), e.eventId, receipt, Decide(r, attempts), now)
      ensures settled == reach.Fine?
    {
      r := Consume(e, luck);
      if r.Err? {
        if Permanent(r.error) || attempts >= MAX_ATTEMPTS {
          settled := Confirm(e.eventId, receipt, Reject, now, reach);
          return;
        }
        settled := Confirm(e.eventId, receipt, Nack, now, reach);
        return;
      }
      settled := Confirm(e.eventId, receipt, Ack, now, reach);
    }
  }

  /** What a worker leaves of a turn it was handed with this resolution, and how it settles, if at all. */
  function Attributing(db: Db, turn: Id, resolution: Resolution, attempts: nat, shutdown: bool, at: Time, retryAt: Time)
    : (Db, Option<TaskVerdict>)
  {
    match resolution
    case Keep => (db, Some(Done))
    case NoEvidence => (db, SettleFailure(true, attempts, shutdown, retryAt))
    case ResolverDown => (db, SettleFailure(false, attempts, shutdown, retryAt))
    case Move(participant, status, isSet, confidence) =>
      if participant == "" then (db, Some(Done))
      else
        var (after, r) := CorrectAttribution(db, Update(turn, participant, status, isSet, confidence, at, true));
        (after,
         if r.Ok? || r.error == StaleAttribution then Some(Done)
         else SettleFailure(false, attempts, shutdown, retryAt))
  }

  /** Applies a resolver's decision to a turn that is still unresolved, and settles the turn's row in the queue. */
  class AttributionWorker {
    const writer: TurnWriter
    const source: AttributionTaskStore

    constructor (writer: TurnWriter, source: AttributionTaskStore)
      ensures this.writer == writer && this.source == source
    {
      this.writer, this.source := writer, source;
    }

    method Fail(turn: Id, receipt: Id, noEvidence: bool, attempts: nat, shutdown: bool, retryAt: Time, error: Id)
      modifies source
      ensures source.tasks ==
                match SettleFailure(noEvidence, attempts, shutdown, retryAt)
                case None => old(source.tasks)
                case Some(v) => SettleTask(old(source.tasks), turn, receipt, v, Some(error))
    {
      if shutdown { return; }
      if noEvidence || attempts >= MAX_ATTEMPTS {
        source.Settle(turn, receipt, TaskVerdict.Fail, Some(error));
        return;
      }
      source.Settle(turn, receipt, Retry(retryAt), Some(error));
    }

    method Handle(turn: Id, receipt: Id, resolution: Resolution, attempts: nat, shutdown: bool,
                  at: Time, retryAt: Time, error: Id)
      modifies writer, source
      ensures
        var (after, verdict) := Attributing(old(writer.State()), turn, resolution, attempts, shutdown, at, retryAt);
        && writer.State() == after
        && source.tasks == match verdict
                           case None => old(source.tasks)
                           case Some(v) =>
                             SettleTask(old(source.tasks), turn, receipt, v, if v.Done? then None else Some(error))
    {
      match resolution {
        case Keep => source.Settle(turn, receipt, Done, None);
        case NoEvidence => Fail(turn, receipt, true, attempts, shutdown, retryAt, error);
        case ResolverDown => Fail(turn, receipt, false, attempts, shutdown, retryAt, error);
        case Move(participant, status, isSet, confidence) =>
          if participant == "" {
            source.Settle(turn, receipt, Done, None);
            return;
          }
          var r := writer.Correct(Update(turn, participant, status, isSet, confidence, at, true));
          if r.Err? && r.error != StaleAttribution {
            Fail(turn, receipt, false, attempts, shutdown, retryAt, error);
            return;
          }
          source.Settle(turn, receipt, Done, None);
      }
    }
  }

  // ----- everything running together

  datatype ConsumerPhase = Consuming | Settling(verdict: Verdict)

  datatype Consumer = Consumer(event: Event, receipt: Id, attempts: nat, phase: ConsumerPhase)

  datatype Resolution =
    | Keep
    | Move(participant: Id, status: Attribution, confidenceSet: bool, confidence: Option<int>)
    | NoEvidence
    | ResolverDown

  datatype WorkerPhase = Resolving | Applying(update: Update) | SettlingTask(verdict: TaskVerdict)

  datatype Worker = Worker(turn: Id, receipt: Id, attempts: nat, phase: WorkerPhase)

  // `receipts` are all receipts drawn so far; `applied` logs the turns that a worker's decision changed.
  datatype World = World(
    db: Db, outbox: Outbox, consumers: map<nat, Consumer>, workers: map<nat, Worker>, receipts: set<Id>,
    applied: seq<Id>)

  // A database call may fail before it takes effect or lose its reply afterwards; scheduling a stored
  // turn's delivery may fail as well.
  datatype Luck = Fine | FailsBefore | FailsAfter(error: Error)

  datatype Step =
    | Publish(event: Event)
    | Receive(c: nat, id: Id, receipt: Id)
    | Consume(c: nat, luck: Luck)
    | SettleDelivery(c: nat)
    | LoseConsumer(c: nat)
    | ReceiveTask(w: nat, turn: Id, taskReceipt: Id)
    | Resolve(w: nat, resolution: Resolution, at: Time, shutdown: bool)
    | Apply(w: nat, applyLuck: Luck, retryAt: Time, stopping: bool)
    | SettleWork(w: nat, lastError: Option<Id>)
    | LoseWorker(w: nat)
    | CorrectByHand(update: Update)
    | AddSession(session: Id)
    | PutParticipant(of: Id, participant: Id, speaker: Speaker)
    | Pass(elapsed: nat)

  /** What consuming an event comes to, and what it leaves in the tables. */
  function Consumption(db: Db, e: Event, luck: Luck): (Db, Result<(), Error>) {
    if !Consumable(e) then (db, Err(InvalidRequest))
    else match luck
      case FailsBefore => (db, Err(Transient))
      case Fine => StoreFinalTurn(db, e)
      case FailsAfter(error) =>
        var (after, r) := StoreFinalTurn(db, e);
        (after, if r.Ok? then Err(error) else r)
  }

  function WorkerGoto(x: World, w: nat, p: WorkerPhase): map<nat, Worker>
    requires w in x.workers
  {
    x.workers[w := x.workers[w].(phase := p)]
  }

  function AfterFailure(x: World, w: nat, v: Option<TaskVerdict>): map<nat, Worker>
    requires w in x.workers
  {
    if v.None? then x.workers - {w} else WorkerGoto(x, w, SettlingTask(v.value))
  }

  /** Steps that are not enabled change nothing. */
  function Next(x: World, step: Step): World {
    match step
    case Publish(e) => x.(outbox := Append(x.outbox, e, x.db.now).0)
    case Receive(c, id, receipt) =>
      if c !in x.consumers && receipt !in x.receipts && id in x.outbox && Claimable(x.outbox[id], x.db.now) then
        x.(outbox := Claim(x.outbox, id, receipt, x.db.now), receipts := x.receipts + {receipt},
           consumers := x.consumers[c := Consumer(x.outbox[id].event, receipt, x.outbox[id].attempts + 1, Consuming)])
      else x
    case Consume(c, luck) =>
      if c in x.consumers && x.consumers[c].phase.Consuming? then
        var q := x.consumers[c];
        var (after, r) := Consumption(x.db, q.event, luck);
        x.(db := after, consumers := x.consumers[c := q.(phase := Settling(Decide(r, q.attempts)))])
      else x
    case SettleDelivery(c) =>
      if c in x.consumers && x.consumers[c].phase.Settling? then
        var q := x.consumers[c];
        x.(outbox := Settle(x.outbox, q.event.eventId, q.receipt, q.phase.verdict, x.db.now),
           consumers := x.consumers - {c})
      else x
    case LoseConsumer(c) => x.(consumers := x.consumers - {c})
    case ReceiveTask(w, turn, receipt) =>
      if w !in x.workers && receipt !in x.receipts
         && turn in x.db.tasks && TaskClaimable(x.db.tasks[turn], x.db.now) then
        x.(db := x.db.(tasks := ClaimTask(x.db.tasks, turn, receipt, x.db.now)), receipts := x.receipts + {receipt},
           workers := x.workers[w := Worker(turn, receipt, x.db.tasks[turn].attempts + 1, Resolving)])
      else x
    case Resolve(w, resolution, at, shutdown) =>
      if w in x.workers && x.workers[w].phase.Resolving? then
        var q := x.workers[w];
        match resolution
        case Keep => x.(workers := WorkerGoto(x, w, SettlingTask(Done)))
        case Move(participant, status, isSet, confidence) =>
          if participant == "" then x.(workers := WorkerGoto(x, w, SettlingTask(Done)))
          else
            var update := Update(q.turn, participant, status, isSet, confidence, at, true);
            x.(workers := WorkerGoto(x, w, Applying(update)))
        case NoEvidence => x.(workers := AfterFailure(x, w, SettleFailure(true, q.attempts, shutdown, at)))
        case ResolverDown => x.(workers := AfterFailure(x, w, SettleFailure(false, q.attempts, shutdown, at)))
      else x
    case Apply(w, luck, retryAt, stopping) =>
      if w in x.workers && x.workers[w].phase.Applying? then
        var q := x.workers[w];
        var (after, r) := CorrectAttribution(x.db, q.phase.update);
        var failed := AfterFailure(x, w, SettleFailure(false, q.attempts, stopping, retryAt));
        if luck.FailsBefore? then x.(workers := failed)
        else
          var applied := if r.Ok? then x.applied + [q.turn] else x.applied;
          x.(db := after, applied := applied,
             workers := if luck.Fine? && (r.Ok? || r.error == StaleAttribution)
                        then WorkerGoto(x, w, SettlingTask(Done)) else failed)
      else x
    case SettleWork(w, lastError) =>
      if w in x.workers && x.workers[w].phase.SettlingTask? then
        var q := x.workers[w];
        x.(db := x.db.(tasks := SettleTask(x.db.tasks, q.turn, q.receipt, q.phase.verdict, lastError)),
           workers := x.workers - {w})
      else x
    case LoseWorker(w) => x.(workers := x.workers - {w})
    case CorrectByHand(u) => if u.onlyIfUnresolved then x else x.(db := CorrectAttribution(x.db, u).0)
    case AddSession(s) => x.(db := x.db.(sessions := x.db.sessions + {s}))
    case PutParticipant(s, p, speaker) => x.(db := x.db.(participants := x.db.participants[(s, p) := speaker]))
    case Pass(d) => x.(db := x.db.(now := x.db.now + d))
  }

  function Run(x: World, steps: seq<Step>): World
    decreases |steps|
  {
    if steps == [] then x else Run(Next(x, steps[0]), steps[1..])
  }

  /** Nothing delivered yet, in front of any set of sessions and speakers. */
  function Start(participants: map<(Id, Id), Speaker>, sessions: set<Id>): World {
    World(Db(map[], map[], participants, sessions, 0), map[], map[], map[], {}, [])
  }
}

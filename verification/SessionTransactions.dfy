/** Every repository transaction as one atomic step on the rows. Each locks the session row or the
    intent row before it reads or writes, so a run of the database is a sequence of these steps.
    A transaction that reports an error leaves the database as it was. */
module SessionTransactions {
  import opened Wrappers
  import opened SessionRows

  datatype BeginParams = BeginParams(operation: Id, session: Id, key: Id, hash: Id, at: Time)

  datatype OperationReply = OperationReply(id: Id, row: StartOperation)

  datatype ClaimParams = ClaimParams(session: Id, operation: Id, claim: Id, at: Time)

  datatype ClaimReply = Granted | SessionNotCreated | OperationMismatch | OperationNotPending

  datatype ActivateParams = ActivateParams(session: Id, operation: Id, key: Id, hash: Id, at: Time)

  datatype IntentParams = IntentParams(
    session: Id, reason: Id, key: Id, hash: Id, trace: Id, requestedAt: Time, owner: Id, leaseExpiresAt: Time)

  datatype EndParams = EndParams(session: Id, expected: Status, reason: Id, at: Time)

  datatype FailParams = FailParams(session: Id, expected: Status, code: Id, at: Time)

  datatype LeaseParams = LeaseParams(worker: Id, claimedAt: Time, leaseExpiresAt: Time)

  datatype RetryParams = RetryParams(session: Id, worker: Id, lastError: Id, retryAfter: nat)

  datatype FinishIntentParams = FinishIntentParams(session: Id, worker: Id, at: Time)

  // ----- creation

  ghost function Create(db: Db, session: Id, account: Id, at: Time): (Db, Result<Session, Error>) {
    if session == "" || account == "" || at == 0 then (db, Err(InvalidRequest))
    else if session in db.sessions then (db, Err(Storage))
    else
      var row := Session(account, Created, at, None, None);
      (db.(sessions := db.sessions[session := row]), Ok(row))
  }

  // ----- the start saga

  ghost function GetStartOperation(db: Db, session: Id, key: Id): Result<OperationReply, Error> {
    if session == "" || key == "" then Err(InvalidRequest)
    else if session !in db.sessions then Err(SessionNotFound)
    else
      var account := db.sessions[session].account;
      if KeyUsed(db, account, key) && db.operations[OpByKey(db, account, key)].session == session then
        var o := OpByKey(db, account, key);
        if db.operations[o].status == Compensated then Err(OperationNotFound)
        else Ok(OperationReply(o, db.operations[o]))
      else if HasUnresolved(db, session) then Err(StartInProgress)
      else Err(OperationNotFound)
  }

  function ClassifyBeginReplay(id: Id, existing: StartOperation, session: Id, account: Id, hash: Id)
    : Result<OperationReply, Error>
  {
    if existing.session != session || existing.account != account || existing.hash != hash then Err(KeyConflict)
    else match existing.status
      case Pending => Ok(OperationReply(id, existing))
      case Compensating => Ok(OperationReply(id, existing))
      case Completed => Ok(OperationReply(id, existing))
      case CompensationFailed => Err(StartInProgress)
      case Compensated => Err(KeyConflict)
  }

  ghost function BeginStartOperation(db: Db, p: BeginParams): (Db, Result<OperationReply, Error>) {
    if p.operation == "" || p.session == "" || p.key == "" || p.hash == "" || p.at == 0 then
      (db, Err(InvalidRequest))
    else if p.session !in db.sessions then (db, Err(SessionNotFound))
    else
      var account := db.sessions[p.session].account;
      if HasOpenIntent(db, p.session) then (db, Err(ConcurrentTransition))
      else if KeyUsed(db, account, p.key) then
        var o := OpByKey(db, account, p.key);
        (db, ClassifyBeginReplay(o, db.operations[o], p.session, account, p.hash))
      else if db.sessions[p.session].status != Created then (db, Err(ConcurrentTransition))
      else if HasUnresolved(db, p.session) then (db, Err(StartInProgress))
      else if p.operation in db.operations then (db, Err(Storage))
      else
        var row := StartOperation(p.session, account, p.key, p.hash, Pending, None, p.at, p.at, None);
        (db.(operations := db.operations[p.operation := row]), Ok(OperationReply(p.operation, row)))
  }

  ghost function ClaimStartCompensation(db: Db, p: ClaimParams): (Db, Result<ClaimReply, Error>) {
    if p.session == "" || p.operation == "" || p.claim == "" || p.at == 0 then (db, Err(InvalidRequest))
    else if p.session !in db.sessions then (db, Err(SessionNotFound))
    else if db.sessions[p.session].status != Created then (db, Ok(SessionNotCreated))
    else if p.operation !in db.operations || db.operations[p.operation].session != p.session then
      (db, Ok(OperationMismatch))
    else
      var op := db.operations[p.operation];
      if p.at < op.createdAt then (db, Err(InvalidRequest))
      else match op.status
        case Pending =>
          var row := op.(status := Compensating, claim := Some(p.claim), updatedAt := p.at);
          (db.(operations := db.operations[p.operation := row]), Ok(Granted))
        case Compensating => (db, Ok(if op.claim == Some(p.claim) then Granted else OperationNotPending))
        case Completed => (db, Ok(OperationNotPending))
        case Compensated => (db, Ok(OperationNotPending))
        case CompensationFailed => (db, Ok(OperationNotPending))
  }

  /** Which outcomes a compensation may record, given where the operation stands. */
  predicate OutcomeAllowed(status: OpStatus, complete: bool) {
    status == Compensating || status == CompensationFailed || (complete && status == Compensated)
  }

  ghost function FinishStartCompensation(db: Db, p: ClaimParams, complete: bool): (Db, Result<(), Error>) {
    if p.session == "" || p.operation == "" || p.claim == "" || p.at == 0 then (db, Err(InvalidRequest))
    else if p.session !in db.sessions then (db, Err(SessionNotFound))
    else if db.sessions[p.session].status != Created then (db, Err(ConcurrentTransition))
    else if p.operation !in db.operations || db.operations[p.operation].session != p.session then
      (db, Err(ConcurrentTransition))
    else
      var op := db.operations[p.operation];
      var target := if complete then Compensated else CompensationFailed;
      if op.claim != Some(p.claim) then (db, Err(ConcurrentTransition))
      else if p.at < op.createdAt then (db, Err(InvalidRequest))
      else if !OutcomeAllowed(op.status, complete) then (db, Err(ConcurrentTransition))
      else if op.status == target then (db, Ok(()))
      else
        (db.(operations := db.operations[p.operation := op.(status := target, updatedAt := p.at)]), Ok(()))
  }

  ghost function TransitionToActive(db: Db, p: ActivateParams): (Db, Result<Session, Error>) {
    if p.session == "" || p.operation == "" || p.key == "" || p.hash == "" || p.at == 0 then
      (db, Err(InvalidRequest))
    else if p.session !in db.sessions then (db, Err(SessionNotFound))
    else if p.operation !in db.operations || db.operations[p.operation].session != p.session then
      (db, Err(ConcurrentTransition))
    else
      var s := db.sessions[p.session];
      var op := db.operations[p.operation];
      if op.key != p.key then (db, Err(ConcurrentTransition))
      else if op.hash != p.hash then (db, Err(KeyConflict))
      else if op.status == Completed && s.status == Active then (db, Ok(s))
      else if op.status != Pending || s.status != Created || p.at < s.createdAt || p.at < op.createdAt then
        (db, Err(ConcurrentTransition))
      else
        var active := s.(status := Active, startedAt := Some(p.at));
        var done := op.(status := Completed, startedAt := Some(p.at), updatedAt := p.at);
        (db.(sessions := db.sessions[p.session := active], operations := db.operations[p.operation := done]),
         Ok(active))
  }

  // ----- ending

  ghost function SaveEndIntent(db: Db, p: IntentParams): (Db, Result<EndIntent, Error>) {
    if p.session == "" || p.key == "" || p.hash == "" || p.trace == "" || !ValidReason(p.reason)
       || p.requestedAt == 0 || p.owner == "" || p.leaseExpiresAt <= p.requestedAt then
      (db, Err(InvalidRequest))
    else if p.session !in db.sessions then (db, Err(SessionNotFound))
    else if HasUnresolved(db, p.session) then (db, Err(StartInProgress))
    else
      var lease := Some(db.now + (p.leaseExpiresAt - p.requestedAt));
      var account := db.sessions[p.session].account;
      if p.session in db.intents then
        var existing := db.intents[p.session];
        if existing.key != p.key || existing.hash != p.hash then (db, Err(KeyConflict))
        else if existing.completedAt.Some? then (db, Ok(existing))
        else if existing.lease.Some? && db.now < existing.lease.value then (db, Err(ConcurrentTransition))
        else
          var row := existing.(owner := Some(p.owner), lease := lease);
          (db.(intents := db.intents[p.session := row]), Ok(row))
      else if IntentKeyUsed(db, account, p.key) then (db, Err(KeyConflict))
      else
        var row := EndIntent(account, p.reason, p.key, p.hash, p.trace, p.requestedAt, None, 0, None,
                             db.now, Some(p.owner), lease);
        (db.(intents := db.intents[p.session := row]), Ok(row))
  }

  ghost function CompleteEndIntent(db: Db, session: Id, at: Time): (Db, Result<(), Error>) {
    if session == "" || at == 0 then (db, Err(InvalidRequest))
    else if session !in db.sessions then (db, Err(IntentNotFound))
    else if !Terminal(db.sessions[session].status) then (db, Err(ConcurrentTransition))
    else if session !in db.intents then (db, Err(IntentNotFound))
    else
      var intent := db.intents[session];
      if at < intent.requestedAt then (db, Err(InvalidRequest))
      else if intent.completedAt.Some? then (db, Ok(()))
      else
        (db.(intents := db.intents[session := intent.(completedAt := Some(at), owner := None, lease := None)]),
         Ok(()))
  }

  ghost function TransitionToEnded(db: Db, p: EndParams): (Db, Result<Session, Error>) {
    if p.session == "" || (p.expected != Created && p.expected != Active) || !ValidReason(p.reason) || p.at == 0 then
      (db, Err(InvalidRequest))
    else if p.session !in db.sessions then (db, Err(SessionNotFound))
    else
      var s := db.sessions[p.session];
      if s.status != p.expected || p.at < s.createdAt || (s.startedAt.Some? && p.at < s.startedAt.value) then
        (db, Err(ConcurrentTransition))
      else
        var row := s.(status := Ended, endedAt := Some(p.at));
        (db.(sessions := db.sessions[p.session := row]), Ok(row))
  }

  ghost function TransitionToFailed(db: Db, p: FailParams): (Db, Result<Session, Error>) {
    if p.session == "" || p.expected != Active || p.code == "" || p.at == 0 then (db, Err(InvalidRequest))
    else if p.session !in db.sessions then (db, Err(SessionNotFound))
    else
      var s := db.sessions[p.session];
      if s.status != Active || s.startedAt.None? || p.at < s.startedAt.value then
        (db, Err(ConcurrentTransition))
      else
        var row := s.(status := Failed, endedAt := Some(p.at));
        (db.(sessions := db.sessions[p.session := row]), Ok(row))
  }

  // ----- end recovery

  predicate Due(db: Db, s: Id) {
    && s in db.intents
    && db.intents[s].completedAt.None?
    && db.intents[s].nextAttemptAt <= db.now
    && (db.intents[s].lease.None? || db.intents[s].lease.value <= db.now)
  }

  /** Leases `pick`. The scan skips rows other transactions hold, so any due intent may be the one. */
  ghost function ClaimPendingEndIntent(db: Db, p: LeaseParams, pick: Id): (Db, Result<Option<EndIntent>, Error>) {
    if p.worker == "" || p.claimedAt == 0 || p.leaseExpiresAt <= p.claimedAt then (db, Err(InvalidRequest))
    else if !Due(db, pick) then (db, Ok(None))
    else
      var row := db.intents[pick].(owner := Some(p.worker),
                                   lease := Some(db.now + (p.leaseExpiresAt - p.claimedAt)));
      (db.(intents := db.intents[pick := row]), Ok(Some(row)))
  }

  predicate HoldsLease(db: Db, s: Id, worker: Id) {
    && s in db.intents
    && db.intents[s].completedAt.None?
    && db.intents[s].owner == Some(worker)
    && db.intents[s].lease.Some?
    && db.now < db.intents[s].lease.value
  }

  ghost function RetryClaimedEndIntent(db: Db, p: RetryParams): (Db, Result<(), Error>) {
    if p.session == "" || p.worker == "" || p.lastError == "" then (db, Err(InvalidRequest))
    else if !HoldsLease(db, p.session, p.worker) then (db, Err(ConcurrentTransition))
    else
      var i := db.intents[p.session];
      var row := i.(retryCount := i.retryCount + 1, lastError := Some(p.lastError),
                    nextAttemptAt := db.now + p.retryAfter, owner := None, lease := None);
      (db.(intents := db.intents[p.session := row]), Ok(()))
  }

  ghost function CompleteClaimedEndIntent(db: Db, p: FinishIntentParams): (Db, Result<(), Error>) {
    if p.session == "" || p.worker == "" || p.at == 0 then (db, Err(InvalidRequest))
    else if p.session !in db.sessions then (db, Err(IntentNotFound))
    else if !Terminal(db.sessions[p.session].status) then (db, Err(ConcurrentTransition))
    else if p.session !in db.intents then (db, Err(IntentNotFound))
    else
      var i := db.intents[p.session];
      if i.completedAt.Some? then (db, Ok(()))
      else if i.owner != Some(p.worker) then (db, Err(ConcurrentTransition))
      else if p.at < i.requestedAt then (db, Err(InvalidRequest))
      else if !HoldsLease(db, p.session, p.worker) then (db, Err(ConcurrentTransition))
      else
        (db.(intents := db.intents[p.session := i.(completedAt := Some(p.at), owner := None, lease := None)]), Ok(()))
  }

  // ----- one step of the database, whoever takes it

  datatype Tx =
    | CreateTx(session: Id, account: Id, at: Time)
    | BeginTx(begin: BeginParams)
    | ClaimTx(claim: ClaimParams)
    | FinishTx(finish: ClaimParams, complete: bool)
    | ActivateTx(activate: ActivateParams)
    | SaveEndTx(intent: IntentParams)
    | CompleteEndTx(doneSession: Id, doneAt: Time)
    | EndTx(end: EndParams)
    | FailTx(fail: FailParams)
    | LeaseTx(lease: LeaseParams, pick: Id)
    | RetryTx(retry: RetryParams)
    | CompleteClaimedTx(done: FinishIntentParams)
    | TickTx(elapsed: nat)

  ghost function Apply(db: Db, tx: Tx): Db {
    match tx
    case CreateTx(s, a, at) => Create(db, s, a, at).0
    case BeginTx(p) => BeginStartOperation(db, p).0
    case ClaimTx(p) => ClaimStartCompensation(db, p).0
    case FinishTx(p, c) => FinishStartCompensation(db, p, c).0
    case ActivateTx(p) => TransitionToActive(db, p).0
    case SaveEndTx(p) => SaveEndIntent(db, p).0
    case CompleteEndTx(s, at) => CompleteEndIntent(db, s, at).0
    case EndTx(p) => TransitionToEnded(db, p).0
    case FailTx(p) => TransitionToFailed(db, p).0
    case LeaseTx(p, s) => ClaimPendingEndIntent(db, p, s).0
    case RetryTx(p) => RetryClaimedEndIntent(db, p).0
    case CompleteClaimedTx(p) => CompleteClaimedEndIntent(db, p).0
    case TickTx(d) => db.(now := db.now + d)
  }

  /** The end intent a successful call hands to its caller. */
  ghost function Hands(db: Db, tx: Tx): set<Id> {
    match tx
    case SaveEndTx(p) => if SaveEndIntent(db, p).1.Ok? then {p.session} else {}
    case LeaseTx(p, s) =>
      var r := ClaimPendingEndIntent(db, p, s).1;
      if r.Ok? && r.value.Some? then {s} else {}
    case _ => {}
  }

  /** The one discipline the callers add: a session is ended only after a call was handed its end intent.
      `handed` holds those sessions. The source's callers use their own call's intent; here any will do. */
  predicate Lawful(handed: set<Id>, tx: Tx) {
    tx.EndTx? ==> tx.end.session in handed
  }

  ghost predicate LawfulRun(db: Db, handed: set<Id>, txs: seq<Tx>)
    decreases |txs|
  {
    txs == [] || (Lawful(handed, txs[0]) && LawfulRun(Apply(db, txs[0]), handed + Hands(db, txs[0]), txs[1..]))
  }

  ghost function Run(db: Db, txs: seq<Tx>): Db
    decreases |txs|
  {
    if txs == [] then db else Run(Apply(db, txs[0]), txs[1..])
  }
}

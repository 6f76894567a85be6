/** The rows behind the voice-session lifecycle: sessions, start operations and end intents.
    Foreign keys tie every operation and intent to its session's owner, so queries that filter by
    owner and session are written here with the session alone. */
module SessionRows {
  import opened Wrappers

  type Id = string

  // 0 is the zero timestamp, which every write path rejects.
  type Time = nat

  datatype Status = Created | Active | Ended | Failed

  datatype OpStatus = Pending | Compensating | Completed | Compensated | CompensationFailed

  datatype Session = Session(
    account: Id, status: Status, createdAt: Time, startedAt: Option<Time>, endedAt: Option<Time>)

  datatype StartOperation = StartOperation(
    session: Id, account: Id, key: Id, hash: Id, status: OpStatus, claim: Option<Id>,
    createdAt: Time, updatedAt: Time, startedAt: Option<Time>)

  datatype EndIntent = EndIntent(
    account: Id, reason: Id, key: Id, hash: Id, trace: Id, requestedAt: Time,
    completedAt: Option<Time>, retryCount: nat, lastError: Option<Id>, nextAttemptAt: Time,
    owner: Option<Id>, lease: Option<Time>)

  // `now` is the database clock that stamps and expires leases.
  datatype Db = Db(
    sessions: map<Id, Session>, operations: map<Id, StartOperation>, intents: map<Id, EndIntent>, now: Time)

  datatype Error =
    | InvalidRequest | SessionNotFound | IntentNotFound | OperationNotFound
    | ConcurrentTransition | KeyConflict | StartInProgress | Storage

  predicate ValidReason(reason: Id) {
    reason in {"user_requested", "operator_cancelled", "client_disconnected"}
  }

  predicate Terminal(status: Status) {
    status == Ended || status == Failed
  }

  predicate Unresolved(status: OpStatus) {
    status == Pending || status == Compensating || status == CompensationFailed
  }

  predicate IsUnresolved(db: Db, o: Id) {
    o in db.operations && Unresolved(db.operations[o].status)
  }

  predicate IsCompleted(db: Db, o: Id) {
    o in db.operations && db.operations[o].status == Completed
  }

  predicate HasUnresolved(db: Db, s: Id) {
    exists o :: o in db.operations && IsUnresolved(db, o) && db.operations[o].session == s
  }

  predicate HasCompleted(db: Db, s: Id) {
    exists o :: o in db.operations && IsCompleted(db, o) && db.operations[o].session == s
  }

  predicate HasOpenIntent(db: Db, s: Id) {
    s in db.intents && db.intents[s].completedAt.None?
  }

  predicate UsesKey(db: Db, o: Id, account: Id, key: Id) {
    o in db.operations && db.operations[o].account == account && db.operations[o].key == key
  }

  predicate KeyUsed(db: Db, account: Id, key: Id) {
    exists o :: o in db.operations && UsesKey(db, o, account, key)
  }

  ghost function OpByKey(db: Db, account: Id, key: Id): (o: Id)
    requires KeyUsed(db, account, key)
    ensures UsesKey(db, o, account, key)
  {
    var o :| UsesKey(db, o, account, key);
    o
  }

  predicate IntentKeyUsed(db: Db, account: Id, key: Id) {
    exists s :: s in db.intents && db.intents[s].account == account && db.intents[s].key == key
  }

  // ----- what every reachable database satisfies

  ghost predicate ForeignKeys(db: Db) {
    && (forall o :: o in db.operations ==>
          && db.operations[o].session in db.sessions
          && db.operations[o].account == db.sessions[db.operations[o].session].account)
    && (forall s :: s in db.intents ==> s in db.sessions && db.intents[s].account == db.sessions[s].account)
  }

  ghost predicate KeysUnique(db: Db) {
    forall o, q ::
      (&& o in db.operations && q in db.operations
       && db.operations[o].account == db.operations[q].account
       && db.operations[o].key == db.operations[q].key)
      ==> o == q
  }

  ghost predicate OneUnresolved(db: Db) {
    forall o, q ::
      (IsUnresolved(db, o) && IsUnresolved(db, q) && db.operations[o].session == db.operations[q].session) ==> o == q
  }

  ghost predicate OneCompleted(db: Db) {
    forall o, q ::
      (IsCompleted(db, o) && IsCompleted(db, q) && db.operations[o].session == db.operations[q].session) ==> o == q
  }

  /** Operations agree with the session they belong to. */
  ghost predicate StatusAgrees(db: Db)
    requires ForeignKeys(db)
  {
    && (forall o :: IsUnresolved(db, o) ==> db.sessions[db.operations[o].session].status == Created)
    && (forall o :: IsCompleted(db, o) ==> db.sessions[db.operations[o].session].status != Created)
  }

  /** Every session that ever started has the completed operation that started it. */
  ghost predicate StartsRecorded(db: Db) {
    forall s :: s in db.sessions && db.sessions[s].startedAt.Some? ==> HasCompleted(db, s)
  }

  /** Start and end exclude each other: an unresolved start operation means no end intent at all. */
  ghost predicate Interlock(db: Db) {
    forall o :: IsUnresolved(db, o) ==> db.operations[o].session !in db.intents
  }

  ghost predicate IntentShape(db: Db)
    requires ForeignKeys(db)
  {
    forall s :: s in db.intents ==>
      && (db.intents[s].owner.Some? <==> db.intents[s].lease.Some?)
      && (db.intents[s].completedAt.Some? ==> db.intents[s].owner.None? && Terminal(db.sessions[s].status))
      && (db.intents[s].completedAt.Some? ==> db.intents[s].requestedAt <= db.intents[s].completedAt.value)
  }

  predicate OpShape(op: StartOperation) {
    && op.createdAt <= op.updatedAt
    && (op.claim.Some? <==> op.status == Compensating || op.status == Compensated || op.status == CompensationFailed)
    && (op.startedAt.Some? <==> op.status == Completed)
  }

  predicate SessionShape(s: Session) {
    && (s.status == Created ==> s.startedAt.None?)
    && (s.status == Active || s.status == Failed ==> s.startedAt.Some?)
    && (s.endedAt.Some? <==> Terminal(s.status))
    && (s.startedAt.Some? ==> s.createdAt <= s.startedAt.value)
    && (s.endedAt.Some? ==> s.createdAt <= s.endedAt.value)
    && (s.endedAt.Some? && s.startedAt.Some? ==> s.startedAt.value <= s.endedAt.value)
  }

  ghost predicate RowInv(db: Db) {
    && ForeignKeys(db)
    && KeysUnique(db)
    && OneUnresolved(db)
    && OneCompleted(db)
    && StatusAgrees(db)
    && Interlock(db)
    && IntentShape(db)
    && (forall o :: o in db.operations ==> OpShape(db.operations[o]))
    && (forall s :: s in db.sessions ==> SessionShape(db.sessions[s]))
  }

  ghost predicate DbInv(db: Db) {
    RowInv(db) && StartsRecorded(db)
  }
}

/** What each repository transaction answers and writes, case by case: exactly when it takes effect, the row
    it leaves, and that everything else stays as it was. */
module SessionOutcomes {
  import opened Wrappers
  import opened SessionRows
  import opened SessionTransactions
  import opened SessionRuns
  import opened SessionHistory

  // ----- the extent of a change

  /** From `a` to `b` nothing changes but that operation `o` is written. */
  predicate WritesOperation(a: Db, b: Db, o: Id) {
    && b.sessions == a.sessions && b.intents == a.intents && b.now == a.now
    && b.operations.Keys == a.operations.Keys + {o}
    && (forall q :: q in a.operations && q != o ==> b.operations[q] == a.operations[q])
  }

  predicate WritesSession(a: Db, b: Db, s: Id) {
    && b.operations == a.operations && b.intents == a.intents && b.now == a.now
    && b.sessions.Keys == a.sessions.Keys + {s}
    && (forall t :: t in a.sessions && t != s ==> b.sessions[t] == a.sessions[t])
  }

  predicate WritesIntent(a: Db, b: Db, s: Id) {
    && b.sessions == a.sessions && b.operations == a.operations && b.now == a.now
    && b.intents.Keys == a.intents.Keys + {s}
    && (forall t :: t in a.intents && t != s ==> b.intents[t] == a.intents[t])
  }

  /** The part of an operation no transaction ever changes. */
  predicate SameOperation(a: StartOperation, b: StartOperation) {
    && b.session == a.session && b.account == a.account && b.key == a.key && b.hash == a.hash
    && b.createdAt == a.createdAt
  }

  // ----- creating and starting

  lemma CreateOutcome(db: Db, s: Id, account: Id, at: Time)
    ensures
      var (after, r) := Create(db, s, account, at);
      && (r.Ok? <==> s != "" && account != "" && at != 0 && s !in db.sessions)
      && (r.Err? ==>
            after == db && r.error == if s != "" && account != "" && at != 0 then Storage else InvalidRequest)
      && (r.Ok? ==>
            && WritesSession(db, after, s) && after.sessions[s] == r.value
            && r.value.account == account && r.value.status == Created && r.value.createdAt == at
            && r.value.startedAt.None? && r.value.endedAt.None?)
  {
  }

  /** A key finds the operation it owns in the session, unless that was compensated. Otherwise the answer
      says whether another operation of the session is still unresolved. */
  lemma GetOutcome(db: Db, s: Id, key: Id)
    requires DbInv(db) && s != "" && key != "" && s in db.sessions
    ensures
      var r := GetStartOperation(db, s, key);
      && (forall o :: o in db.operations && db.operations[o].session == s && db.operations[o].key == key ==>
            r == if db.operations[o].status == Compensated then Err(OperationNotFound)
                 else Ok(OperationReply(o, db.operations[o])))
      && ((forall o :: o in db.operations && db.operations[o].session == s ==> db.operations[o].key != key) ==>
            && r.Err? && (r.error == StartInProgress || r.error == OperationNotFound)
            && (r.error == StartInProgress <==> HasUnresolved(db, s)))
  {
    var account := db.sessions[s].account;
    forall o | o in db.operations && db.operations[o].session == s && db.operations[o].key == key
      ensures KeyUsed(db, account, key) && OpByKey(db, account, key) == o
    {
      assert UsesKey(db, o, account, key);
    }
    hide KeyUsed, HasUnresolved, KeysUnique, OneUnresolved, OneCompleted, StatusAgrees, Interlock, IntentShape;
  }

  lemma GetRefusals(db: Db, s: Id, key: Id)
    ensures s == "" || key == "" ==> GetStartOperation(db, s, key) == Err(InvalidRequest)
    ensures s != "" && key != "" ==>
              (GetStartOperation(db, s, key) == Err(SessionNotFound) <==> s !in db.sessions)
  {
  }

  predicate WellFormedBegin(p: BeginParams) {
    p.operation != "" && p.session != "" && p.key != "" && p.hash != "" && p.at != 0
  }

  /** A new operation begins exactly in a created session that is not ending, under a key its owner never
      used, while none of the session's operations is unresolved. */
  lemma BeginOutcome(db: Db, p: BeginParams)
    requires WellFormedBegin(p) && p.session in db.sessions
    ensures
      var (after, r) := BeginStartOperation(db, p);
      var account := db.sessions[p.session].account;
      && (after != db <==>
            && db.sessions[p.session].status == Created && !HasOpenIntent(db, p.session)
            && !KeyUsed(db, account, p.key) && !HasUnresolved(db, p.session) && p.operation !in db.operations)
      && (after != db ==>
            && WritesOperation(db, after, p.operation)
            && r == Ok(OperationReply(p.operation, after.operations[p.operation]))
            && var row := after.operations[p.operation];
            && row.session == p.session && row.account == account && row.key == p.key && row.hash == p.hash
            && row.status == Pending && row.claim.None? && row.startedAt.None?
            && row.createdAt == p.at == row.updatedAt)
      && (r == Err(ConcurrentTransition) <==>
            HasOpenIntent(db, p.session) || (!KeyUsed(db, account, p.key) && db.sessions[p.session].status != Created))
  {
    var account := db.sessions[p.session].account;
    var row := StartOperation(p.session, account, p.key, p.hash, Pending, None, p.at, p.at, None);
    if p.operation !in db.operations {
      assert p.operation in db.operations[p.operation := row] && db.operations[p.operation := row] != db.operations;
    }
    hide KeyUsed, HasUnresolved;
  }

  /** A key used before is answered from its operation, exactly if it was for this request and can still lead
      to a started session. */
  lemma BeginReplayOutcome(db: Db, p: BeginParams, o: Id)
    requires DbInv(db) && WellFormedBegin(p) && p.session in db.sessions && !HasOpenIntent(db, p.session)
    requires UsesKey(db, o, db.sessions[p.session].account, p.key)
    ensures
      var (after, r) := BeginStartOperation(db, p);
      var op := db.operations[o];
      var own := op.session == p.session && op.hash == p.hash;
      && after == db
      && (r == Ok(OperationReply(o, op)) <==>
            own && (op.status == Pending || op.status == Compensating || op.status == Completed))
      && (r == Err(StartInProgress) <==> own && op.status == CompensationFailed)
      && (r == Err(KeyConflict) <==> !own || op.status == Compensated)
  {
    hide HasUnresolved, OneUnresolved, OneCompleted, StatusAgrees, Interlock, IntentShape;
    assert KeyUsed(db, db.sessions[p.session].account, p.key);
    assert OpByKey(db, db.sessions[p.session].account, p.key) == o;
  }

  lemma BeginRefusals(db: Db, p: BeginParams)
    ensures !WellFormedBegin(p) ==> BeginStartOperation(db, p) == (db, Err(InvalidRequest))
    ensures WellFormedBegin(p) ==> (BeginStartOperation(db, p).1 == Err(SessionNotFound) <==> p.session !in db.sessions)
    ensures WellFormedBegin(p) && p.session in db.sessions
            && db.sessions[p.session].status == Created && !HasOpenIntent(db, p.session)
            && !KeyUsed(db, db.sessions[p.session].account, p.key) ==>
              && (BeginStartOperation(db, p).1 == Err(StartInProgress) <==> HasUnresolved(db, p.session))
              && (BeginStartOperation(db, p).1 == Err(Storage) <==>
                    !HasUnresolved(db, p.session) && p.operation in db.operations)
  {
    hide HasUnresolved;
  }

  // ----- compensation

  predicate WellFormedClaim(p: ClaimParams) {
    p.session != "" && p.operation != "" && p.claim != "" && p.at != 0
  }

  /** The operation belongs to the session, which has not started yet. */
  predicate Unstarted(db: Db, s: Id, o: Id) {
    s in db.sessions && db.sessions[s].status == Created && o in db.operations && db.operations[o].session == s
  }

  /** A claim on an operation of a created session is granted exactly if the operation is pending, or was
      claimed under the same id; from then on it is compensating under that id. */
  lemma ClaimOutcome(db: Db, p: ClaimParams)
    requires WellFormedClaim(p) && Unstarted(db, p.session, p.operation)
    requires db.operations[p.operation].createdAt <= p.at
    ensures
      var (after, r) := ClaimStartCompensation(db, p);
      var op := db.operations[p.operation];
      && (r == Ok(Granted) <==> op.status == Pending || (op.status == Compensating && op.claim == Some(p.claim)))
      && (r == Ok(Granted) || (r == Ok(OperationNotPending) && after == db))
      && (r == Ok(Granted) ==>
            && WritesOperation(db, after, p.operation)
            && var row := after.operations[p.operation];
            && row.status == Compensating && row.claim == Some(p.claim) && SameOperation(op, row)
            && row.startedAt == op.startedAt
            && (op.status == Compensating ==> row == op)
            && (op.status == Pending ==> row.updatedAt == p.at))
  {
  }

  /** Everything else a claim may be answered, and that it writes nothing then. */
  lemma ClaimRefusals(db: Db, p: ClaimParams)
    ensures
      var (after, r) := ClaimStartCompensation(db, p);
      && (WellFormedClaim(p) ==> (r == Err(SessionNotFound) <==> p.session !in db.sessions))
      && (WellFormedClaim(p) && p.session in db.sessions ==>
            && (r == Ok(SessionNotCreated) <==> db.sessions[p.session].status != Created)
            && (r == Ok(OperationMismatch) <==>
                  && db.sessions[p.session].status == Created
                  && (p.operation !in db.operations || db.operations[p.operation].session != p.session))
            && (r == Err(InvalidRequest) <==>
                  Unstarted(db, p.session, p.operation) && p.at < db.operations[p.operation].createdAt))
      && (!WellFormedClaim(p) ==> r == Err(InvalidRequest))
      && (r != Ok(Granted) ==> after == db)
  {
  }

  /** The claim holder records its outcome, from compensating or from failed; complete is recorded for good. */
  lemma FinishOutcome(db: Db, p: ClaimParams, complete: bool)
    requires WellFormedClaim(p) && Unstarted(db, p.session, p.operation)
    requires db.operations[p.operation].createdAt <= p.at
    ensures
      var (after, r) := FinishStartCompensation(db, p, complete);
      var op := db.operations[p.operation];
      && (r.Ok? <==>
            && op.claim == Some(p.claim)
            && (|| op.status == Compensating || op.status == CompensationFailed
                || (op.status == Compensated && complete)))
      && (r.Err? ==> after == db && r.error == ConcurrentTransition)
      && (r.Ok? ==>
            && WritesOperation(db, after, p.operation)
            && var row := after.operations[p.operation];
            && row.status == (if complete then Compensated else CompensationFailed)
            && SameOperation(op, row) && row.claim == op.claim && row.startedAt == op.startedAt
            && row.updatedAt == if row.status == op.status then op.updatedAt else p.at)
  {
  }

  lemma FinishRefusals(db: Db, p: ClaimParams, complete: bool)
    ensures
      var (after, r) := FinishStartCompensation(db, p, complete);
      && (WellFormedClaim(p) ==> (r == Err(SessionNotFound) <==> p.session !in db.sessions))
      && (WellFormedClaim(p) && p.session in db.sessions && !Unstarted(db, p.session, p.operation) ==>
            r == Err(ConcurrentTransition))
      && (WellFormedClaim(p) && Unstarted(db, p.session, p.operation)
          && p.at < db.operations[p.operation].createdAt ==>
            r == Err(if db.operations[p.operation].claim == Some(p.claim) then InvalidRequest
                     else ConcurrentTransition))
      && (!WellFormedClaim(p) ==> r == Err(InvalidRequest))
      && (r.Err? ==> after == db)
  {
  }

  // ----- activation

  predicate WellFormedActivation(p: ActivateParams) {
    p.session != "" && p.operation != "" && p.key != "" && p.hash != "" && p.at != 0
  }

  /** A pending operation starts its created session, at the time given, and is completed with it; a session
      it has started already is answered again. Nothing else is accepted. */
  lemma ActivateOutcome(db: Db, p: ActivateParams)
    requires WellFormedActivation(p) && p.session in db.sessions
    requires p.operation in db.operations && db.operations[p.operation].session == p.session
    requires db.operations[p.operation].key == p.key && db.operations[p.operation].hash == p.hash
    ensures
      var (after, r) := TransitionToActive(db, p);
      var s, op := db.sessions[p.session], db.operations[p.operation];
      var starts := op.status == Pending && s.status == Created && s.createdAt <= p.at && op.createdAt <= p.at;
      && (r.Ok? <==> starts || (op.status == Completed && s.status == Active))
      && (!starts ==> after == db && (r.Ok? ==> r.value == s) && (r.Err? ==> r.error == ConcurrentTransition))
      && (starts ==>
            && after.intents == db.intents && after.now == db.now
            && WritesSession(db, after.(operations := db.operations), p.session)
            && WritesOperation(db, after.(sessions := db.sessions), p.operation)
            && r.value == after.sessions[p.session]
            && r.value.status == Active && r.value.startedAt == Some(p.at) && r.value.endedAt == s.endedAt
            && r.value.account == s.account && r.value.createdAt == s.createdAt
            && var row := after.operations[p.operation];
            && row.status == Completed && row.startedAt == Some(p.at) && row.updatedAt == p.at
            && SameOperation(op, row) && row.claim == op.claim)
  {
  }

  lemma ActivateRefusals(db: Db, p: ActivateParams)
    ensures
      var (after, r) := TransitionToActive(db, p);
      && (WellFormedActivation(p) ==> (r == Err(SessionNotFound) <==> p.session !in db.sessions))
      && (WellFormedActivation(p) && p.session in db.sessions ==>
            (r == Err(KeyConflict) <==>
               && p.operation in db.operations && db.operations[p.operation].session == p.session
               && db.operations[p.operation].key == p.key && db.operations[p.operation].hash != p.hash))
      && (r.Ok? ==>
            && p.operation in db.operations && db.operations[p.operation].session == p.session
            && db.operations[p.operation].key == p.key && db.operations[p.operation].hash == p.hash)
      && (!WellFormedActivation(p) ==> r == Err(InvalidRequest))
      && (r.Err? ==> after == db)
  {
  }

  // ----- end intents

  predicate WellFormedIntent(p: IntentParams) {
    && p.session != "" && p.key != "" && p.hash != "" && p.trace != "" && ValidReason(p.reason)
    && p.requestedAt != 0 && p.owner != "" && p.requestedAt < p.leaseExpiresAt
  }

  /** The first request of a session that is not starting, under a key its owner never used, makes the intent. */
  lemma SaveOutcomeFresh(db: Db, p: IntentParams)
    requires WellFormedIntent(p) && p.session in db.sessions && p.session !in db.intents
    ensures
      var (after, r) := SaveEndIntent(db, p);
      var account := db.sessions[p.session].account;
      && (r.Ok? <==> !HasUnresolved(db, p.session) && !IntentKeyUsed(db, account, p.key))
      && (r.Err? ==>
            after == db && r.error == if HasUnresolved(db, p.session) then StartInProgress else KeyConflict)
      && (r.Ok? ==>
            && WritesIntent(db, after, p.session) && r.value == after.intents[p.session]
            && r.value.account == account && r.value.reason == p.reason && r.value.key == p.key
            && r.value.hash == p.hash && r.value.trace == p.trace && r.value.requestedAt == p.requestedAt
            && r.value.completedAt.None? && r.value.retryCount == 0 && r.value.lastError.None?
            && r.value.nextAttemptAt == db.now && r.value.owner == Some(p.owner)
            && r.value.lease == Some(db.now + (p.leaseExpiresAt - p.requestedAt)))
  {
    hide HasUnresolved, IntentKeyUsed;
  }

  /** A repeated request is granted the open intent exactly when no lease is running, for as long as it asks
      for from now on; a completed one is shown to it unchanged. */
  lemma SaveOutcomeRepeated(db: Db, p: IntentParams)
    requires WellFormedIntent(p) && p.session in db.sessions && p.session in db.intents
    requires !HasUnresolved(db, p.session)
    ensures
      var (after, r) := SaveEndIntent(db, p);
      var i := db.intents[p.session];
      var same := i.key == p.key && i.hash == p.hash;
      var running := i.lease.Some? && db.now < i.lease.value;
      && (r.Ok? <==> same && (i.completedAt.Some? || !running))
      && (r.Err? ==> after == db && r.error == if same then ConcurrentTransition else KeyConflict)
      && (r.Ok? && i.completedAt.Some? ==> after == db && r.value == i)
      && (r.Ok? && i.completedAt.None? ==>
            && WritesIntent(db, after, p.session) && r.value == after.intents[p.session]
            && r.value.owner == Some(p.owner)
            && r.value.lease == Some(db.now + (p.leaseExpiresAt - p.requestedAt))
            && SameRequest(i, r.value) && r.value.completedAt.None?
            && r.value.retryCount == i.retryCount && r.value.lastError == i.lastError
            && r.value.nextAttemptAt == i.nextAttemptAt)
  {
    hide HasUnresolved, IntentKeyUsed;
  }

  lemma SaveRefusals(db: Db, p: IntentParams)
    ensures
      var (after, r) := SaveEndIntent(db, p);
      && (!WellFormedIntent(p) ==> r == Err(InvalidRequest))
      && (WellFormedIntent(p) ==> (r == Err(SessionNotFound) <==> p.session !in db.sessions))
      && (WellFormedIntent(p) && p.session in db.sessions ==>
            (r == Err(StartInProgress) <==> HasUnresolved(db, p.session)))
      && (r.Err? ==> after == db)
  {
    hide HasUnresolved, IntentKeyUsed;
  }

  /** The intent of a terminal session is completed once, at the time given, and gives its lease up. */
  lemma CompleteOutcome(db: Db, s: Id, at: Time)
    requires s != "" && at != 0 && s in db.sessions
    ensures
      var (after, r) := CompleteEndIntent(db, s, at);
      && (r.Ok? <==> Terminal(db.sessions[s].status) && s in db.intents && db.intents[s].requestedAt <= at)
      && (r.Err? ==>
            && after == db
            && r.error == if !Terminal(db.sessions[s].status) then ConcurrentTransition
                          else if s !in db.intents then IntentNotFound else InvalidRequest)
      && (r.Ok? && db.intents[s].completedAt.Some? ==> after == db)
      && (r.Ok? && db.intents[s].completedAt.None? ==>
            WritesIntent(db, after, s) && ClosedAt(db.intents[s], after.intents[s], at))
  {
  }

  predicate ClosedAt(before: EndIntent, after: EndIntent, at: Time) {
    && after.completedAt == Some(at) && after.owner.None? && after.lease.None?
    && SameRequest(before, after) && after.retryCount == before.retryCount
    && after.lastError == before.lastError && after.nextAttemptAt == before.nextAttemptAt
  }

  /** The intent is open and leased to that worker for longer than now. */
  predicate LeasedTo(db: Db, s: Id, worker: Id) {
    && s in db.intents && db.intents[s].completedAt.None? && db.intents[s].owner == Some(worker)
    && db.intents[s].lease.Some? && db.intents[s].lease.value > db.now
  }

  /** Exactly the owner of an unexpired lease records a failed attempt: one retry more, with its error, the next
      attempt put off from now, and the lease given up. */
  lemma RetryOutcome(db: Db, p: RetryParams)
    requires p.session != "" && p.worker != "" && p.lastError != ""
    ensures
      var (after, r) := RetryClaimedEndIntent(db, p);
      && (r.Ok? <==> LeasedTo(db, p.session, p.worker))
      && (r.Err? ==> after == db && r.error == ConcurrentTransition)
      && (r.Ok? ==>
            && WritesIntent(db, after, p.session)
            && var i, row := db.intents[p.session], after.intents[p.session];
            && row.retryCount == i.retryCount + 1 && row.lastError == Some(p.lastError)
            && row.nextAttemptAt == db.now + p.retryAfter && row.owner.None? && row.lease.None?
            && SameRequest(i, row) && row.completedAt.None?)
  {
  }

  /** A worker's completion is accepted exactly for the owner of an unexpired lease, or if all is done. */
  lemma CompleteClaimedOutcome(db: Db, p: FinishIntentParams)
    requires p.session != "" && p.worker != "" && p.at != 0
    requires p.session in db.sessions && Terminal(db.sessions[p.session].status) && p.session in db.intents
    ensures
      var (after, r) := CompleteClaimedEndIntent(db, p);
      var i := db.intents[p.session];
      && (r.Ok? <==> i.completedAt.Some? || (LeasedTo(db, p.session, p.worker) && i.requestedAt <= p.at))
      && (r.Err? || i.completedAt.Some? ==> after == db)
      && (r.Err? ==> r.error == if i.owner == Some(p.worker) && p.at < i.requestedAt then InvalidRequest
                                else ConcurrentTransition)
      && (r.Ok? && i.completedAt.None? ==>
            WritesIntent(db, after, p.session) && ClosedAt(i, after.intents[p.session], p.at))
  {
  }

  /** A due intent goes to the worker for as long as it asks for, and nothing else about it changes. */
  lemma LeaseOutcome(db: Db, p: LeaseParams, pick: Id)
    requires p.worker != "" && p.claimedAt != 0 && p.claimedAt < p.leaseExpiresAt
    ensures
      var (after, r) := ClaimPendingEndIntent(db, p, pick);
      var due := pick in db.intents && db.intents[pick].completedAt.None? && db.intents[pick].nextAttemptAt <= db.now
                 && (db.intents[pick].lease.Some? ==> db.intents[pick].lease.value <= db.now);
      && r.Ok? && (r.value.Some? <==> due)
      && (!due ==> after == db)
      && (due ==>
            && WritesIntent(db, after, pick) && r.value == Some(after.intents[pick])
            && var row := after.intents[pick];
            && row.owner == Some(p.worker) && row.lease == Some(db.now + (p.leaseExpiresAt - p.claimedAt))
            && SameRequest(db.intents[pick], row) && row.completedAt.None?
            && row.retryCount == db.intents[pick].retryCount && row.lastError == db.intents[pick].lastError
            && row.nextAttemptAt == db.intents[pick].nextAttemptAt)
  {
  }

  // ----- the ends of a session

  /** A session is ended exactly in the state its caller expects and not before it was created or started. */
  lemma EndOutcome(db: Db, p: EndParams)
    requires p.session != "" && ValidReason(p.reason) && p.at != 0 && (p.expected == Created || p.expected == Active)
    requires p.session in db.sessions
    ensures
      var (after, r) := TransitionToEnded(db, p);
      var s := db.sessions[p.session];
      && (r.Ok? <==> s.status == p.expected && s.createdAt <= p.at && (s.startedAt.Some? ==> s.startedAt.value <= p.at))
      && (r.Err? ==> after == db && r.error == ConcurrentTransition)
      && (r.Ok? ==> WritesSession(db, after, p.session) && r.value == after.sessions[p.session]
                    && FinishedAs(s, r.value, Ended, p.at))
  {
  }

  /** The session is over at that time, in that way, and otherwise as it was. */
  predicate FinishedAs(before: Session, after: Session, status: Status, at: Time) {
    && after.status == status && after.endedAt == Some(at)
    && after.account == before.account && after.createdAt == before.createdAt && after.startedAt == before.startedAt
  }

  /** A report no older than the activation makes an active session failed at the report's time; no other
      report changes anything. */
  lemma FailOutcome(db: Db, p: FailParams)
    requires p.session != "" && p.expected == Active && p.code != "" && p.at != 0 && p.session in db.sessions
    ensures
      var (after, r) := TransitionToFailed(db, p);
      var s := db.sessions[p.session];
      && (r.Ok? <==> s.status == Active && s.startedAt.Some? && s.startedAt.value <= p.at)
      && (r.Err? ==> after == db && r.error == ConcurrentTransition)
      && (r.Ok? ==> WritesSession(db, after, p.session) && r.value == after.sessions[p.session]
                    && FinishedAs(s, r.value, Failed, p.at))
  {
  }

  lemma EndingRefusals(db: Db, p: EndParams, f: FailParams)
    ensures
      var formed := p.session != "" && ValidReason(p.reason) && p.at != 0
                    && (p.expected == Created || p.expected == Active);
      && (!formed ==> TransitionToEnded(db, p) == (db, Err(InvalidRequest)))
      && (formed ==> (TransitionToEnded(db, p).1 == Err(SessionNotFound) <==> p.session !in db.sessions))
    ensures
      var formed := f.session != "" && f.expected == Active && f.code != "" && f.at != 0;
      && (!formed ==> TransitionToFailed(db, f) == (db, Err(InvalidRequest)))
      && (formed ==> (TransitionToFailed(db, f).1 == Err(SessionNotFound) <==> f.session !in db.sessions))
  {
  }

  /** Requests with a part missing, and intents that are not there, are refused and write nothing. */
  lemma RecoveryRefusals(db: Db, s: Id, at: Time, l: LeaseParams, pick: Id, r: RetryParams, p: FinishIntentParams)
    ensures s == "" || at == 0 ==> CompleteEndIntent(db, s, at) == (db, Err(InvalidRequest))
    ensures s != "" && at != 0 && s !in db.sessions ==> CompleteEndIntent(db, s, at) == (db, Err(IntentNotFound))
    ensures l.worker == "" || l.claimedAt == 0 || l.leaseExpiresAt <= l.claimedAt ==>
              ClaimPendingEndIntent(db, l, pick) == (db, Err(InvalidRequest))
    ensures r.session == "" || r.worker == "" || r.lastError == "" ==>
              RetryClaimedEndIntent(db, r) == (db, Err(InvalidRequest))
    ensures p.session == "" || p.worker == "" || p.at == 0 ==>
              CompleteClaimedEndIntent(db, p) == (db, Err(InvalidRequest))
    ensures p.session != "" && p.worker != "" && p.at != 0 ==>
              (CompleteClaimedEndIntent(db, p).1 == Err(IntentNotFound) <==>
                 || p.session !in db.sessions
                 || (Terminal(db.sessions[p.session].status) && p.session !in db.intents))
    ensures p.session in db.sessions && !Terminal(db.sessions[p.session].status)
            && p.session != "" && p.worker != "" && p.at != 0 ==>
              CompleteClaimedEndIntent(db, p) == (db, Err(ConcurrentTransition))
  {
  }

  // ----- how a session came to be over, in every run

  /** The transaction that ends session `s` at that time in that way. */
  predicate Finishes(tx: Tx, s: Id, status: Status, at: Time) {
    || (status == Failed && tx.FailTx? && tx.fail.session == s && tx.fail.at == at)
    || (status == Ended && tx.EndTx? && tx.end.session == s && tx.end.at == at)
  }

  lemma StepFinishes(db: Db, tx: Tx, s: Id)
    requires s in Apply(db, tx).sessions && Terminal(Apply(db, tx).sessions[s].status)
    ensures
      || (s in db.sessions && Terminal(db.sessions[s].status))
      || (&& Apply(db, tx).sessions[s].endedAt.Some?
          && Finishes(tx, s, Apply(db, tx).sessions[s].status, Apply(db, tx).sessions[s].endedAt.value))
  {
    hide HasUnresolved, KeyUsed, IntentKeyUsed;
  }

  /** Only a failure report makes a session failed and only an ending transaction makes it ended, in every
      run, and the time is the one reported. */
  lemma {:induction false} FinishedByItsOwn(db: Db, txs: seq<Tx>, s: Id)
    requires s in Run(db, txs).sessions && Terminal(Run(db, txs).sessions[s].status)
    requires s in db.sessions ==> !Terminal(db.sessions[s].status)
    ensures
      var row := Run(db, txs).sessions[s];
      row.endedAt.Some? && exists i :: 0 <= i < |txs| && Finishes(txs[i], s, row.status, row.endedAt.value)
    decreases |txs|
  {
    hide Apply, Finishes;
    assert txs != [];
    var next := Apply(db, txs[0]);
    if s in next.sessions && Terminal(next.sessions[s].status) {
      StepFinishes(db, txs[0], s);
      RunEvolves(next, txs[1..]);
      assert Finishes(txs[0], s, next.sessions[s].status, next.sessions[s].endedAt.value);
    } else {
      FinishedByItsOwn(next, txs[1..], s);
      var row := Run(db, txs).sessions[s];
      var i :| 0 <= i < |txs[1..]| && Finishes(txs[1..][i], s, row.status, row.endedAt.value);
      assert txs[1..][i] == txs[i + 1];
    }
  }
}

/** The repository as it works on its tables: each transaction reads and rewrites rows in place and
    returns early on the first check that fails. Every method is proved to be the transaction of
    SessionTransactions, and to keep the tables consistent. */
module PostgresRepository {
  import opened Wrappers
  import opened SessionRows
  import opened SessionTransactions
  import opened SessionRuns
  import T = SessionTransactions

  predicate IsDue(intent: EndIntent, now: Time) {
    && intent.completedAt.None? && intent.nextAttemptAt <= now
    && (intent.lease.None? || intent.lease.value <= now)
  }

  class Repository {
    var sessions: map<Id, Session>
    var operations: map<Id, StartOperation>
    var intents: map<Id, EndIntent>
    var now: Time

    ghost function Rows(): Db
      reads this
    {
      Db(sessions, operations, intents, now)
    }

    ghost predicate Valid()
      reads this
    {
      DbInv(Rows())
    }

    constructor ()
      ensures Valid() && Rows() == EmptyDb
    {
      sessions, operations, intents, now := map[], map[], map[], 1;
    }

    method UnresolvedStart(session: Id) returns (found: bool)
      ensures found <==> HasUnresolved(Rows(), session)
    {
      found := exists o :: o in operations && Unresolved(operations[o].status) && operations[o].session == session;
      if found {
        ghost var o :| o in operations && Unresolved(operations[o].status) && operations[o].session == session;
        assert IsUnresolved(Rows(), o);
      }
    }

    /** Looks an operation up in the unique index on account and key. */
    method StartOperationByAccountKey(account: Id, key: Id) returns (found: Option<Id>)
      requires Valid()
      ensures found.Some? <==> KeyUsed(Rows(), account, key)
      ensures found.Some? ==> found.value in operations && found.value == OpByKey(Rows(), account, key)
    {
      if o :| o in operations && operations[o].account == account && operations[o].key == key {
        assert UsesKey(Rows(), o, account, key);
        OnlyOneUsesKey(Rows(), o, account, key);
        return Some(o);
      }
      return None;
    }

    method GetStartOperation(session: Id, key: Id) returns (r: Result<OperationReply, Error>)
      requires Valid()
      ensures r == T.GetStartOperation(Rows(), session, key)
    {
      if session == "" || key == "" { return Err(InvalidRequest); }
      if session !in sessions { return Err(SessionNotFound); }
      var found := StartOperationByAccountKey(sessions[session].account, key);
      if found.Some? && operations[found.value].session == session {
        if operations[found.value].status == Compensated { return Err(OperationNotFound); }
        return Ok(OperationReply(found.value, operations[found.value]));
      }
      var occupied := UnresolvedStart(session);
      return Err(if occupied then StartInProgress else OperationNotFound);
    }

    method BeginStartOperation(p: BeginParams) returns (r: Result<OperationReply, Error>)
      requires Valid()
      modifies this
      ensures Valid()
      ensures (Rows(), r) == T.BeginStartOperation(old(Rows()), p)
    {
      BeginKeeps(Rows(), p);
      if p.operation == "" || p.session == "" || p.key == "" || p.hash == "" || p.at == 0 {
        return Err(InvalidRequest);
      }
      if p.session !in sessions { return Err(SessionNotFound); }
      var account := sessions[p.session].account;
      if p.session in intents && intents[p.session].completedAt.None? { return Err(ConcurrentTransition); }
      var existing := StartOperationByAccountKey(account, p.key);
      if existing.Some? {
        return ClassifyBeginReplay(existing.value, operations[existing.value], p.session, account, p.hash);
      }
      if sessions[p.session].status != Created { return Err(ConcurrentTransition); }
      var unresolved := UnresolvedStart(p.session);
      if unresolved { return Err(StartInProgress); }
      if p.operation in operations { return Err(Storage); }
      var row := StartOperation(p.session, account, p.key, p.hash, Pending, None, p.at, p.at, None);
      operations := operations[p.operation := row];
      return Ok(OperationReply(p.operation, row));
    }

    method ClaimStartCompensation(p: ClaimParams) returns (r: Result<ClaimReply, Error>)
      requires Valid()
      modifies this
      ensures Valid()
      ensures (Rows(), r) == T.ClaimStartCompensation(old(Rows()), p)
    {
      ClaimKeeps(Rows(), p);
      if p.session == "" || p.operation == "" || p.claim == "" || p.at == 0 { return Err(InvalidRequest); }
      if p.session !in sessions { return Err(SessionNotFound); }
      if sessions[p.session].status != Created { return Ok(SessionNotCreated); }
      if p.operation !in operations || operations[p.operation].session != p.session { return Ok(OperationMismatch); }
      var operation := operations[p.operation];
      if p.at < operation.createdAt { return Err(InvalidRequest); }
      match operation.status {
        case Pending =>
          var row := operation.(status := Compensating, claim := Some(p.claim), updatedAt := p.at);
          operations := operations[p.operation := row];
          return Ok(Granted);
        case Compensating =>
          if operation.claim == Some(p.claim) { return Ok(Granted); }
        case Completed =>
        case Compensated =>
        case CompensationFailed =>
      }
      return Ok(OperationNotPending);
    }

    method FinishStartCompensation(p: ClaimParams, complete: bool) returns (r: Result<(), Error>)
      requires Valid()
      modifies this
      ensures Valid()
      ensures (Rows(), r) == T.FinishStartCompensation(old(Rows()), p, complete)
    {
      FinishKeeps(Rows(), p, complete);
      if p.session == "" || p.operation == "" || p.claim == "" || p.at == 0 { return Err(InvalidRequest); }
      if p.session !in sessions { return Err(SessionNotFound); }
      if sessions[p.session].status != Created { return Err(ConcurrentTransition); }
      if p.operation !in operations || operations[p.operation].session != p.session {
        return Err(ConcurrentTransition);
      }
      var operation := operations[p.operation];
      if operation.claim != Some(p.claim) { return Err(ConcurrentTransition); }
      if p.at < operation.createdAt { return Err(InvalidRequest); }
      var target := CompensationFailed;
      var allowed := operation.status == Compensating;
      if complete {
        target := Compensated;
        allowed := operation.status in {Compensating, CompensationFailed, Compensated};
      } else if operation.status == CompensationFailed {
        allowed := true;
      }
      if !allowed { return Err(ConcurrentTransition); }
      if operation.status != target {
        operations := operations[p.operation := operation.(status := target, updatedAt := p.at)];
      }
      return Ok(());
    }

    method TransitionToActive(p: ActivateParams) returns (r: Result<Session, Error>)
      requires Valid()
      modifies this
      ensures Valid()
      ensures (Rows(), r) == T.TransitionToActive(old(Rows()), p)
    {
      ActivateKeeps(Rows(), p);
      if p.session == "" || p.operation == "" || p.key == "" || p.hash == "" || p.at == 0 {
        return Err(InvalidRequest);
      }
      if p.session !in sessions { return Err(SessionNotFound); }
      if p.operation !in operations || operations[p.operation].session != p.session {
        return Err(ConcurrentTransition);
      }
      var session, operation := sessions[p.session], operations[p.operation];
      if operation.key != p.key { return Err(ConcurrentTransition); }
      if operation.hash != p.hash { return Err(KeyConflict); }
      if operation.status == Completed && session.status == Active { return Ok(session); }
      if operation.status != Pending || session.status != Created
         || p.at < session.createdAt || p.at < operation.createdAt {
        return Err(ConcurrentTransition);
      }
      sessions := sessions[p.session := session.(status := Active, startedAt := Some(p.at))];
      var row := operation.(status := Completed, startedAt := Some(p.at), updatedAt := p.at);
      operations := operations[p.operation := row];
      return Ok(sessions[p.session]);
    }

    method SaveEndIntent(p: IntentParams) returns (r: Result<EndIntent, Error>)
      requires Valid()
      modifies this
      ensures Valid()
      ensures (Rows(), r) == T.SaveEndIntent(old(Rows()), p)
    {
      hide DbInv, HasUnresolved;
      SaveEndKeeps(Rows(), p);
      if p.session == "" || p.key == "" || p.hash == "" || p.trace == "" || !ValidReason(p.reason)
         || p.requestedAt == 0 || p.owner == "" || p.leaseExpiresAt <= p.requestedAt {
        return Err(InvalidRequest);
      }
      var leaseDuration := p.leaseExpiresAt - p.requestedAt;
      if p.session !in sessions { return Err(SessionNotFound); }
      var account := sessions[p.session].account;
      var unresolvedStart := UnresolvedStart(p.session);
      if unresolvedStart { return Err(StartInProgress); }
      if p.session in intents {
        var existing := intents[p.session];
        if existing.key != p.key || existing.hash != p.hash { return Err(KeyConflict); }
        if existing.completedAt.Some? { return Ok(existing); }
        if existing.lease.Some? && now < existing.lease.value { return Err(ConcurrentTransition); }
        intents := intents[p.session := existing.(owner := Some(p.owner), lease := Some(now + leaseDuration))];
        return Ok(intents[p.session]);
      }
      if exists s :: s in intents && intents[s].account == account && intents[s].key == p.key {
        return Err(KeyConflict);
      }
      var saved := EndIntent(account, p.reason, p.key, p.hash, p.trace, p.requestedAt, None, 0, None,
                             now, Some(p.owner), Some(now + leaseDuration));
      intents := intents[p.session := saved];
      return Ok(saved);
    }

    method CompleteEndIntent(session: Id, at: Time) returns (r: Result<(), Error>)
      requires Valid()
      modifies this
      ensures Valid()
      ensures (Rows(), r) == T.CompleteEndIntent(old(Rows()), session, at)
    {
      CompleteEndKeeps(Rows(), session, at);
      if session == "" || at == 0 { return Err(InvalidRequest); }
      if session !in sessions { return Err(IntentNotFound); }
      if !Terminal(sessions[session].status) { return Err(ConcurrentTransition); }
      if session !in intents { return Err(IntentNotFound); }
      var intent := intents[session];
      if at < intent.requestedAt { return Err(InvalidRequest); }
      if intent.completedAt.None? {
        intents := intents[session := intent.(completedAt := Some(at), owner := None, lease := None)];
      }
      return Ok(());
    }

    /** Never looks at operations, so consistency is up to the caller: it survives exactly when the call
        fails or the session has no unresolved start operation. */
    method TransitionToEnded(p: EndParams) returns (r: Result<Session, Error>)
      requires Valid()
      modifies this
      ensures Valid() <==> r.Err? || !HasUnresolved(old(Rows()), p.session)
      ensures (Rows(), r) == T.TransitionToEnded(old(Rows()), p)
    {
      EndKeepsIff(Rows(), p);
      if p.session == "" || (p.expected != Created && p.expected != Active) || !ValidReason(p.reason) || p.at == 0 {
        return Err(InvalidRequest);
      }
      if p.session !in sessions { return Err(SessionNotFound); }
      var session := sessions[p.session];
      if session.status != p.expected || p.at < session.createdAt
         || (session.startedAt.Some? && p.at < session.startedAt.value) {
        return Err(ConcurrentTransition);
      }
      sessions := sessions[p.session := session.(status := Ended, endedAt := Some(p.at))];
      return Ok(sessions[p.session]);
    }

    method TransitionToFailed(p: FailParams) returns (r: Result<Session, Error>)
      requires Valid()
      modifies this
      ensures Valid()
      ensures (Rows(), r) == T.TransitionToFailed(old(Rows()), p)
    {
      FailKeeps(Rows(), p);
      if p.session == "" || p.expected != Active || p.code == "" || p.at == 0 { return Err(InvalidRequest); }
      if p.session !in sessions { return Err(SessionNotFound); }
      var session := sessions[p.session];
      if session.status != Active || session.startedAt.None? || p.at < session.startedAt.value {
        return Err(ConcurrentTransition);
      }
      sessions := sessions[p.session := session.(status := Failed, endedAt := Some(p.at))];
      return Ok(sessions[p.session]);
    }

    /** Leases some due intent, or none when nothing is due. */
    method ClaimPendingEndIntent(p: LeaseParams) returns (pick: Id, r: Result<Option<EndIntent>, Error>)
      requires Valid()
      modifies this
      ensures Valid()
      ensures (Rows(), r) == T.ClaimPendingEndIntent(old(Rows()), p, pick)
      ensures r == Ok(None) ==> forall s :: !Due(Rows(), s)
    {
      hide DbInv;
      pick := "";
      if p.worker == "" || p.claimedAt == 0 || p.leaseExpiresAt <= p.claimedAt { return pick, Err(InvalidRequest); }
      var leaseDuration := p.leaseExpiresAt - p.claimedAt;
      if s :| s in intents && IsDue(intents[s], now) {
        pick := s;
        LeaseKeeps(Rows(), p, pick);
        intents := intents[s := intents[s].(owner := Some(p.worker), lease := Some(now + leaseDuration))];
        r := Ok(Some(intents[s]));
      } else {
        r := Ok(None);
      }
    }

    method RetryClaimedEndIntent(p: RetryParams) returns (r: Result<(), Error>)
      requires Valid()
      modifies this
      ensures Valid()
      ensures (Rows(), r) == T.RetryClaimedEndIntent(old(Rows()), p)
    {
      hide DbInv;
      RetryKeeps(Rows(), p);
      if p.session == "" || p.worker == "" || p.lastError == "" { return Err(InvalidRequest); }
      var updated := false;
      if p.session in intents {
        var intent := intents[p.session];
        if intent.owner == Some(p.worker) && intent.lease.Some? && now < intent.lease.value
           && intent.completedAt.None? {
          intents := intents[p.session := intent.(retryCount := intent.retryCount + 1, lastError := Some(p.lastError),
                                                  nextAttemptAt := now + p.retryAfter, owner := None, lease := None)];
          updated := true;
        }
      }
      return if updated then Ok(()) else Err(ConcurrentTransition);
    }

    method CompleteClaimedEndIntent(p: FinishIntentParams) returns (r: Result<(), Error>)
      requires Valid()
      modifies this
      ensures Valid()
      ensures (Rows(), r) == T.CompleteClaimedEndIntent(old(Rows()), p)
    {
      CompleteClaimedKeeps(Rows(), p);
      if p.session == "" || p.worker == "" || p.at == 0 { return Err(InvalidRequest); }
      if p.session !in sessions { return Err(IntentNotFound); }
      if !Terminal(sessions[p.session].status) { return Err(ConcurrentTransition); }
      if p.session !in intents { return Err(IntentNotFound); }
      var intent := intents[p.session];
      if intent.completedAt.Some? { return Ok(()); }
      if intent.owner != Some(p.worker) { return Err(ConcurrentTransition); }
      if p.at < intent.requestedAt { return Err(InvalidRequest); }
      if intent.lease.None? || intent.lease.value <= now { return Err(ConcurrentTransition); }
      intents := intents[p.session := intent.(completedAt := Some(p.at), owner := None, lease := None)];
      return Ok(());
    }
  }

  lemma OnlyOneUsesKey(db: Db, o: Id, account: Id, key: Id)
    requires KeysUnique(db)
    requires UsesKey(db, o, account, key)
    ensures KeyUsed(db, account, key) && OpByKey(db, account, key) == o
  {
  }
}

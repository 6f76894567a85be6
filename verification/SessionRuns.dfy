/** What holds of the rows in every run, with any number of service instances interleaving their
    transactions in any order and with any arguments. */
module SessionRuns {
  import opened Wrappers
  import opened SessionRows
  import opened SessionTransactions

  const EmptyDb := Db(map[], map[], map[], 1)

  // ----- one row written

  /** What writing operation row `o` must respect. */
  ghost predicate OperationFits(db: Db, o: Id, row: StartOperation)
    requires ForeignKeys(db)
  {
    && row.session in db.sessions
    && row.account == db.sessions[row.session].account
    && OpShape(row)
    && (o in db.operations ==> row.session == db.operations[o].session && row.key == db.operations[o].key)
    && (o !in db.operations ==> !KeyUsed(db, row.account, row.key))
    && (Unresolved(row.status) ==>
          && db.sessions[row.session].status == Created
          && row.session !in db.intents
          && (IsUnresolved(db, o) || !HasUnresolved(db, row.session)))
    && (row.status == Completed <==> IsCompleted(db, o))
  }

  lemma NoOtherUsesKey(db: Db, account: Id, key: Id)
    requires !KeyUsed(db, account, key)
    ensures forall q :: q in db.operations ==> !(db.operations[q].account == account && db.operations[q].key == key)
  {
    forall q | q in db.operations ensures !(db.operations[q].account == account && db.operations[q].key == key) {
      assert !UsesKey(db, q, account, key);
    }
  }

  lemma PutOperationKeys(db: Db, o: Id, row: StartOperation)
    requires ForeignKeys(db) && KeysUnique(db)
    requires OperationFits(db, o, row)
    ensures ForeignKeys(db.(operations := db.operations[o := row]))
    ensures KeysUnique(db.(operations := db.operations[o := row]))
  {
    if o !in db.operations {
      NoOtherUsesKey(db, row.account, row.key);
    }
    hide KeyUsed, HasUnresolved;
  }

  lemma PutOperationUnique(db: Db, o: Id, row: StartOperation)
    requires ForeignKeys(db) && OneUnresolved(db) && OneCompleted(db)
    requires OperationFits(db, o, row)
    ensures OneUnresolved(db.(operations := db.operations[o := row]))
    ensures OneCompleted(db.(operations := db.operations[o := row]))
  {
    hide KeyUsed;
  }

  lemma PutOperationAgrees(db: Db, o: Id, row: StartOperation)
    requires ForeignKeys(db) && StatusAgrees(db) && Interlock(db) && IntentShape(db)
    requires OperationFits(db, o, row)
    requires ForeignKeys(db.(operations := db.operations[o := row]))
    ensures
      var after := db.(operations := db.operations[o := row]);
      StatusAgrees(after) && Interlock(after) && IntentShape(after)
  {
    hide KeyUsed, HasUnresolved;
  }

  lemma PutOperation(db: Db, o: Id, row: StartOperation)
    requires RowInv(db)
    requires OperationFits(db, o, row)
    ensures RowInv(db.(operations := db.operations[o := row]))
  {
    assert OpShape(row);
    hide KeysUnique, OneUnresolved, OneCompleted, StatusAgrees, Interlock, IntentShape, OpShape, SessionShape,
         OperationFits;
    PutOperationKeys(db, o, row);
    PutOperationUnique(db, o, row);
    PutOperationAgrees(db, o, row);
  }

  /** Writing operations never forgets which of them completed. */
  lemma StartsStayRecorded(db: Db, after: Db)
    requires StartsRecorded(db)
    requires forall o :: IsCompleted(db, o) ==>
              IsCompleted(after, o) && after.operations[o].session == db.operations[o].session
    requires forall s :: s in after.sessions && after.sessions[s].startedAt.Some? ==>
               (s in db.sessions && db.sessions[s].startedAt.Some?) || HasCompleted(after, s)
    ensures StartsRecorded(after)
  {
    forall s | s in after.sessions && after.sessions[s].startedAt.Some? ensures HasCompleted(after, s) {
      if s in db.sessions && db.sessions[s].startedAt.Some? {
        var o :| o in db.operations && IsCompleted(db, o) && db.operations[o].session == s;
        assert IsCompleted(after, o);
      }
    }
  }

  lemma BeginKeeps(db: Db, p: BeginParams)
    requires DbInv(db)
    ensures DbInv(BeginStartOperation(db, p).0)
  {
    var after := BeginStartOperation(db, p).0;
    if after != db {
      PutOperation(db, p.operation, after.operations[p.operation]);
      StartsStayRecorded(db, after);
    }
  }

  lemma ClaimKeeps(db: Db, p: ClaimParams)
    requires DbInv(db)
    ensures DbInv(ClaimStartCompensation(db, p).0)
  {
    var after := ClaimStartCompensation(db, p).0;
    if after != db {
      PutOperation(db, p.operation, after.operations[p.operation]);
      StartsStayRecorded(db, after);
    }
  }

  lemma FinishKeeps(db: Db, p: ClaimParams, complete: bool)
    requires DbInv(db)
    ensures DbInv(FinishStartCompensation(db, p, complete).0)
  {
    var after := FinishStartCompensation(db, p, complete).0;
    if after != db {
      PutOperation(db, p.operation, after.operations[p.operation]);
      StartsStayRecorded(db, after);
    }
  }

  lemma PutActivationAgrees(db: Db, o: Id, at: Time, s: Id)
    requires RowInv(db)
    requires o in db.operations && db.operations[o].status == Pending && db.operations[o].session == s
    ensures
      var row := db.sessions[s].(status := Active, startedAt := Some(at));
      var op := db.operations[o].(status := Completed, startedAt := Some(at), updatedAt := at);
      var after := db.(sessions := db.sessions[s := row], operations := db.operations[o := op]);
      ForeignKeys(after) && StatusAgrees(after) && Interlock(after) && IntentShape(after)
  {
    hide KeysUnique, OneCompleted, OpShape, SessionShape;
    assert IsUnresolved(db, o);
  }

  lemma PutActivationUnique(db: Db, o: Id, at: Time, s: Id)
    requires RowInv(db)
    requires o in db.operations && db.operations[o].status == Pending && db.operations[o].session == s
    ensures
      var op := db.operations[o].(status := Completed, startedAt := Some(at), updatedAt := at);
      var after := db.(operations := db.operations[o := op]);
      KeysUnique(after) && OneUnresolved(after) && OneCompleted(after)
  {
    hide Interlock, IntentShape, OpShape, SessionShape;
    assert IsUnresolved(db, o);
  }

  /** A pending operation and its created session move together. */
  lemma PutActivation(db: Db, o: Id, at: Time, s: Id)
    requires RowInv(db)
    requires o in db.operations && db.operations[o].status == Pending && db.operations[o].session == s
    requires db.sessions[s].createdAt <= at && db.operations[o].createdAt <= at
    ensures
      var row := db.sessions[s].(status := Active, startedAt := Some(at));
      var op := db.operations[o].(status := Completed, startedAt := Some(at), updatedAt := at);
      RowInv(db.(sessions := db.sessions[s := row], operations := db.operations[o := op]))
  {
    var row := db.sessions[s].(status := Active, startedAt := Some(at));
    var op := db.operations[o].(status := Completed, startedAt := Some(at), updatedAt := at);
    assert OpShape(db.operations[o]) && SessionShape(db.sessions[s]) && db.sessions[s].status == Created by {
      assert IsUnresolved(db, o);
    }
    assert OpShape(op) && SessionShape(row);
    PutActivationAgrees(db, o, at, s);
    PutActivationUnique(db, o, at, s);
    SameOperations(db.(operations := db.operations[o := op]),
                   db.(sessions := db.sessions[s := row], operations := db.operations[o := op]));
    hide KeysUnique, OneUnresolved, OneCompleted, StatusAgrees, Interlock, IntentShape, OpShape, SessionShape,
         ForeignKeys;
  }

  lemma ActivateKeeps(db: Db, p: ActivateParams)
    requires DbInv(db)
    ensures DbInv(TransitionToActive(db, p).0)
  {
    var after := TransitionToActive(db, p).0;
    if after != db {
      PutActivation(db, p.operation, p.at, p.session);
      assert IsCompleted(after, p.operation) && after.operations[p.operation].session == p.session;
      StartsStayRecorded(db, after);
    }
  }

  /** What writing session row `s` must respect. */
  ghost predicate SessionFits(db: Db, s: Id, row: Session) {
    && SessionShape(row)
    && (s in db.sessions ==> row.account == db.sessions[s].account && row.startedAt == db.sessions[s].startedAt)
    && (s !in db.sessions ==> row.status == Created)
    && (s in db.sessions && row.status == Created ==> db.sessions[s].status == Created)
    && (s in db.sessions && row.status != Created ==>
          forall o :: IsUnresolved(db, o) ==> db.operations[o].session != s)
    && (s in db.intents && db.intents[s].completedAt.Some? ==> Terminal(row.status))
  }

  lemma SameOperations(a: Db, b: Db)
    requires a.operations == b.operations
    ensures KeysUnique(a) ==> KeysUnique(b)
    ensures OneUnresolved(a) ==> OneUnresolved(b)
    ensures OneCompleted(a) ==> OneCompleted(b)
    ensures a.intents == b.intents && Interlock(a) ==> Interlock(b)
  {
  }

  lemma PutSessionAgrees(db: Db, s: Id, row: Session)
    requires ForeignKeys(db) && StatusAgrees(db) && IntentShape(db)
    requires SessionFits(db, s, row)
    ensures
      var after := db.(sessions := db.sessions[s := row]);
      ForeignKeys(after) && StatusAgrees(after) && IntentShape(after)
  {
    hide SessionShape;
  }

  lemma PutSessionRow(db: Db, s: Id, row: Session)
    requires RowInv(db)
    requires SessionFits(db, s, row)
    ensures RowInv(db.(sessions := db.sessions[s := row]))
  {
    assert SessionShape(row);
    hide ForeignKeys, KeysUnique, OneUnresolved, OneCompleted, StatusAgrees, Interlock, IntentShape, OpShape,
         SessionShape, SessionFits;
    SameOperations(db, db.(sessions := db.sessions[s := row]));
    PutSessionAgrees(db, s, row);
  }

  lemma PutSession(db: Db, s: Id, row: Session)
    requires DbInv(db)
    requires SessionFits(db, s, row)
    ensures DbInv(db.(sessions := db.sessions[s := row]))
  {
    PutSessionRow(db, s, row);
    StartsStayRecorded(db, db.(sessions := db.sessions[s := row]));
  }

  lemma CreateKeeps(db: Db, s: Id, account: Id, at: Time)
    requires DbInv(db)
    ensures DbInv(Create(db, s, account, at).0)
  {
    var after := Create(db, s, account, at).0;
    if after != db {
      PutSession(db, s, after.sessions[s]);
    }
  }

  /** Ending a session never looks at its operations. It keeps the rows consistent exactly when it
      does nothing or no start operation of the session is unresolved. */
  lemma EndKeepsIff(db: Db, p: EndParams)
    requires DbInv(db)
    ensures DbInv(TransitionToEnded(db, p).0) <==>
            TransitionToEnded(db, p).1.Err? || !HasUnresolved(db, p.session)
  {
    var after := TransitionToEnded(db, p).0;
    if TransitionToEnded(db, p).1.Ok? {
      if HasUnresolved(db, p.session) {
        var o :| o in db.operations && IsUnresolved(db, o) && db.operations[o].session == p.session;
        assert IsUnresolved(after, o);
      } else {
        PutSession(db, p.session, after.sessions[p.session]);
      }
    }
  }

  lemma EndKeeps(db: Db, p: EndParams)
    requires DbInv(db)
    requires p.session in db.intents
    ensures DbInv(TransitionToEnded(db, p).0)
  {
    EndKeepsIff(db, p);
  }

  lemma FailKeeps(db: Db, p: FailParams)
    requires DbInv(db)
    ensures DbInv(TransitionToFailed(db, p).0)
  {
    var after := TransitionToFailed(db, p).0;
    if after != db {
      PutSession(db, p.session, after.sessions[p.session]);
    }
  }

  /** What writing the end intent of session `s` must respect. */
  ghost predicate IntentFits(db: Db, s: Id, row: EndIntent) {
    && s in db.sessions && row.account == db.sessions[s].account
    && (s !in db.intents ==> forall o :: IsUnresolved(db, o) ==> db.operations[o].session != s)
    && (row.owner.Some? <==> row.lease.Some?)
    && (row.completedAt.Some? ==>
          row.owner.None? && Terminal(db.sessions[s].status) && row.requestedAt <= row.completedAt.value)
  }

  lemma PutIntentRow(db: Db, s: Id, row: EndIntent)
    requires RowInv(db)
    requires IntentFits(db, s, row)
    ensures RowInv(db.(intents := db.intents[s := row]))
  {
  }

  lemma PutIntent(db: Db, s: Id, row: EndIntent)
    requires DbInv(db)
    requires IntentFits(db, s, row)
    ensures DbInv(db.(intents := db.intents[s := row]))
  {
    PutIntentRow(db, s, row);
    StartsStayRecorded(db, db.(intents := db.intents[s := row]));
  }

  lemma SaveEndKeeps(db: Db, p: IntentParams)
    requires DbInv(db)
    ensures DbInv(SaveEndIntent(db, p).0)
  {
    var after := SaveEndIntent(db, p).0;
    if after != db {
      PutIntent(db, p.session, after.intents[p.session]);
    }
  }

  lemma CompleteEndKeeps(db: Db, s: Id, at: Time)
    requires DbInv(db)
    ensures DbInv(CompleteEndIntent(db, s, at).0)
  {
    var after := CompleteEndIntent(db, s, at).0;
    if after != db {
      PutIntent(db, s, after.intents[s]);
    }
  }

  lemma LeaseKeeps(db: Db, p: LeaseParams, pick: Id)
    requires DbInv(db)
    ensures DbInv(ClaimPendingEndIntent(db, p, pick).0)
  {
    var after := ClaimPendingEndIntent(db, p, pick).0;
    if after != db {
      PutIntent(db, pick, after.intents[pick]);
    }
  }

  lemma RetryKeeps(db: Db, p: RetryParams)
    requires DbInv(db)
    ensures DbInv(RetryClaimedEndIntent(db, p).0)
  {
    var after := RetryClaimedEndIntent(db, p).0;
    if after != db {
      PutIntent(db, p.session, after.intents[p.session]);
    }
  }

  lemma CompleteClaimedKeeps(db: Db, p: FinishIntentParams)
    requires DbInv(db)
    ensures DbInv(CompleteClaimedEndIntent(db, p).0)
  {
    var after := CompleteClaimedEndIntent(db, p).0;
    if after != db {
      PutIntent(db, p.session, after.intents[p.session]);
    }
  }

  lemma TickKeeps(db: Db, elapsed: nat)
    requires DbInv(db)
    ensures DbInv(db.(now := db.now + elapsed))
  {
    StartsStayRecorded(db, db.(now := db.now + elapsed));
  }

  /** Intents are never deleted, and one that was handed out is there. */
  lemma IntentsStay(db: Db, tx: Tx)
    ensures db.intents.Keys + Hands(db, tx) <= Apply(db, tx).intents.Keys
  {
    hide HasUnresolved, KeyUsed, IntentKeyUsed;
  }

  lemma StepKeeps(db: Db, handed: set<Id>, tx: Tx)
    requires DbInv(db) && handed <= db.intents.Keys
    requires Lawful(handed, tx)
    ensures DbInv(Apply(db, tx)) && handed + Hands(db, tx) <= Apply(db, tx).intents.Keys
  {
    IntentsStay(db, tx);
    hide DbInv, Hands;
    match tx
    case CreateTx(s, a, at) => CreateKeeps(db, s, a, at);
    case BeginTx(p) => BeginKeeps(db, p);
    case ClaimTx(p) => ClaimKeeps(db, p);
    case FinishTx(p, c) => FinishKeeps(db, p, c);
    case ActivateTx(p) => ActivateKeeps(db, p);
    case SaveEndTx(p) => SaveEndKeeps(db, p);
    case CompleteEndTx(s, at) => CompleteEndKeeps(db, s, at);
    case EndTx(p) => EndKeeps(db, p);
    case FailTx(p) => FailKeeps(db, p);
    case LeaseTx(p, s) => LeaseKeeps(db, p, s);
    case RetryTx(p) => RetryKeeps(db, p);
    case CompleteClaimedTx(p) => CompleteClaimedKeeps(db, p);
    case TickTx(d) => TickKeeps(db, d);
  }

  // ----- every run

  lemma {:induction false} RunKeeps(db: Db, handed: set<Id>, txs: seq<Tx>)
    requires DbInv(db) && handed <= db.intents.Keys
    requires LawfulRun(db, handed, txs)
    ensures DbInv(Run(db, txs))
    decreases |txs|
  {
    hide DbInv, Apply, Hands;
    if txs != [] {
      StepKeeps(db, handed, txs[0]);
      RunKeeps(Apply(db, txs[0]), handed + Hands(db, txs[0]), txs[1..]);
    }
  }

  /** The interlock over every run of every number of instances: an unresolved start operation
      belongs to a session that is still created and has no end intent, and it is the only one. */
  lemma StartEndInterlock(txs: seq<Tx>, o: Id)
    requires LawfulRun(EmptyDb, {}, txs)
    requires IsUnresolved(Run(EmptyDb, txs), o)
    ensures
      var db := Run(EmptyDb, txs);
      var s := db.operations[o].session;
      && s in db.sessions
      && db.sessions[s].status == Created
      && s !in db.intents
      && (forall q :: IsUnresolved(db, q) && db.operations[q].session == s ==> q == o)
  {
    RunKeeps(EmptyDb, {}, txs);
  }

  /** Sessions and operations agree in every run: an active or failed session has exactly one completed
      operation, a created one has none, and the timestamps are in order. */
  lemma SessionsAndOperationsAgree(txs: seq<Tx>, s: Id)
    requires LawfulRun(EmptyDb, {}, txs)
    requires s in Run(EmptyDb, txs).sessions
    ensures
      var db := Run(EmptyDb, txs);
      var row := db.sessions[s];
      && (row.status == Created ==> !HasCompleted(db, s))
      && (row.status != Created ==> !HasUnresolved(db, s))
      && (row.status == Active || row.status == Failed ==> HasCompleted(db, s))
      && OneCompleted(db)
      && (row.startedAt.Some? ==> row.createdAt <= row.startedAt.value)
      && (row.endedAt.Some? <==> Terminal(row.status))
      && (row.endedAt.Some? ==> row.createdAt <= row.endedAt.value)
      && (row.endedAt.Some? && row.startedAt.Some? ==> row.startedAt.value <= row.endedAt.value)
  {
    RunKeeps(EmptyDb, {}, txs);
  }
}

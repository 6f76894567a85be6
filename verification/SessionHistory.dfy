/** How rows may change over time: the edges one transaction can take, what every run preserves, and
    the authority a granted compensation claim confers. */
module SessionHistory {
  import opened Wrappers
  import opened SessionRows
  import opened SessionTransactions
  import opened SessionRuns

  // ----- the edges of one transaction

  predicate StatusEdge(a: Status, b: Status) {
    || (a == Created && (b == Active || b == Ended))
    || (a == Active && (b == Ended || b == Failed))
  }

  predicate OpEdge(a: OpStatus, b: OpStatus) {
    || (a == Pending && (b == Completed || b == Compensating))
    || (a == Compensating && (b == Compensated || b == CompensationFailed))
    || (a == CompensationFailed && b == Compensated)
  }

  predicate SessionMoves(a: Session, b: Session) {
    && a.account == b.account && a.createdAt == b.createdAt && StatusEdge(a.status, b.status)
    && (b.status == Active || b.startedAt == a.startedAt)
  }

  predicate OpMoves(a: StartOperation, b: StartOperation) {
    && a.session == b.session && a.account == b.account && a.key == b.key && a.hash == b.hash
    && a.createdAt == b.createdAt
    && OpEdge(a.status, b.status)
    && (a.claim == b.claim || (a.status == Pending && b.status == Compensating))
  }

  predicate SameRequest(a: EndIntent, b: EndIntent) {
    && a.account == b.account && a.reason == b.reason && a.key == b.key && a.hash == b.hash
    && a.trace == b.trace && a.requestedAt == b.requestedAt
  }

  /** From `a` to `b` only session `s`, operation `o` of that session and the intent of `s` may change,
      each along an edge; nothing is deleted. */
  ghost predicate Moves(a: Db, b: Db, s: Id, o: Id) {
    && a.now <= b.now
    && (a.sessions == b.sessions || (
          && s in b.sessions && b.sessions == a.sessions[s := b.sessions[s]]
          && (if s in a.sessions then SessionMoves(a.sessions[s], b.sessions[s]) else b.sessions[s].status == Created)))
    && (a.operations == b.operations || (
          && o in b.operations && b.operations == a.operations[o := b.operations[o]] && b.operations[o].session == s
          && (if o in a.operations then OpMoves(a.operations[o], b.operations[o])
              else b.operations[o].status == Pending && b.operations[o].claim == None)))
    && (a.intents == b.intents || (
          && s in b.intents && b.intents == a.intents[s := b.intents[s]]
          && (s in a.intents ==> SameRequest(a.intents[s], b.intents[s]) && a.intents[s].completedAt.None?)))
  }

  function Concerns(tx: Tx): (Id, Id) {
    match tx
    case CreateTx(s, _, _) => (s, "")
    case BeginTx(p) => (p.session, p.operation)
    case ClaimTx(p) => (p.session, p.operation)
    case FinishTx(p, _) => (p.session, p.operation)
    case ActivateTx(p) => (p.session, p.operation)
    case SaveEndTx(p) => (p.session, "")
    case CompleteEndTx(s, _) => (s, "")
    case EndTx(p) => (p.session, "")
    case FailTx(p) => (p.session, "")
    case LeaseTx(_, s) => (s, "")
    case RetryTx(p) => (p.session, "")
    case CompleteClaimedTx(p) => (p.session, "")
    case TickTx(_) => ("", "")
  }

  lemma OperationStepMoves(db: Db, tx: Tx)
    requires tx.BeginTx? || tx.ClaimTx? || tx.FinishTx? || tx.ActivateTx?
    ensures Moves(db, Apply(db, tx), Concerns(tx).0, Concerns(tx).1)
  {
    hide KeyUsed, HasUnresolved;
  }

  lemma SessionStepMoves(db: Db, tx: Tx)
    requires tx.CreateTx? || tx.EndTx? || tx.FailTx? || tx.TickTx?
    ensures Moves(db, Apply(db, tx), Concerns(tx).0, Concerns(tx).1)
  {
  }

  lemma IntentStepMoves(db: Db, tx: Tx)
    requires tx.SaveEndTx? || tx.CompleteEndTx? || tx.LeaseTx? || tx.RetryTx? || tx.CompleteClaimedTx?
    ensures Moves(db, Apply(db, tx), Concerns(tx).0, Concerns(tx).1)
  {
    hide KeyUsed, HasUnresolved, IntentKeyUsed;
  }

  lemma StepMoves(db: Db, tx: Tx)
    ensures Moves(db, Apply(db, tx), Concerns(tx).0, Concerns(tx).1)
  {
    hide Moves, Apply, Concerns;
    match tx
    case BeginTx(_) => OperationStepMoves(db, tx);
    case ClaimTx(_) => OperationStepMoves(db, tx);
    case FinishTx(_, _) => OperationStepMoves(db, tx);
    case ActivateTx(_) => OperationStepMoves(db, tx);
    case CreateTx(_, _, _) => SessionStepMoves(db, tx);
    case EndTx(_) => SessionStepMoves(db, tx);
    case FailTx(_) => SessionStepMoves(db, tx);
    case TickTx(_) => SessionStepMoves(db, tx);
    case _ => IntentStepMoves(db, tx);
  }

  // ----- what every run preserves

  predicate StatusReach(a: Status, b: Status) {
    a == b || StatusEdge(a, b) || (a == Created && b == Failed)
  }

  predicate OpReach(a: OpStatus, b: OpStatus) {
    a == b || OpEdge(a, b) || (a == Pending && (b == Compensated || b == CompensationFailed))
  }

  predicate SessionReaches(a: Session, b: Session) {
    && a.account == b.account && a.createdAt == b.createdAt && StatusReach(a.status, b.status)
    && (a.status != Created ==> b.startedAt == a.startedAt)
    && (Terminal(a.status) ==> b == a)
  }

  predicate OpReaches(a: StartOperation, b: StartOperation) {
    && a.session == b.session && a.account == b.account && a.key == b.key && a.hash == b.hash
    && a.createdAt == b.createdAt
    && OpReach(a.status, b.status)
    && (a.status != Pending ==> b.claim == a.claim)
    && (a.status == Completed || a.status == Compensated ==> b == a)
  }

  /** Nothing is deleted and nothing moves back. A claim id never changes once set; a terminal session,
      a resolved operation and a completed intent are frozen. */
  ghost predicate Evolves(a: Db, b: Db) {
    && a.now <= b.now
    && (forall s :: s in a.sessions ==> s in b.sessions && SessionReaches(a.sessions[s], b.sessions[s]))
    && (forall o :: o in a.operations ==> o in b.operations && OpReaches(a.operations[o], b.operations[o]))
    && (forall s :: s in a.intents ==>
          && s in b.intents
          && SameRequest(a.intents[s], b.intents[s])
          && (a.intents[s].completedAt.Some? ==> b.intents[s] == a.intents[s]))
  }

  lemma MovesEvolves(a: Db, b: Db, s: Id, o: Id)
    requires Moves(a, b, s, o)
    ensures Evolves(a, b)
  {
  }

  lemma EvolvesTransitive(a: Db, b: Db, c: Db)
    requires Evolves(a, b) && Evolves(b, c)
    ensures Evolves(a, c)
  {
  }

  lemma {:induction false} RunEvolves(db: Db, txs: seq<Tx>)
    ensures Evolves(db, Run(db, txs))
    decreases |txs|
  {
    hide Apply, Moves;
    if txs != [] {
      StepMoves(db, txs[0]);
      MovesEvolves(db, Apply(db, txs[0]), Concerns(txs[0]).0, Concerns(txs[0]).1);
      RunEvolves(Apply(db, txs[0]), txs[1..]);
      EvolvesTransitive(db, Apply(db, txs[0]), Run(db, txs));
    }
  }

  // ----- compensation authority

  /** `c` is the claim that alone may clean up after operation `o`. */
  ghost predicate Held(db: Db, o: Id, c: Id) {
    && o in db.operations
    && (db.operations[o].status == Compensating || db.operations[o].status == CompensationFailed)
    && db.operations[o].claim == Some(c)
  }

  /** A granted claim is held afterwards by the claimant, on a session that is still created. */
  lemma GrantIsHeld(db: Db, p: ClaimParams)
    requires DbInv(db)
    requires ClaimStartCompensation(db, p).1 == Ok(Granted)
    ensures Held(ClaimStartCompensation(db, p).0, p.operation, p.claim)
    ensures ClaimStartCompensation(db, p).0.sessions[p.session].status == Created
    ensures p.operation in db.operations && db.operations[p.operation].session == p.session
  {
  }

  /** While a claim is held nothing else may happen to its session: nothing begins or activates, no end
      intent is saved or leased, so that no caller gets to end the session, it does not fail, and no other
      claim is granted. */
  lemma HeldExcludesOthers(db: Db, o: Id, c: Id)
    requires DbInv(db)
    requires Held(db, o, c)
    ensures db.operations[o].session in db.sessions
    ensures db.sessions[db.operations[o].session].status == Created
    ensures db.operations[o].session !in db.intents
    ensures forall p: BeginParams :: p.session == db.operations[o].session ==> BeginStartOperation(db, p).0 == db
    ensures forall p: ActivateParams :: p.session == db.operations[o].session ==> TransitionToActive(db, p).1.Err?
    ensures forall p: IntentParams :: p.session == db.operations[o].session ==> SaveEndIntent(db, p).1.Err?
    ensures forall p: LeaseParams :: ClaimPendingEndIntent(db, p, db.operations[o].session).0 == db
    ensures forall p: EndParams :: p.session == db.operations[o].session ==> !Lawful(db.intents.Keys, EndTx(p))
    ensures forall p: FailParams :: p.session == db.operations[o].session ==> TransitionToFailed(db, p).1.Err?
    ensures forall p: ClaimParams ::
              p.session == db.operations[o].session && ClaimStartCompensation(db, p).1 == Ok(Granted) ==>
                p.operation == o && p.claim == c
  {
    assert HasUnresolved(db, db.operations[o].session) by {
      assert IsUnresolved(db, o);
    }
  }

  /** Session `s` looks the same in both databases, apart from operation `o`. */
  ghost predicate Untouched(a: Db, b: Db, s: Id, o: Id) {
    && s in a.sessions && s in b.sessions && a.sessions[s] == b.sessions[s]
    && s !in a.intents && s !in b.intents
    && (forall q :: q != o && q in a.operations && a.operations[q].session == s ==>
          q in b.operations && b.operations[q] == a.operations[q])
    && (forall q :: q != o && q in b.operations && b.operations[q].session == s ==>
          q in a.operations && b.operations[q] == a.operations[q])
  }

  /** The only transaction that ends the authority: the claimant records that cleanup is complete. */
  predicate Releases(tx: Tx, o: Id, c: Id) {
    tx.FinishTx? && tx.complete && tx.finish.operation == o && tx.finish.claim == c
  }

  lemma OthersResolved(db: Db, o: Id)
    requires DbInv(db)
    requires IsUnresolved(db, o)
    ensures HasUnresolved(db, db.operations[o].session)
    ensures forall q :: q != o && q in db.operations && db.operations[q].session == db.operations[o].session ==>
              db.operations[q].status == Compensated
  {
    forall q | q != o && q in db.operations && db.operations[q].session == db.operations[o].session
      ensures db.operations[q].status == Compensated
    {
      assert !IsUnresolved(db, q) && !IsCompleted(db, q);
    }
  }

  lemma AuthorityElsewhere(db: Db, after: Db, s: Id, o: Id, c: Id, t: Id, q: Id)
    requires DbInv(db)
    requires Held(db, o, c) && db.operations[o].session == s
    requires Moves(db, after, t, q) && t != s
    ensures Untouched(db, after, s, o) && Held(after, o, c)
  {
    HeldExcludesOthers(db, o, c);
  }

  lemma AuthorityHere(db: Db, tx: Tx, o: Id, c: Id)
    requires DbInv(db)
    requires Lawful(db.intents.Keys, tx)
    requires Held(db, o, c)
    requires Concerns(tx).0 == db.operations[o].session
    ensures Untouched(db, Apply(db, tx), db.operations[o].session, o)
    ensures Held(Apply(db, tx), o, c) || Releases(tx, o, c)
  {
    hide RowInv, StartsRecorded, HasUnresolved, KeyUsed, IntentKeyUsed;
    OthersResolved(db, o);
    HeldExcludesOthers(db, o, c);
    match tx
    case FinishTx(p, complete) => FinishHere(db, p, complete, o, c);
    case ClaimTx(p) => ClaimHere(db, p, o, c);
    case _ => OthersHere(db, tx, o, c);
  }

  lemma FinishHere(db: Db, p: ClaimParams, complete: bool, o: Id, c: Id)
    requires Held(db, o, c) && p.session == db.operations[o].session
    requires p.session in db.sessions && p.session !in db.intents
    requires forall q :: q != o && q in db.operations && db.operations[q].session == p.session ==>
               db.operations[q].status == Compensated
    ensures Untouched(db, FinishStartCompensation(db, p, complete).0, p.session, o)
    ensures Held(FinishStartCompensation(db, p, complete).0, o, c) || Releases(FinishTx(p, complete), o, c)
  {
  }

  lemma ClaimHere(db: Db, p: ClaimParams, o: Id, c: Id)
    requires Held(db, o, c) && p.session == db.operations[o].session
    requires p.session in db.sessions && p.session !in db.intents
    requires forall q :: q != o && q in db.operations && db.operations[q].session == p.session ==>
               db.operations[q].status == Compensated
    ensures ClaimStartCompensation(db, p).0 == db
    ensures Untouched(db, db, p.session, o)
  {
  }

  /** Every other transaction on the session is refused. */
  lemma OthersHere(db: Db, tx: Tx, o: Id, c: Id)
    requires DbInv(db)
    requires Lawful(db.intents.Keys, tx)
    requires Held(db, o, c)
    requires Concerns(tx).0 == db.operations[o].session
    requires !tx.FinishTx? && !tx.ClaimTx?
    ensures Untouched(db, Apply(db, tx), db.operations[o].session, o)
    ensures Held(Apply(db, tx), o, c)
  {
    hide RowInv, StartsRecorded, HasUnresolved, KeyUsed, IntentKeyUsed;
    HeldExcludesOthers(db, o, c);
  }

  lemma StepAuthority(db: Db, tx: Tx, o: Id, c: Id)
    requires DbInv(db)
    requires Lawful(db.intents.Keys, tx)
    requires Held(db, o, c)
    ensures Untouched(db, Apply(db, tx), db.operations[o].session, o)
    ensures Held(Apply(db, tx), o, c) || Releases(tx, o, c)
  {
    hide Apply, DbInv, Untouched;
    if Concerns(tx).0 == db.operations[o].session {
      AuthorityHere(db, tx, o, c);
    } else {
      StepMoves(db, tx);
      AuthorityElsewhere(db, Apply(db, tx), db.operations[o].session, o, c, Concerns(tx).0, Concerns(tx).1);
    }
  }

  lemma UntouchedTransitive(a: Db, b: Db, c: Db, s: Id, o: Id)
    requires Untouched(a, b, s, o) && Untouched(b, c, s, o)
    ensures Untouched(a, c, s, o)
  {
  }

  /** From a granted claim until its cleanup is recorded as complete, whatever any instance does, the
      claim stays with its claimant and the session stays untouched. */
  lemma {:induction false} AuthorityInEveryRun(db: Db, handed: set<Id>, txs: seq<Tx>, o: Id, c: Id)
    requires DbInv(db) && handed <= db.intents.Keys
    requires LawfulRun(db, handed, txs)
    requires Held(db, o, c)
    requires forall i :: 0 <= i < |txs| ==> !Releases(txs[i], o, c)
    ensures Held(Run(db, txs), o, c)
    ensures Untouched(db, Run(db, txs), db.operations[o].session, o)
    decreases |txs|
  {
    hide Apply, RowInv;
    if txs == [] {
      HeldExcludesOthers(db, o, c);
    } else {
      StepAuthority(db, txs[0], o, c);
      StepKeeps(db, handed, txs[0]);
      StepMoves(db, txs[0]);
      MovesEvolves(db, Apply(db, txs[0]), Concerns(txs[0]).0, Concerns(txs[0]).1);
      AuthorityInEveryRun(Apply(db, txs[0]), handed + Hands(db, txs[0]), txs[1..], o, c);
      UntouchedTransitive(db, Apply(db, txs[0]), Run(db, txs), db.operations[o].session, o);
    }
  }

  /** Once a session has left the created state, by activation or otherwise, no compensation claim is
      ever granted again, so no later call may stop the runtime on behalf of a start. */
  lemma NoClaimAfterActivation(db: Db, txs: seq<Tx>, p: ClaimParams)
    requires p.session in db.sessions && db.sessions[p.session].status != Created
    ensures ClaimStartCompensation(Run(db, txs), p).1 != Ok(Granted)
  {
    RunEvolves(db, txs);
  }

  /** An activation that was committed is replayed for its own request, changing nothing, in any later
      state in which the session is still active and not ending. */
  lemma ActivationReplays(db: Db, handed: set<Id>, txs: seq<Tx>, p: ActivateParams, q: BeginParams)
    requires DbInv(db) && handed <= db.intents.Keys
    requires TransitionToActive(db, p).1.Ok?
    requires LawfulRun(TransitionToActive(db, p).0, handed, txs)
    requires q.session == p.session && q.key == p.key && q.hash == p.hash && q.operation != "" && q.at != 0
    ensures
      var later := Run(TransitionToActive(db, p).0, txs);
      && p.session in later.sessions
      && p.operation in later.operations
      && (later.sessions[p.session].status == Active && p.session !in later.intents ==>
            && BeginStartOperation(later, q) ==
                 (later, Ok(OperationReply(p.operation, later.operations[p.operation])))
            && later.operations[p.operation].status == Completed
            && TransitionToActive(later, p) == (later, Ok(later.sessions[p.session])))
  {
    hide RowInv, StartsRecorded, TransitionToActive, BeginStartOperation;
    var first := TransitionToActive(db, p).0;
    ActivationRecorded(db, p);
    ActivateKeeps(db, p);
    RunKeeps(first, handed, txs);
    RunEvolves(first, txs);
    var later := Run(first, txs);
    if p.session !in later.intents {
      ReplayFound(later, p, q);
    }
  }

  lemma ActivationRecorded(db: Db, p: ActivateParams)
    requires TransitionToActive(db, p).1.Ok?
    ensures p.operation != "" && p.session != "" && p.key != "" && p.hash != "" && p.at != 0
    ensures p.operation in TransitionToActive(db, p).0.operations
    ensures p.session in TransitionToActive(db, p).0.sessions
    ensures TransitionToActive(db, p).0.intents == db.intents
    ensures
      var op := TransitionToActive(db, p).0.operations[p.operation];
      op.session == p.session && op.key == p.key && op.hash == p.hash && op.status == Completed
  {
  }

  lemma ReplayFound(db: Db, p: ActivateParams, q: BeginParams)
    requires DbInv(db)
    requires p.session in db.sessions && p.operation in db.operations
    requires
      var op := db.operations[p.operation];
      op.session == p.session && op.key == p.key && op.hash == p.hash && op.status == Completed
    requires p.operation != "" && p.session != "" && p.key != "" && p.hash != "" && p.at != 0
    requires q.session == p.session && q.key == p.key && q.hash == p.hash && q.operation != "" && q.at != 0
    requires p.session !in db.intents
    ensures BeginStartOperation(db, q) == (db, Ok(OperationReply(p.operation, db.operations[p.operation])))
    ensures db.sessions[p.session].status == Active ==>
              TransitionToActive(db, p) == (db, Ok(db.sessions[p.session]))
  {
    assert UsesKey(db, p.operation, db.sessions[p.session].account, p.key);
  }
}

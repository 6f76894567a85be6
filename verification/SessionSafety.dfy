/** No orphan runtime: over every run of the machine a live runtime belongs to a start that is still
    being decided or to the start that made its session active. */
module SessionSafety {
  import opened Wrappers
  import opened SessionRows
  import opened SessionTransactions
  import opened SessionRuns
  import opened SessionHistory
  import opened SessionLifecycle

  // ----- the invariant

  /** The runtime of session `s` is accounted for. */
  ghost predicate Owned(db: Db, s: Id, runtime: Runtime) {
    && s in db.sessions
    && runtime.operation in db.operations
    && db.operations[runtime.operation].session == s
    && runtime.since <= db.now
    && ((db.sessions[s].status == Created && Unresolved(db.operations[runtime.operation].status))
        || (db.sessions[s].status == Active
            && db.operations[runtime.operation].status == Completed
            && db.sessions[s].startedAt.Some?
            && runtime.since < db.sessions[s].startedAt.value))
  }

  ghost predicate NoOrphan(db: Db, live: map<Id, Runtime>) {
    forall s :: s in live ==> Owned(db, s, live[s])
  }

  /** Every failure report predates whatever is live in its session now. */
  ghost predicate ReportsStale(world: World) {
    forall r :: r in world.reports ==>
      r.1 <= world.db.now && (r.0 in world.live ==> r.1 <= world.live[r.0].since)
  }

  ghost predicate WorldInv(world: World) {
    DbInv(world.db) && NoOrphan(world.db, world.live) && ReportsStale(world)
  }

  ghost predicate StartedBy(db: Db, i: StartInput, op: Id) {
    && op in db.operations
    && db.operations[op].session == i.session
    && db.operations[op].key == i.key
    && db.operations[op].hash == i.hash
    && db.operations[op].status == Completed
  }

  /** What a call knows at each of its program points. */
  ghost predicate CallInv(world: World, call: Call) {
    var db := world.db;
    match call
    case Start(i, p) => (
      match p
      case Launching(op) =>
        op in db.operations && db.operations[op].session == i.session && db.operations[op].status == Pending
      case Cleaning(op, claim) =>
        && op in db.operations && db.operations[op].session == i.session
        && db.operations[op].status == Compensating && db.operations[op].claim == Some(claim)
      case Cleaned(op, claim) => i.session !in world.live
      case Rereading(op) => StartedBy(db, i, op)
      case StartOk(op) => StartedBy(db, i, op)
      case _ => true)
    case End(e, p) => (
      match p
      case EndingCreated => e.session in db.intents
      case StoppingActive => e.session in db.intents
      case EndingActive(_) => e.session in db.intents && e.session !in world.live
      case CompletingIntent => e.session in db.intents
      case EndOk => e.session in db.intents && db.intents[e.session].completedAt.Some?
      case _ => true)
    case Worker(_, s, _, p) =>
      && (p != Scanning && p != WorkerDone ==> s in db.intents)
      && (p.RecoveringActive? ==> s !in world.live)
    case Failure(s, at, _) => (s, at) in world.reports
  }

  ghost predicate Serialised(calls: map<nat, Call>) {
    forall c, d ::
      (c in calls && d in calls && HoldsLock(calls[c]) && HoldsLock(calls[d]) && Subject(calls[c]) == Subject(calls[d]))
      ==> c == d
  }

  ghost predicate MachineInv(m: Machine) {
    && WorldInv(m.world)
    && Serialised(m.calls)
    && (forall c :: c in m.calls ==> CallInv(m.world, m.calls[c]))
  }

  // ----- what a step leaves alone

  /** `a` to `b` is business of session `t` only: other sessions see the same rows and the same runtime,
      and no row or report is forgotten. */
  ghost predicate Private(a: World, b: World, t: Id) {
    && Evolves(a.db, b.db)
    && a.reports <= b.reports
    && (forall o :: o in a.db.operations && a.db.operations[o].session != t ==>
          b.db.operations[o] == a.db.operations[o])
    && (forall s :: s != t ==> (s in b.live <==> s in a.live) && (s in a.live ==> b.live[s] == a.live[s]))
  }

  /** `a` to `b` touches neither start operations nor runtimes. */
  ghost predicate Harmless(a: World, b: World) {
    && Evolves(a.db, b.db)
    && a.reports <= b.reports
    && a.db.operations == b.db.operations
    && b.live.Keys <= a.live.Keys
  }

  lemma OthersKnow(a: World, b: World, t: Id, call: Call)
    requires CallInv(a, call)
    requires Harmless(a, b) || (Private(a, b, t) && (Subject(call) != t || !HoldsLock(call)))
    ensures CallInv(b, call)
  {
  }

  // ----- one repository transaction or realtime call at a time

  lemma DbStep(world: World, after: Db, s: Id, o: Id)
    requires WorldInv(world)
    requires DbInv(after)
    requires Moves(world.db, after, s, o)
    requires s in world.live ==> Owned(after, s, world.live[s])
    ensures WorldInv(world.(db := after))
    ensures Private(world, world.(db := after), s)
  {
    hide DbInv;
    MovesEvolves(world.db, after, s, o);
    forall t | t in world.live && t != s ensures Owned(after, t, world.live[t]) {
      assert Owned(world.db, t, world.live[t]);
    }
    assert NoOrphan(after, world.live);
  }

  /** A transaction run on a clock reading, whether or not its reply arrives. */
  lemma TxStep(world: World, now: Db, tx: Tx, w: Weather)
    requires WorldInv(world)
    requires now == world.db || now == Tick(world.db)
    requires Lawful(now.intents.Keys, tx)
    requires
      var s := Concerns(tx).0;
      s in world.live ==> Owned(Apply(now, tx), s, world.live[s])
    ensures
      var after := world.(db := Committed(w, now, Apply(now, tx)));
      WorldInv(after) && Private(world, after, Concerns(tx).0)
  {
    hide RowInv, StartsRecorded, Apply;
    var s, o := Concerns(tx).0, Concerns(tx).1;
    TickKeeps(world.db, 1);
    if w.fault.LostBefore? {
      assert s in world.live ==> Owned(world.db, s, world.live[s]);
      DbStep(world, now, s, o);
    } else {
      StepKeeps(now, now.intents.Keys, tx);
      StepMoves(now, tx);
      DbStep(world, Apply(now, tx), s, o);
    }
  }

  // ----- Start

  lemma BeginFacts(db: Db, p: BeginParams)
    requires BeginStartOperation(db, p).1.Ok?
    ensures
      var (after, r) := BeginStartOperation(db, p);
      && r.value.id in after.operations
      && r.value.row == after.operations[r.value.id]
      && r.value.row.session == p.session && r.value.row.key == p.key && r.value.row.hash == p.hash
  {
  }

  lemma OwnedLater(world: World, s: Id)
    requires NoOrphan(world.db, world.live)
    ensures s in world.live ==> Owned(world.db, s, world.live[s]) && Owned(Tick(world.db), s, world.live[s])
  {
  }

  lemma OwnedSince(db: Db, s: Id, runtime: Runtime)
    requires Owned(db, s, runtime)
    ensures runtime.since <= db.now
  {
  }

  lemma OwnedThroughBegin(db: Db, p: BeginParams, runtime: Runtime)
    requires Owned(db, p.session, runtime)
    ensures Owned(BeginStartOperation(db, p).0, p.session, runtime)
  {
  }

  lemma OwnedThroughActivation(db: Db, p: ActivateParams, runtime: Runtime)
    requires DbInv(db)
    requires Owned(db, p.session, runtime)
    requires runtime.since < p.at
    ensures Owned(TransitionToActive(db, p).0, p.session, runtime)
  {
    if TransitionToActive(db, p).0 != db {
      assert IsUnresolved(db, p.operation) && IsUnresolved(db, runtime.operation);
    }
    hide KeysUnique, OneCompleted, StatusAgrees, Interlock, IntentShape, StartsRecorded, OpShape, SessionShape;
  }

  lemma OwnedThroughFailedCleanup(db: Db, p: ClaimParams, runtime: Runtime)
    requires Owned(db, p.session, runtime)
    ensures Owned(FinishStartCompensation(db, p, false).0, p.session, runtime)
  {
  }

  lemma BeginSafe(world: World, i: StartInput, w: Weather)
    requires WorldInv(world)
    ensures
      var (after, r) := Begin(world, i, w);
      && WorldInv(after) && Private(world, after, i.session)
      && (r.Ok? ==>
            && r.value.id in after.db.operations
            && r.value.row == after.db.operations[r.value.id]
            && r.value.row.session == i.session && r.value.row.key == i.key && r.value.row.hash == i.hash)
  {
    var now := Tick(world.db);
    var p := BeginParams(w.freshId, i.session, i.key, i.hash, now.now);
    OwnedLater(world, i.session);
    if i.session in world.live {
      OwnedThroughBegin(now, p, world.live[i.session]);
    }
    if BeginStartOperation(now, p).1.Ok? {
      BeginFacts(now, p);
    }
    hide DbInv, NoOrphan, ReportsStale, Private, Owned, BeginStartOperation;
    TxStep(world, now, BeginTx(p), w);
  }

  lemma LaunchSafe(world: World, i: StartInput, op: Id, takesEffect: bool)
    requires WorldInv(world)
    requires CallInv(world, Start(i, Launching(op)))
    ensures
      var up := world.(live := RealtimeStart(world.live, i.session, op, world.db.now, takesEffect));
      WorldInv(up) && Private(world, up, i.session)
  {
    hide DbInv, Owned, Evolves;
    var up := world.(live := RealtimeStart(world.live, i.session, op, world.db.now, takesEffect));
    NewRuntimeIsOwned(world.db, op);
    EvolvesReflexive(world.db);
    forall s | s in up.live ensures Owned(up.db, s, up.live[s]) {
      assert s in world.live ==> Owned(world.db, s, world.live[s]);
    }
  }

  lemma NewRuntimeIsOwned(db: Db, op: Id)
    requires DbInv(db) && IsUnresolved(db, op)
    ensures Owned(db, db.operations[op].session, Runtime(op, db.now))
  {
  }

  lemma ActivateSafe(world: World, i: StartInput, op: Id, w: Weather)
    requires WorldInv(world)
    ensures
      var now := Tick(world.db);
      var p := ActivateParams(i.session, op, i.key, i.hash, now.now);
      var after := world.(db := Committed(w, now, TransitionToActive(now, p).0));
      && WorldInv(after) && Private(world, after, i.session)
      && (Reply(w, TransitionToActive(now, p).1).Ok? ==> StartedBy(after.db, i, op))
  {
    hide DbInv, ReportsStale, Private, Owned, TransitionToActive;
    var now := Tick(world.db);
    var p := ActivateParams(i.session, op, i.key, i.hash, now.now);
    OwnedLater(world, i.session);
    TickKeeps(world.db, 1);
    if i.session in world.live {
      assert world.live[i.session].since <= world.db.now by {
        assert Owned(world.db, i.session, world.live[i.session]);
        OwnedSince(world.db, i.session, world.live[i.session]);
      }
      OwnedThroughActivation(now, p, world.live[i.session]);
    }
    if TransitionToActive(now, p).1.Ok? {
      ActivationRecorded(now, p);
    }
    TxStep(world, now, ActivateTx(p), w);
  }

  lemma ClaimSafe(world: World, i: StartInput, op: Id, claim: Id, w: Weather)
    requires WorldInv(world)
    ensures
      var now := Tick(world.db);
      var p := ClaimParams(i.session, op, claim, now.now);
      var after := world.(db := Committed(w, now, ClaimStartCompensation(now, p).0));
      && WorldInv(after) && Private(world, after, i.session)
      && (Reply(w, ClaimStartCompensation(now, p).1) == Ok(Granted) ==> CallInv(after, Start(i, Cleaning(op, claim))))
  {
    hide DbInv, ReportsStale, Private, Owned, ClaimStartCompensation;
    var now := Tick(world.db);
    var p := ClaimParams(i.session, op, claim, now.now);
    OwnedLater(world, i.session);
    if i.session in world.live {
      OwnedThroughClaim(now, p, world.live[i.session]);
    }
    GrantFacts(now, p);
    TxStep(world, now, ClaimTx(p), w);
  }

  lemma OwnedThroughClaim(db: Db, p: ClaimParams, runtime: Runtime)
    requires Owned(db, p.session, runtime)
    ensures Owned(ClaimStartCompensation(db, p).0, p.session, runtime)
  {
  }

  lemma GrantFacts(db: Db, p: ClaimParams)
    ensures ClaimStartCompensation(db, p).1 == Ok(Granted) ==>
              var after := ClaimStartCompensation(db, p).0;
              && p.operation in after.operations && after.operations[p.operation].session == p.session
              && after.operations[p.operation].status == Compensating
              && after.operations[p.operation].claim == Some(p.claim)
  {
  }

  lemma StopSafe(world: World, s: Id, w: Weather)
    requires WorldInv(world)
    ensures
      var down := world.(live := RealtimeStop(world.live, s, w));
      WorldInv(down) && Private(world, down, s) && (StopConfirmed(w.snapshot, s) ==> s !in down.live)
  {
    hide DbInv, Owned, StopConfirmed;
    var down := world.(live := RealtimeStop(world.live, s, w));
    forall t | t in down.live ensures Owned(down.db, t, down.live[t]) {
      assert Owned(world.db, t, world.live[t]);
    }
    EvolvesReflexive(world.db);
    hide Evolves;
  }

  lemma EvolvesReflexive(db: Db)
    ensures Evolves(db, db)
  {
  }

  lemma FinishSafe(world: World, i: StartInput, op: Id, claim: Id, complete: bool, w: Weather)
    requires WorldInv(world)
    requires complete ==> i.session !in world.live
    ensures
      var now := Tick(world.db);
      var p := ClaimParams(i.session, op, claim, now.now);
      var after := world.(db := Committed(w, now, FinishStartCompensation(now, p, complete).0));
      WorldInv(after) && Private(world, after, i.session)
  {
    hide DbInv, ReportsStale, Private, Owned, FinishStartCompensation;
    var now := Tick(world.db);
    var p := ClaimParams(i.session, op, claim, now.now);
    OwnedLater(world, i.session);
    if i.session in world.live {
      OwnedThroughFailedCleanup(now, p, world.live[i.session]);
    }
    TxStep(world, now, FinishTx(p, complete), w);
  }

  lemma FindFacts(db: Db, s: Id, key: Id)
    requires GetStartOperation(db, s, key).Ok?
    ensures
      var reply := GetStartOperation(db, s, key).value;
      && reply.id in db.operations && reply.row == db.operations[reply.id]
      && reply.row.session == s && reply.row.key == key
  {
  }

  lemma NothingChanged(world: World, s: Id)
    ensures Private(world, world, s)
  {
  }

  lemma StartSafe(world: World, i: StartInput, p: StartPoint, w: Weather)
    requires WorldInv(world)
    requires CallInv(world, Start(i, p))
    ensures
      var (after, q) := ActStart(world, i, p, w);
      WorldInv(after) && Private(world, after, i.session) && CallInv(after, Start(i, q))
  {
    NothingChanged(world, i.session);
    hide WorldInv, Private, BeginStartOperation, TransitionToActive, ClaimStartCompensation,
         FinishStartCompensation, GetStartOperation, Begin;
    match p
    case Finding =>
      if GetStartOperation(world.db, i.session, i.key).Ok? {
        FindFacts(world.db, i.session, i.key);
      }
    case Beginning => BeginSafe(world, i, w);
    case Replaying => BeginSafe(world, i, w);
    case Launching(op) => LaunchSafe(world, i, op, w.takesEffect);
    case Activating(op) => ActivateSafe(world, i, op, w);
    case Claiming(op, claim) => ClaimSafe(world, i, op, claim, w);
    case Cleaning(op, claim) => StopSafe(world, i.session, w);
    case Cleaned(op, claim) => FinishSafe(world, i, op, claim, true, w);
    case Uncleaned(op, claim) => FinishSafe(world, i, op, claim, false, w);
    case _ =>
  }

  // ----- End and end recovery

  lemma OwnedThroughIntents(db: Db, after: Db, s: Id, runtime: Runtime)
    requires Owned(db, s, runtime)
    requires after.sessions == db.sessions && after.operations == db.operations && after.now == db.now
    ensures Owned(after, s, runtime)
  {
  }

  predicate OnIntents(tx: Tx) {
    tx.SaveEndTx? || tx.CompleteEndTx? || tx.LeaseTx? || tx.RetryTx? || tx.CompleteClaimedTx?
  }

  lemma IntentsOnly(db: Db, tx: Tx)
    requires OnIntents(tx)
    ensures
      var after := Apply(db, tx);
      after.sessions == db.sessions && after.operations == db.operations && after.now == db.now
  {
  }

  lemma IntentStep(world: World, now: Db, tx: Tx, w: Weather)
    requires WorldInv(world)
    requires now == world.db || now == Tick(world.db)
    requires OnIntents(tx)
    ensures
      var after := world.(db := Committed(w, now, Apply(now, tx)));
      WorldInv(after) && Private(world, after, Concerns(tx).0) && Harmless(world, after)
  {
    hide DbInv, ReportsStale, Owned, Apply, Evolves;
    var s := Concerns(tx).0;
    OwnedLater(world, s);
    IntentsOnly(now, tx);
    if s in world.live {
      OwnedThroughIntents(now, Apply(now, tx), s, world.live[s]);
    }
    TxStep(world, now, tx, w);
  }

  lemma SaveEndFacts(db: Db, p: IntentParams)
    requires SaveEndIntent(db, p).1.Ok?
    ensures p.session in SaveEndIntent(db, p).0.intents
    ensures SaveEndIntent(db, p).1.value == SaveEndIntent(db, p).0.intents[p.session]
  {
  }

  lemma OwnedThroughEnd(db: Db, p: EndParams, s: Id, runtime: Runtime)
    requires DbInv(db)
    requires Owned(db, s, runtime)
    requires p.expected == Created && p.session in db.intents
    ensures Owned(TransitionToEnded(db, p).0, s, runtime)
  {
  }

  lemma EndSafeFor(world: World, now: Db, p: EndParams, w: Weather)
    requires WorldInv(world)
    requires now == world.db || now == Tick(world.db)
    requires p.session in world.db.intents
    requires p.expected == Created || p.session !in world.live
    ensures
      var after := world.(db := Committed(w, now, TransitionToEnded(now, p).0));
      WorldInv(after) && Private(world, after, p.session)
  {
    hide DbInv, ReportsStale, Owned, TransitionToEnded, Private;
    OwnedLater(world, p.session);
    TickKeeps(world.db, 1);
    if p.session in world.live {
      OwnedThroughEnd(now, p, p.session, world.live[p.session]);
    }
    TxStep(world, now, EndTx(p), w);
  }

  lemma PrivateTransitive(a: World, b: World, c: World, s: Id)
    requires Private(a, b, s) && Private(b, c, s)
    ensures Private(a, c, s)
  {
  }

  lemma TickSafe(world: World, elapsed: nat, t: Id)
    requires WorldInv(world)
    ensures
      var later := world.(db := world.db.(now := world.db.now + elapsed));
      WorldInv(later) && Harmless(world, later) && Private(world, later, t)
  {
    hide DbInv;
    TickKeeps(world.db, elapsed);
    forall s | s in world.live ensures Owned(world.db.(now := world.db.now + elapsed), s, world.live[s]) {
      assert Owned(world.db, s, world.live[s]);
    }
    TickEvolves(world.db, elapsed);
    hide Owned, Evolves;
  }

  lemma TickEvolves(db: Db, elapsed: nat)
    ensures Evolves(db, db.(now := db.now + elapsed))
  {
  }

  lemma StopOnClock(world: World, s: Id, w: Weather)
    requires WorldInv(world)
    ensures
      var down := world.(db := Tick(world.db), live := RealtimeStop(world.live, s, w));
      && WorldInv(down) && Private(world, down, s)
      && (StopConfirmed(w.snapshot, s) ==> s !in down.live)
  {
    hide WorldInv, Private, Harmless, StopConfirmed;
    var later := world.(db := Tick(world.db));
    TickSafe(world, 1, s);
    StopSafe(later, s, w);
    PrivateTransitive(world, later, later.(live := RealtimeStop(world.live, s, w)), s);
  }

  lemma EndSafe(world: World, e: EndInput, p: EndPoint, w: Weather)
    requires WorldInv(world)
    requires CallInv(world, End(e, p))
    ensures
      var (after, q) := ActEnd(world, e, p, w);
      WorldInv(after) && Private(world, after, e.session) && CallInv(after, End(e, q))
  {
    NothingChanged(world, e.session);
    hide WorldInv, SaveEndIntent, TransitionToEnded, CompleteEndIntent, RetryClaimedEndIntent, RealtimeStop,
         StopConfirmed;
    var db := world.db;
    var now := Tick(db);
    match p
    case Saving(status) =>
      var i := IntentParams(e.session, e.reason, e.key, e.hash, e.trace, now.now, "request:" + e.trace,
                            now.now + 1 + w.lease);
      IntentStep(world, now, SaveEndTx(i), w);
      if SaveEndIntent(now, i).1.Ok? {
        SaveEndFacts(now, i);
      }
    case EndingCreated => EndSafeFor(world, now, EndParams(e.session, Created, e.reason, now.now), w);
    case StoppingActive => StopOnClock(world, e.session, w);
    case EndingActive(endedAt) => EndSafeFor(world, db, EndParams(e.session, Active, e.reason, endedAt), w);
    case CompletingIntent =>
      IntentStep(world, now, CompleteEndTx(e.session, now.now), w);
      CompleteEndFacts(now, e.session, now.now);
    case ReleasingIntent =>
      IntentStep(world, db, RetryTx(RetryParams(e.session, "request:" + e.trace, w.errorText, 0)), w);
    case _ =>
  }

  lemma CompleteEndFacts(db: Db, s: Id, at: Time)
    ensures CompleteEndIntent(db, s, at).1.Ok? ==>
              s in CompleteEndIntent(db, s, at).0.intents && CompleteEndIntent(db, s, at).0.intents[s].completedAt.Some?
  {
  }

  lemma WorkerSafe(world: World, worker: Id, s: Id, reason: Id, p: WorkerPoint, w: Weather)
    requires WorldInv(world)
    requires !p.Scanning?
    requires CallInv(world, Worker(worker, s, reason, p))
    ensures
      var (after, q) := ActWorker(world, worker, s, reason, p, w);
      WorldInv(after) && Private(world, after, s) && CallInv(after, Worker(worker, s, reason, q))
    ensures p.RetryingClaim? ==> Harmless(world, ActWorker(world, worker, s, reason, p, w).0)
  {
    NothingChanged(world, s);
    hide WorldInv, TransitionToEnded, CompleteClaimedEndIntent, RetryClaimedEndIntent, RealtimeStop, StopConfirmed,
         Harmless;
    var db := world.db;
    var now := Tick(db);
    match p
    case RecoveringCreated => EndSafeFor(world, now, EndParams(s, Created, reason, now.now), w);
    case RecoveringStop => StopOnClock(world, s, w);
    case RecoveringActive(endedAt) => EndSafeFor(world, db, EndParams(s, Active, reason, endedAt), w);
    case CompletingClaim => IntentStep(world, now, CompleteClaimedTx(FinishIntentParams(s, worker, now.now)), w);
    case RetryingClaim => IntentStep(world, db, RetryTx(RetryParams(s, worker, w.errorText, w.retryAfter)), w);
    case _ =>
  }

  lemma ScanSafe(world: World, worker: Id, w: Weather)
    requires WorldInv(world)
    ensures
      var (after, call) := Scan(world, worker, w);
      WorldInv(after) && Harmless(world, after) && CallInv(after, call) && !HoldsLock(call)
  {
    var now := Tick(world.db);
    NothingChanged(world, w.pick);
    hide WorldInv;
    IntentStep(world, now, LeaseTx(LeaseParams(worker, now.now, now.now + 1 + w.lease), w.pick), w);
  }

  // ----- runtime failure

  /** A report that predates the live runtime is also older than the activation it would have to follow,
      so the timestamp guard rejects it. */
  lemma OwnedThroughFailure(db: Db, p: FailParams, runtime: Runtime)
    requires Owned(db, p.session, runtime)
    requires p.at <= runtime.since
    ensures Owned(TransitionToFailed(db, p).0, p.session, runtime)
  {
  }

  lemma ReportPredates(world: World, s: Id, at: Time)
    requires WorldInv(world)
    requires (s, at) in world.reports && s in world.live
    ensures at <= world.live[s].since
  {
  }

  lemma FailureSafe(world: World, s: Id, at: Time, p: FailurePoint, w: Weather)
    requires WorldInv(world)
    requires CallInv(world, Failure(s, at, p))
    ensures
      var (after, q) := ActFailure(world, s, at, p, w);
      WorldInv(after) && Private(world, after, s) && CallInv(after, Failure(s, at, q))
  {
    hide TransitionToFailed, Owned, DbInv, ReportsStale, Evolves;
    NothingChanged(world, s);
    if p.Recording? {
      var f := FailParams(s, Active, w.errorText, at);
      OwnedLater(world, s);
      if s in world.live {
        ReportPredates(world, s, at);
        OwnedThroughFailure(world.db, f, world.live[s]);
      }
      TxStep(world, world.db, FailTx(f), w);
    }
  }
}

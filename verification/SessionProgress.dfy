/** What calls achieve when nothing goes wrong from here on, whatever went wrong before: a fresh start
    succeeds, an interrupted start is picked up by a retry with the same key, an interrupted cleanup is
    finished, and ending is carried through by the request or by the recovery worker. A cleanup that was
    recorded as failed is the one state no call leaves. */
module SessionProgress {
  import opened Wrappers
  import opened SessionRows
  import opened SessionTransactions
  import opened SessionRuns
  import opened SessionHistory
  import opened SessionOutcomes
  import opened SessionLifecycle
  import opened SessionSafety
  import opened SessionNoOrphan

  /** The call takes `n` steps in a row, all in weather `w`. */
  ghost function Repeat(world: World, call: Call, w: Weather, n: nat): (World, Call)
    decreases n
  {
    if n == 0 then (world, call) else var (after, next) := Act(world, call, w); Repeat(after, next, w, n - 1)
  }

  predicate Calm(w: Weather) {
    w.fault.Delivered? && w.ready && w.clock && w.takesEffect && w.freshId != "" && w.errorText != ""
  }

  /** The media plane reports the runtime that operation `op` started, up and running. */
  predicate ReportsRunning(w: Weather, session: Id, op: Id) {
    && w.snapshot.Some? && ValidSnapshot(w.snapshot.value, session)
    && w.snapshot.value.operation == op && Running(w.snapshot.value.state)
  }

  predicate WellFormedStart(i: StartInput) {
    i.session != "" && i.key != "" && i.hash != "" && i.trace != ""
  }

  /** A created session that no intent claims and whose rows are not dated in the future. */
  ghost predicate Startable(db: Db, s: Id) {
    s in db.sessions && db.sessions[s].status == Created && s !in db.intents && db.sessions[s].createdAt <= db.now
  }

  lemma OnlyOperationWithKey(db: Db, o: Id)
    requires KeysUnique(db)
    requires o in db.operations
    ensures KeyUsed(db, db.operations[o].account, db.operations[o].key)
    ensures OpByKey(db, db.operations[o].account, db.operations[o].key) == o
  {
    assert UsesKey(db, o, db.operations[o].account, db.operations[o].key);
  }

  /** Reading and finding lead a retry to the operation its key already owns. */
  lemma RetryFindsOperation(world: World, i: StartInput, op: Id, w: Weather)
    requires WorldInv(world)
    requires WellFormedStart(i) && Calm(w)
    requires Startable(world.db, i.session)
    requires op in world.db.operations && world.db.operations[op].session == i.session
    requires world.db.operations[op].key == i.key && world.db.operations[op].hash == i.hash
    requires world.db.operations[op].status != Compensated
    ensures Repeat(world, Start(i, StartReading), w, 2) ==
              (world, Start(i, ContinueOperation(OperationReply(op, world.db.operations[op]))))
  {
    OnlyOperationWithKey(world.db, op);
    assert Act(world, Start(i, StartReading), w) == (world, Start(i, Finding));
    assert Repeat(world, Start(i, Finding), w, 1) == Act(world, Start(i, Finding), w);
  }

  /** From a pending operation, launching and activating complete the start. */
  lemma LaunchAndActivate(world: World, i: StartInput, op: Id, w: Weather)
    requires WorldInv(world)
    requires WellFormedStart(i) && Calm(w) && op != "" && ReportsRunning(w, i.session, op)
    requires Startable(world.db, i.session)
    requires op in world.db.operations && world.db.operations[op].session == i.session
    requires world.db.operations[op].key == i.key && world.db.operations[op].hash == i.hash
    requires world.db.operations[op].status == Pending && world.db.operations[op].createdAt <= world.db.now
    ensures
      var (after, call) := Repeat(world, Start(i, Launching(op)), w, 2);
      && call == Start(i, StartOk(op))
      && i.session in after.db.sessions && after.db.sessions[i.session].status == Active
      && i.session in after.live && after.live[i.session].operation == op
  {
    var up := world.(live := RealtimeStart(world.live, i.session, op, world.db.now, true));
    LaunchKeepsOperation(world, i, op);
    assert Act(world, Start(i, Launching(op)), w) == (up, Start(i, Activating(op)));
    assert Repeat(up, Start(i, Activating(op)), w, 1) == Act(up, Start(i, Activating(op)), w);
    ActivationSucceeds(up, i, op, w);
  }

  lemma LaunchKeepsOperation(world: World, i: StartInput, op: Id)
    requires WorldInv(world)
    requires op in world.db.operations && world.db.operations[op].session == i.session
    requires world.db.operations[op].status == Pending
    ensures
      var live := RealtimeStart(world.live, i.session, op, world.db.now, true);
      i.session in live && live[i.session].operation == op
  {
    assert IsUnresolved(world.db, op);
    if i.session in world.live {
      assert Owned(world.db, i.session, world.live[i.session]);
      assert IsUnresolved(world.db, world.live[i.session].operation);
    }
  }

  lemma ActivationSucceeds(world: World, i: StartInput, op: Id, w: Weather)
    requires Calm(w) && WellFormedStart(i) && op != ""
    requires i.session in world.db.sessions && world.db.sessions[i.session].status == Created
    requires world.db.sessions[i.session].createdAt <= world.db.now
    requires op in world.db.operations && world.db.operations[op].session == i.session
    requires world.db.operations[op].key == i.key && world.db.operations[op].hash == i.hash
    requires world.db.operations[op].status == Pending && world.db.operations[op].createdAt <= world.db.now
    ensures
      var (after, call) := Act(world, Start(i, Activating(op)), w);
      && call == Start(i, StartOk(op))
      && i.session in after.db.sessions && after.db.sessions[i.session].status == Active
      && after.live == world.live
  {
  }

  lemma RepeatAdds(world: World, call: Call, w: Weather, n: nat, k: nat)
    ensures Repeat(world, call, w, n + k) == Repeat(Repeat(world, call, w, n).0, Repeat(world, call, w, n).1, w, k)
    decreases n
  {
    hide Act;
    if n > 0 {
      var (after, next) := Act(world, call, w);
      RepeatAdds(after, next, w, n - 1, k);
    }
  }

  /** A retry with the same key picks up the pending operation a crashed start left behind, whether or
      not its runtime already came up, and completes the start. */
  lemma InterruptedStartResumes(world: World, i: StartInput, op: Id, w: Weather)
    requires WorldInv(world)
    requires WellFormedStart(i) && Calm(w) && op != "" && ReportsRunning(w, i.session, op)
    requires Startable(world.db, i.session)
    requires op in world.db.operations && world.db.operations[op].session == i.session
    requires world.db.operations[op].key == i.key && world.db.operations[op].hash == i.hash
    requires world.db.operations[op].status == Pending && world.db.operations[op].createdAt <= world.db.now
    ensures
      var (after, call) := Repeat(world, Start(i, StartReading), w, 4);
      && call == Start(i, StartOk(op))
      && i.session in after.db.sessions && after.db.sessions[i.session].status == Active
      && i.session in after.live && after.live[i.session].operation == op
  {
    hide Repeat, Act, WorldInv;
    RetryFindsOperation(world, i, op, w);
    LaunchAndActivate(world, i, op, w);
    RepeatAdds(world, Start(i, StartReading), w, 2, 2);
  }

  lemma FreshOperationBegins(world: World, i: StartInput, w: Weather)
    requires WorldInv(world)
    requires WellFormedStart(i) && Calm(w)
    requires Startable(world.db, i.session)
    requires !KeyUsed(world.db, world.db.sessions[i.session].account, i.key)
    requires !HasUnresolved(world.db, i.session)
    requires w.freshId !in world.db.operations
    ensures
      var row := StartOperation(i.session, world.db.sessions[i.session].account, i.key, i.hash, Pending, None,
                                world.db.now + 1, world.db.now + 1, None);
      Repeat(world, Start(i, StartReading), w, 3) ==
        (world.(db := Tick(world.db).(operations := world.db.operations[w.freshId := row])),
         Start(i, Launching(w.freshId)))
  {
    hide WorldInv, GetStartOperation, BeginStartOperation, KeyUsed, HasUnresolved;
    var now := Tick(world.db);
    FreshFind(world.db, i.session, i.key);
    KeyUsedLater(world.db, world.db.sessions[i.session].account, i.key, i.session);
    FreshBegin(now, BeginParams(w.freshId, i.session, i.key, i.hash, now.now));
    assert Act(world, Start(i, StartReading), w) == (world, Start(i, Finding));
    assert Act(world, Start(i, Finding), w) == (world, Start(i, Beginning));
    assert Repeat(world, Start(i, Beginning), w, 1) == Act(world, Start(i, Beginning), w);
    assert Repeat(world, Start(i, Finding), w, 2) == Act(world, Start(i, Beginning), w);
  }

  lemma FreshFind(db: Db, s: Id, key: Id)
    requires s != "" && key != "" && s in db.sessions
    requires !KeyUsed(db, db.sessions[s].account, key) && !HasUnresolved(db, s)
    ensures GetStartOperation(db, s, key) == Err(OperationNotFound)
  {
  }

  lemma FreshBegin(db: Db, p: BeginParams)
    requires p.operation != "" && p.session != "" && p.key != "" && p.hash != "" && p.at != 0
    requires p.session in db.sessions && db.sessions[p.session].status == Created && p.session !in db.intents
    requires !KeyUsed(db, db.sessions[p.session].account, p.key) && !HasUnresolved(db, p.session)
    requires p.operation !in db.operations
    ensures
      var account := db.sessions[p.session].account;
      var row := StartOperation(p.session, account, p.key, p.hash, Pending, None, p.at, p.at, None);
      BeginStartOperation(db, p)
        == (db.(operations := db.operations[p.operation := row]), Ok(OperationReply(p.operation, row)))
  {
  }

  lemma KeyUsedLater(db: Db, account: Id, key: Id, s: Id)
    ensures KeyUsed(Tick(db), account, key) ==> KeyUsed(db, account, key)
    ensures HasUnresolved(Tick(db), s) ==> HasUnresolved(db, s)
  {
    if KeyUsed(Tick(db), account, key) {
      assert UsesKey(db, OpByKey(Tick(db), account, key), account, key);
    }
    if HasUnresolved(Tick(db), s) {
      var o :| o in db.operations && IsUnresolved(Tick(db), o) && db.operations[o].session == s;
      assert IsUnresolved(db, o);
    }
  }

  /** A fresh start of a created session with nothing in its way succeeds. */
  lemma FreshStartSucceeds(world: World, i: StartInput, w: Weather)
    requires WorldInv(world)
    requires WellFormedStart(i) && Calm(w) && ReportsRunning(w, i.session, w.freshId)
    requires Startable(world.db, i.session)
    requires !KeyUsed(world.db, world.db.sessions[i.session].account, i.key)
    requires !HasUnresolved(world.db, i.session)
    requires w.freshId !in world.db.operations
    ensures
      var (after, call) := Repeat(world, Start(i, StartReading), w, 5);
      && call == Start(i, StartOk(w.freshId))
      && i.session in after.db.sessions && after.db.sessions[i.session].status == Active
      && i.session in after.live && after.live[i.session].operation == w.freshId
  {
    hide Repeat, Act, WorldInv, HasUnresolved, KeyUsed;
    FreshOperationBegins(world, i, w);
    var begun := Repeat(world, Start(i, StartReading), w, 3).0;
    BegunIsSafe(world, i, w);
    LaunchAndActivate(begun, i, w.freshId, w);
    RepeatAdds(world, Start(i, StartReading), w, 3, 2);
  }

  lemma {:induction false} RepeatSafe(world: World, call: Call, w: Weather, n: nat)
    requires WorldInv(world) && CallInv(world, call)
    ensures
      var (after, next) := Repeat(world, call, w, n);
      WorldInv(after) && CallInv(after, next)
    decreases n
  {
    hide WorldInv, CallInv, Act;
    if n > 0 {
      ActSafe(world, call, w);
      RepeatSafe(Act(world, call, w).0, Act(world, call, w).1, w, n - 1);
    }
  }

  lemma BegunIsSafe(world: World, i: StartInput, w: Weather)
    requires WorldInv(world)
    ensures WorldInv(Repeat(world, Start(i, StartReading), w, 3).0)
  {
    hide WorldInv, Repeat;
    RepeatSafe(world, Start(i, StartReading), w, 3);
  }

  /** A retry with the same key finishes the cleanup a crashed start left behind: the runtime is down and
      the operation is compensated, so the session may be started under another key. */
  lemma InterruptedCleanupResumes(world: World, i: StartInput, op: Id, w: Weather)
    requires WorldInv(world)
    requires WellFormedStart(i) && Calm(w) && op != "" && StopConfirmed(w.snapshot, i.session)
    requires Startable(world.db, i.session)
    requires op in world.db.operations && world.db.operations[op].session == i.session
    requires world.db.operations[op].key == i.key && world.db.operations[op].hash == i.hash
    requires world.db.operations[op].status == Compensating && world.db.operations[op].createdAt <= world.db.now
    requires world.db.operations[op].claim != Some("")
    ensures
      var (after, call) := Repeat(world, Start(i, StartReading), w, 5);
      && call == Start(i, StartRefused)
      && op in after.db.operations && after.db.operations[op].status == Compensated
      && i.session !in after.live
      && after.db.sessions == world.db.sessions
  {
    RetryFindsOperation(world, i, op, w);
    var claim := world.db.operations[op].claim.value;
    CleanupSteps(world, i, op, claim, w);
    hide Repeat, Act, WorldInv;
    RepeatAdds(world, Start(i, StartReading), w, 2, 3);
  }

  lemma CleanupSteps(world: World, i: StartInput, op: Id, claim: Id, w: Weather)
    requires WellFormedStart(i) && Calm(w) && op != "" && claim != "" && StopConfirmed(w.snapshot, i.session)
    requires i.session in world.db.sessions && world.db.sessions[i.session].status == Created
    requires op in world.db.operations && world.db.operations[op].session == i.session
    requires world.db.operations[op].status == Compensating && world.db.operations[op].claim == Some(claim)
    requires world.db.operations[op].createdAt <= world.db.now
    ensures
      var (after, call) := Repeat(world, Start(i, Claiming(op, claim)), w, 3);
      && call == Start(i, StartRefused)
      && op in after.db.operations && after.db.operations[op].status == Compensated
      && i.session !in after.live
      && after.db.sessions == world.db.sessions
  {
    ReclaimStep(world, i, op, claim, w);
    CleaningSteps(world.(db := Tick(world.db)), i, op, claim, w);
    hide Act, StopConfirmed;
  }

  lemma CleaningSteps(world: World, i: StartInput, op: Id, claim: Id, w: Weather)
    requires WellFormedStart(i) && Calm(w) && op != "" && claim != "" && StopConfirmed(w.snapshot, i.session)
    requires i.session in world.db.sessions && world.db.sessions[i.session].status == Created
    requires op in world.db.operations && world.db.operations[op].session == i.session
    requires world.db.operations[op].status == Compensating && world.db.operations[op].claim == Some(claim)
    requires world.db.operations[op].createdAt <= world.db.now
    ensures
      var (after, call) := Repeat(world, Start(i, Cleaning(op, claim)), w, 2);
      && call == Start(i, StartRefused)
      && op in after.db.operations && after.db.operations[op].status == Compensated
      && i.session !in after.live
      && after.db.sessions == world.db.sessions
  {
    var b := world.(live := world.live - {i.session});
    FinishStep(b, i, op, claim, w);
    assert Act(world, Start(i, Cleaning(op, claim)), w) == (b, Start(i, Cleaned(op, claim)));
    hide Act, StopConfirmed;
    assert Repeat(b, Start(i, Cleaned(op, claim)), w, 1) == Act(b, Start(i, Cleaned(op, claim)), w);
  }

  /** A start that failed after its operation began claims the cleanup and carries it out: the runtime is
      down and the operation compensated, so nothing of the start is left behind. */
  lemma FailedStartIsCleanedUp(world: World, i: StartInput, op: Id, w: Weather)
    requires WellFormedStart(i) && Calm(w) && op != "" && StopConfirmed(w.snapshot, i.session)
    requires i.session in world.db.sessions && world.db.sessions[i.session].status == Created
    requires op in world.db.operations && world.db.operations[op].session == i.session
    requires world.db.operations[op].status == Pending && world.db.operations[op].createdAt <= world.db.now
    ensures
      var (after, call) := Repeat(world, Start(i, Claiming(op, i.trace)), w, 3);
      && call == Start(i, StartRefused)
      && op in after.db.operations && after.db.operations[op].status == Compensated
      && i.session !in after.live
      && after.db.sessions == world.db.sessions
  {
    var now := Tick(world.db);
    var p := ClaimParams(i.session, op, i.trace, now.now);
    var claimed := world.(db := ClaimStartCompensation(now, p).0);
    ClaimOutcome(now, p);
    hide ClaimStartCompensation;
    assert Act(world, Start(i, Claiming(op, i.trace)), w) == (claimed, Start(i, Cleaning(op, i.trace)));
    CleaningSteps(claimed, i, op, i.trace, w);
    hide Act, StopConfirmed;
  }

  lemma ReclaimStep(world: World, i: StartInput, op: Id, claim: Id, w: Weather)
    requires i.session != "" && Calm(w) && op != "" && claim != ""
    requires i.session in world.db.sessions && world.db.sessions[i.session].status == Created
    requires op in world.db.operations && world.db.operations[op].session == i.session
    requires world.db.operations[op].status == Compensating && world.db.operations[op].claim == Some(claim)
    requires world.db.operations[op].createdAt <= world.db.now
    ensures Act(world, Start(i, Claiming(op, claim)), w)
         == (world.(db := Tick(world.db)), Start(i, Cleaning(op, claim)))
  {
  }

  lemma FinishStep(world: World, i: StartInput, op: Id, claim: Id, w: Weather)
    requires i.session != "" && Calm(w) && op != "" && claim != ""
    requires i.session in world.db.sessions && world.db.sessions[i.session].status == Created
    requires op in world.db.operations && world.db.operations[op].session == i.session
    requires world.db.operations[op].status == Compensating && world.db.operations[op].claim == Some(claim)
    requires world.db.operations[op].createdAt <= world.db.now
    ensures
      var (after, call) := Act(world, Start(i, Cleaned(op, claim)), w);
      && call == Start(i, StartRefused)
      && op in after.db.operations && after.db.operations[op].status == Compensated
      && after.live == world.live && after.db.sessions == world.db.sessions
  {
  }

  // ----- replies that never arrived

  /** An activation that was committed but whose reply was lost ends in success, by way of a denied claim
      and a replay, and without touching the runtime. */
  lemma LostActivationIsReplayed(world: World, i: StartInput, op: Id, lost: Weather, calm: Weather)
    requires WorldInv(world)
    requires WellFormedStart(i) && lost.clock && lost.fault.LostAfter? && Calm(calm) && op != ""
    requires Startable(world.db, i.session)
    requires op in world.db.operations && world.db.operations[op].session == i.session
    requires world.db.operations[op].key == i.key && world.db.operations[op].hash == i.hash
    requires world.db.operations[op].status == Pending && world.db.operations[op].createdAt <= world.db.now
    ensures
      var (after, call) := Act(world, Start(i, Activating(op)), lost);
      && call == Start(i, Claiming(op, i.trace))
      && Repeat(after, call, calm, 3).1 == Start(i, StartOk(op))
      && Repeat(after, call, calm, 3).0.live == world.live
  {
    hide DbInv, NoOrphan, ReportsStale, TransitionToActive, Repeat;
    var now := Tick(world.db);
    var p := ActivateParams(i.session, op, i.key, i.hash, now.now);
    var active := world.(db := TransitionToActive(now, p).0);
    TickKeeps(world.db, 1);
    ActivateKeeps(now, p);
    ActivationMoves(now, p);
    assert Act(world, Start(i, Activating(op)), lost) == (active, Start(i, Claiming(op, i.trace)));
    ReplayAfterDenial(active, i, op, calm);
  }

  lemma ActivationMoves(db: Db, p: ActivateParams)
    requires p.session != "" && p.operation != "" && p.key != "" && p.hash != ""
    requires p.session in db.sessions && db.sessions[p.session].status == Created
    requires p.operation in db.operations && db.operations[p.operation].session == p.session
    requires db.operations[p.operation].key == p.key && db.operations[p.operation].hash == p.hash
    requires db.operations[p.operation].status == Pending
    requires db.sessions[p.session].createdAt <= p.at && db.operations[p.operation].createdAt <= p.at && p.at != 0
    ensures
      var (after, r) := TransitionToActive(db, p);
      && r.Ok?
      && after.intents == db.intents && after.now == db.now
      && p.session in after.sessions && after.sessions[p.session].status == Active
      && p.operation in after.operations && after.operations[p.operation].status == Completed
      && after.operations[p.operation].session == p.session
      && after.operations[p.operation].key == p.key && after.operations[p.operation].hash == p.hash
  {
  }

  lemma ReplayAfterDenial(world: World, i: StartInput, op: Id, w: Weather)
    requires DbInv(world.db)
    requires WellFormedStart(i) && Calm(w) && op != ""
    requires i.session in world.db.sessions && world.db.sessions[i.session].status == Active
    requires i.session !in world.db.intents
    requires op in world.db.operations && world.db.operations[op].session == i.session
    requires world.db.operations[op].key == i.key && world.db.operations[op].hash == i.hash
    requires world.db.operations[op].status == Completed
    ensures
      var (after, call) := Repeat(world, Start(i, Claiming(op, i.trace)), w, 3);
      call == Start(i, StartOk(op)) && after.live == world.live
  {
    hide DbInv, ClaimStartCompensation, BeginStartOperation, TransitionToActive, Repeat;
    var a := world.(db := Tick(world.db));
    TickKeeps(world.db, 1);
    DeniedWhenActive(a.db, ClaimParams(i.session, op, i.trace, a.db.now));
    var now := Tick(a.db);
    TickKeeps(a.db, 1);
    ReplayFound(now, ActivateParams(i.session, op, i.key, i.hash, 1),
                BeginParams(w.freshId, i.session, i.key, i.hash, now.now));
    assert Act(world, Start(i, Claiming(op, i.trace)), w) == (a, Start(i, Denied));
    assert Act(a, Start(i, Denied), w) == (a, Start(i, Replaying));
    assert Act(a, Start(i, Replaying), w).1 == Start(i, StartOk(op));
    ThreeSteps(world, Start(i, Claiming(op, i.trace)), w);
  }

  lemma ThreeSteps(world: World, call: Call, w: Weather)
    ensures
      var (a, next) := Act(world, call, w);
      var (b, last) := Act(a, next, w);
      Repeat(world, call, w, 3) == Act(b, last, w)
  {
    hide Act;
    var (a, next) := Act(world, call, w);
    var (b, last) := Act(a, next, w);
    assert Repeat(b, last, w, 1) == Act(b, last, w);
    assert Repeat(a, next, w, 2) == Repeat(b, last, w, 1);
  }

  lemma DeniedWhenActive(db: Db, p: ClaimParams)
    requires p.session != "" && p.operation != "" && p.claim != "" && p.at != 0
    requires p.session in db.sessions && db.sessions[p.session].status == Active
    ensures ClaimStartCompensation(db, p) == (db, Ok(SessionNotCreated))
  {
  }

  /** A launch that took effect but whose reply was lost is found again and activated. */
  lemma LostLaunchIsReconciled(world: World, i: StartInput, op: Id, lost: Weather, calm: Weather)
    requires WorldInv(world)
    requires WellFormedStart(i) && lost.takesEffect && !lost.fault.Delivered?
    requires Calm(calm) && op != "" && ReportsRunning(calm, i.session, op)
    requires Startable(world.db, i.session)
    requires op in world.db.operations && world.db.operations[op].session == i.session
    requires world.db.operations[op].key == i.key && world.db.operations[op].hash == i.hash
    requires world.db.operations[op].status == Pending && world.db.operations[op].createdAt <= world.db.now
    ensures
      var (up, call) := Act(world, Start(i, Launching(op)), lost);
      var (after, done) := Repeat(up, call, calm, 2);
      && call == Start(i, Reconciling(op)) && done == Start(i, StartOk(op))
      && i.session in after.db.sessions && after.db.sessions[i.session].status == Active
      && i.session in after.live && after.live[i.session].operation == op
  {
    LaunchKeepsOperation(world, i, op);
    hide WorldInv;
    var up := world.(live := RealtimeStart(world.live, i.session, op, world.db.now, true));
    ActivationSucceeds(up, i, op, calm);
    hide TransitionToActive;
    assert Act(world, Start(i, Launching(op)), lost) == (up, Start(i, Reconciling(op)));
    assert Act(up, Start(i, Reconciling(op)), calm) == (up, Start(i, Activating(op)));
    assert Repeat(up, Start(i, Activating(op)), calm, 1) == Act(up, Start(i, Activating(op)), calm);
  }

  /** A recovery whose own transition comes too late, because the session was ended meanwhile, still
      completes the intent it holds. */
  lemma RecoveryAdoptsForeignEnd(world: World, worker: Id, s: Id, reason: Id, p: WorkerPoint, w: Weather)
    requires worker != "" && s != "" && ValidReason(reason) && Calm(w)
    requires p == RecoveringCreated || (p.RecoveringActive? && p.endedAt != 0)
    requires s in world.db.sessions && Terminal(world.db.sessions[s].status)
    requires s in world.db.intents && world.db.intents[s].requestedAt <= world.db.now
    requires HoldsLease(world.db, s, worker) && world.db.now + 2 < world.db.intents[s].lease.value
    ensures
      var (after, call) := Repeat(world, Worker(worker, s, reason, p), w, 3);
      && call == Worker(worker, s, reason, WorkerDone)
      && s in after.db.intents && after.db.intents[s].completedAt.Some?
  {
    hide Act, Repeat;
    var (a, next) := Act(world, Worker(worker, s, reason, p), w);
    TooLate(world, worker, s, reason, p, w);
    TerminalReread(a, worker, s, reason, w);
    ClaimCompletes(a, worker, s, reason, w);
    ThreeSteps(world, Worker(worker, s, reason, p), w);
    OneStep(a, Worker(worker, s, reason, CompletingClaim), w);
  }

  lemma OneStep(world: World, call: Call, w: Weather)
    ensures Repeat(world, call, w, 1) == Act(world, call, w)
  {
    hide Act;
    assert Repeat(Act(world, call, w).0, Act(world, call, w).1, w, 0) == Act(world, call, w);
  }

  lemma TooLate(world: World, worker: Id, s: Id, reason: Id, p: WorkerPoint, w: Weather)
    requires s != "" && ValidReason(reason) && Calm(w)
    requires p == RecoveringCreated || (p.RecoveringActive? && p.endedAt != 0)
    requires s in world.db.sessions && Terminal(world.db.sessions[s].status)
    ensures
      var (a, next) := Act(world, Worker(worker, s, reason, p), w);
      && next == Worker(worker, s, reason, RereadingEnd)
      && (a == world || a == world.(db := Tick(world.db)))
  {
  }

  lemma TerminalReread(world: World, worker: Id, s: Id, reason: Id, w: Weather)
    requires Calm(w) && s in world.db.sessions && Terminal(world.db.sessions[s].status)
    ensures Act(world, Worker(worker, s, reason, RereadingEnd), w)
         == (world, Worker(worker, s, reason, CompletingClaim))
  {
  }

  // ----- a runtime that failed

  /** A failure the media plane reports for a session that was active by then makes the session failed at the
      time reported. */
  lemma FailureIsRecorded(world: World, s: Id, at: Time, w: Weather)
    requires Calm(w) && s != "" && at != 0
    requires s in world.db.sessions && world.db.sessions[s].status == Active
    requires world.db.sessions[s].startedAt.Some? && world.db.sessions[s].startedAt.value <= at
    ensures
      var (after, call) := Repeat(world, Failure(s, at, FailureReading), w, 2);
      && call == Failure(s, at, FailureDone) && after.live == world.live
      && WritesSession(world.db, after.db, s) && FinishedAs(world.db.sessions[s], after.db.sessions[s], Failed, at)
  {
    FailOutcome(world.db, FailParams(s, Active, w.errorText, at));
    hide TransitionToFailed;
    assert Act(world, Failure(s, at, FailureReading), w) == (world, Failure(s, at, Recording));
    OneStep(world, Failure(s, at, Recording), w);
    hide WritesSession, FinishedAs;
  }

  // ----- ending

  ghost predicate Endable(db: Db, s: Id) {
    && s in db.sessions && !HasUnresolved(db, s)
    && db.sessions[s].createdAt <= db.now
    && (db.sessions[s].startedAt.Some? ==> db.sessions[s].startedAt.value <= db.now)
    && (s in db.intents ==> db.intents[s].requestedAt <= db.now)
  }

  /** The request may take the session's end intent: it is free, or it is this request's own and nobody
      else's lease on it is running. */
  ghost predicate MayTakeIntent(db: Db, e: EndInput) {
    && e.session in db.sessions
    && (if e.session in db.intents then
          var i := db.intents[e.session];
          && i.key == e.key && i.hash == e.hash && i.reason == e.reason
          && (i.completedAt.Some? || i.lease.None? || i.lease.value <= db.now)
        else !IntentKeyUsed(db, db.sessions[e.session].account, e.key))
  }

  predicate WellFormedEnd(e: EndInput) {
    e.session != "" && e.key != "" && e.hash != "" && e.trace != "" && ValidReason(e.reason)
  }

  lemma IntentTaken(world: World, e: EndInput, w: Weather)
    requires WellFormedEnd(e) && Calm(w)
    requires Endable(world.db, e.session) && MayTakeIntent(world.db, e)
    ensures
      var status := world.db.sessions[e.session].status;
      var (after, call) := Repeat(world, End(e, EndReading), w, 2);
      && after.db.sessions == world.db.sessions && after.db.now == world.db.now + 1 && after.live == world.live
      && e.session in after.db.intents && after.db.intents[e.session].requestedAt <= after.db.now
      && call == End(e, if after.db.intents[e.session].completedAt.Some? then EndOk
                        else if status == Created then EndingCreated
                        else if status == Active then StoppingActive
                        else CompletingIntent)
  {
    KeyUsedLater(world.db, "", "", e.session);
    assert Act(world, End(e, EndReading), w) == (world, End(e, Saving(world.db.sessions[e.session].status)));
    assert Repeat(world, End(e, Saving(world.db.sessions[e.session].status)), w, 1)
        == Act(world, End(e, Saving(world.db.sessions[e.session].status)), w);
    hide HasUnresolved, KeyUsed;
    if e.session !in world.db.intents {
      assert !IntentKeyUsed(Tick(world.db), world.db.sessions[e.session].account, e.key);
    }
  }

  ghost predicate EndPending(db: Db, e: EndInput) {
    && e.session in db.sessions && e.session in db.intents
    && db.sessions[e.session].createdAt <= db.now
    && (db.sessions[e.session].startedAt.Some? ==> db.sessions[e.session].startedAt.value <= db.now)
    && db.intents[e.session].requestedAt <= db.now
  }

  lemma EndCarriedFromCreated(world: World, e: EndInput, w: Weather)
    requires WellFormedEnd(e) && Calm(w)
    requires EndPending(world.db, e) && world.db.sessions[e.session].status == Created
    ensures Repeat(world, End(e, EndingCreated), w, 3).1 == End(e, EndOk)
  {
    var after := Act(world, End(e, EndingCreated), w).0;
    assert Act(world, End(e, EndingCreated), w).1 == End(e, CompletingIntent);
    CompletionSucceeds(after, e, w, 1);
    assert Repeat(world, End(e, EndingCreated), w, 3) == Repeat(after, End(e, CompletingIntent), w, 2);
  }

  lemma EndCarriedFromActive(world: World, e: EndInput, w: Weather)
    requires WellFormedEnd(e) && Calm(w) && StopConfirmed(w.snapshot, e.session)
    requires EndPending(world.db, e) && world.db.sessions[e.session].status == Active
    ensures Repeat(world, End(e, StoppingActive), w, 3).1 == End(e, EndOk)
  {
    var now := Tick(world.db);
    var stopped := world.(db := now, live := world.live - {e.session});
    var after := Act(stopped, End(e, EndingActive(now.now)), w).0;
    assert Act(world, End(e, StoppingActive), w) == (stopped, End(e, EndingActive(now.now)));
    assert Act(stopped, End(e, EndingActive(now.now)), w).1 == End(e, CompletingIntent);
    CompletionSucceeds(after, e, w, 0);
    assert Repeat(stopped, End(e, EndingActive(now.now)), w, 2) == Repeat(after, End(e, CompletingIntent), w, 1);
  }

  lemma CompletionSucceeds(world: World, e: EndInput, w: Weather, n: nat)
    requires WellFormedEnd(e) && Calm(w)
    requires e.session in world.db.sessions && Terminal(world.db.sessions[e.session].status)
    requires e.session in world.db.intents && world.db.intents[e.session].requestedAt <= world.db.now
    ensures Repeat(world, End(e, CompletingIntent), w, n + 1).1 == End(e, EndOk)
  {
    var (after, call) := Act(world, End(e, CompletingIntent), w);
    assert call == End(e, EndOk);
    Resting(after, call, w, n);
  }

  lemma {:induction false} Resting(world: World, call: Call, w: Weather, n: nat)
    requires Returned(call)
    ensures Repeat(world, call, w, n) == (world, call)
  {
    if n > 0 {
      assert Act(world, call, w) == (world, call);
      Resting(world, call, w, n - 1);
    }
  }

  /** Once nothing fails any more, a request that may take the intent ends its session, wherever earlier
      attempts stopped: the session is terminal, the intent completed and the runtime gone. */
  lemma EndSucceeds(world: World, e: EndInput, w: Weather)
    requires WorldInv(world)
    requires WellFormedEnd(e) && Calm(w) && StopConfirmed(w.snapshot, e.session)
    requires Endable(world.db, e.session) && MayTakeIntent(world.db, e)
    ensures
      var (after, call) := Repeat(world, End(e, EndReading), w, 5);
      && call == End(e, EndOk)
      && e.session in after.db.sessions && Terminal(after.db.sessions[e.session].status)
      && e.session in after.db.intents && after.db.intents[e.session].completedAt.Some?
      && e.session !in after.live
  {
    hide Repeat, Act, WorldInv;
    IntentTaken(world, e, w);
    var (taken, call) := Repeat(world, End(e, EndReading), w, 2);
    if call == End(e, EndOk) {
      Resting(taken, call, w, 3);
    } else if call == End(e, EndingCreated) {
      EndCarriedFromCreated(taken, e, w);
    } else if call == End(e, StoppingActive) {
      EndCarriedFromActive(taken, e, w);
    } else {
      CompletionSucceeds(taken, e, w, 2);
    }
    RepeatAdds(world, End(e, EndReading), w, 2, 3);
    RepeatSafe(world, End(e, EndReading), w, 5);
    FinishedIntentMeansGone(Repeat(world, End(e, EndReading), w, 5).0, e);
  }

  lemma FinishedIntentMeansGone(world: World, e: EndInput)
    requires WorldInv(world) && CallInv(world, End(e, EndOk))
    ensures e.session in world.db.intents && world.db.intents[e.session].completedAt.Some?
    ensures e.session in world.db.sessions && Terminal(world.db.sessions[e.session].status)
    ensures e.session !in world.live
  {
    TerminalMeansGone(world, e.session);
  }

  lemma TerminalMeansGone(world: World, s: Id)
    requires WorldInv(world)
    requires s in world.db.sessions && Terminal(world.db.sessions[s].status)
    ensures s !in world.live
  {
    assert s in world.live ==> Owned(world.db, s, world.live[s]);
  }

  /** The worker can finish: it holds a lease long enough on an intent of a session that can end. */
  ghost predicate Recoverable(world: World, worker: Id, s: Id, reason: Id, w: Weather) {
    && worker != "" && s != "" && Calm(w) && StopConfirmed(w.snapshot, s)
    && Endable(world.db, s) && s in world.db.intents && ValidReason(reason)
    && HoldsLease(world.db, s, worker) && world.db.now + 2 < world.db.intents[s].lease.value
  }

  ghost predicate Recovered(after: World, call: Call, worker: Id, s: Id, reason: Id) {
    && call == Worker(worker, s, reason, WorkerDone)
    && s in after.db.sessions && Terminal(after.db.sessions[s].status)
    && s in after.db.intents && after.db.intents[s].completedAt.Some?
  }

  lemma CreatedRecovers(world: World, worker: Id, s: Id, reason: Id, w: Weather)
    requires WorldInv(world) && Recoverable(world, worker, s, reason, w)
    requires world.db.sessions[s].status == Created
    ensures
      var (after, call) := Repeat(world, Worker(worker, s, reason, WorkerReading), w, 4);
      Recovered(after, call, worker, s, reason)
  {
    hide WorldInv, HasUnresolved;
    var start := Worker(worker, s, reason, WorkerReading);
    var a := Act(world, Worker(worker, s, reason, RecoveringCreated), w).0;
    assert Act(world, start, w) == (world, Worker(worker, s, reason, RecoveringCreated));
    assert Act(world, Worker(worker, s, reason, RecoveringCreated), w).1 == Worker(worker, s, reason, CompletingClaim);
    ClaimCompletes(a, worker, s, reason, w);
    assert Repeat(world, Worker(worker, s, reason, RecoveringCreated), w, 3)
        == Repeat(a, Worker(worker, s, reason, CompletingClaim), w, 2);
  }

  lemma ActiveRecovers(world: World, worker: Id, s: Id, reason: Id, w: Weather)
    requires WorldInv(world) && Recoverable(world, worker, s, reason, w)
    requires world.db.sessions[s].status == Active
    ensures
      var (after, call) := Repeat(world, Worker(worker, s, reason, WorkerReading), w, 4);
      Recovered(after, call, worker, s, reason)
  {
    hide WorldInv, HasUnresolved;
    var start := Worker(worker, s, reason, WorkerReading);
    var now := Tick(world.db);
    var a := world.(db := now, live := world.live - {s});
    var b := Act(a, Worker(worker, s, reason, RecoveringActive(now.now)), w).0;
    assert Act(world, start, w) == (world, Worker(worker, s, reason, RecoveringStop));
    assert Act(world, Worker(worker, s, reason, RecoveringStop), w)
        == (a, Worker(worker, s, reason, RecoveringActive(now.now)));
    assert Act(a, Worker(worker, s, reason, RecoveringActive(now.now)), w).1
        == Worker(worker, s, reason, CompletingClaim);
    ClaimCompletes(b, worker, s, reason, w);
    assert Repeat(a, Worker(worker, s, reason, RecoveringActive(now.now)), w, 2)
        == Repeat(b, Worker(worker, s, reason, CompletingClaim), w, 1);
    assert Repeat(world, Worker(worker, s, reason, RecoveringStop), w, 3)
        == Repeat(a, Worker(worker, s, reason, RecoveringActive(now.now)), w, 2);
  }

  lemma TerminalRecovers(world: World, worker: Id, s: Id, reason: Id, w: Weather)
    requires WorldInv(world) && Recoverable(world, worker, s, reason, w)
    requires Terminal(world.db.sessions[s].status)
    ensures
      var (after, call) := Repeat(world, Worker(worker, s, reason, WorkerReading), w, 4);
      Recovered(after, call, worker, s, reason)
  {
    FromTerminal(world, worker, s, reason, w);
    hide WorldInv, Repeat;
  }

  /** The recovery worker that holds the lease carries an interrupted end through, wherever it stopped. */
  lemma RecoverySucceeds(world: World, worker: Id, s: Id, w: Weather)
    requires WorldInv(world)
    requires worker != "" && s != "" && Calm(w) && StopConfirmed(w.snapshot, s)
    requires Endable(world.db, s) && s in world.db.intents && ValidReason(world.db.intents[s].reason)
    requires HoldsLease(world.db, s, worker) && world.db.now + 2 < world.db.intents[s].lease.value
    ensures
      var (after, call) := Repeat(world, Worker(worker, s, world.db.intents[s].reason, WorkerReading), w, 4);
      && call == Worker(worker, s, world.db.intents[s].reason, WorkerDone)
      && s in after.db.sessions && Terminal(after.db.sessions[s].status)
      && s in after.db.intents && after.db.intents[s].completedAt.Some?
      && s !in after.live
  {
    var reason := world.db.intents[s].reason;
    var start := Worker(worker, s, reason, WorkerReading);
    RepeatSafe(world, start, w, 4);
    hide WorldInv, Repeat;
    match world.db.sessions[s].status
    case Created => CreatedRecovers(world, worker, s, reason, w);
    case Active => ActiveRecovers(world, worker, s, reason, w);
    case Ended => TerminalRecovers(world, worker, s, reason, w);
    case Failed => TerminalRecovers(world, worker, s, reason, w);
    TerminalMeansGone(Repeat(world, start, w, 4).0, s);
  }

  lemma FromTerminal(world: World, worker: Id, s: Id, reason: Id, w: Weather)
    requires worker != "" && s != "" && Calm(w)
    requires s in world.db.sessions && Terminal(world.db.sessions[s].status)
    requires s in world.db.intents && world.db.intents[s].requestedAt <= world.db.now
    requires HoldsLease(world.db, s, worker) && world.db.now + 1 < world.db.intents[s].lease.value
    ensures Repeat(world, Worker(worker, s, reason, WorkerReading), w, 4)
         == Repeat(world, Worker(worker, s, reason, CompletingClaim), w, 3)
    ensures
      var (after, call) := Repeat(world, Worker(worker, s, reason, CompletingClaim), w, 3);
      && call == Worker(worker, s, reason, WorkerDone)
      && after.db.sessions == world.db.sessions
      && s in after.db.intents && after.db.intents[s].completedAt.Some?
  {
    assert Act(world, Worker(worker, s, reason, WorkerReading), w)
        == (world, Worker(worker, s, reason, CompletingClaim));
    ClaimCompletes(world, worker, s, reason, w);
  }

  lemma ClaimCompletes(world: World, worker: Id, s: Id, reason: Id, w: Weather)
    requires worker != "" && s != "" && Calm(w)
    requires s in world.db.sessions && Terminal(world.db.sessions[s].status)
    requires s in world.db.intents && world.db.intents[s].requestedAt <= world.db.now
    requires HoldsLease(world.db, s, worker) && world.db.now + 1 < world.db.intents[s].lease.value
    ensures forall n: nat :: 1 <= n <= 3 ==>
      var (after, call) := Repeat(world, Worker(worker, s, reason, CompletingClaim), w, n);
      && call == Worker(worker, s, reason, WorkerDone)
      && after.db.sessions == world.db.sessions
      && s in after.db.intents && after.db.intents[s].completedAt.Some?
  {
    var (a, call) := Act(world, Worker(worker, s, reason, CompletingClaim), w);
    assert call == Worker(worker, s, reason, WorkerDone);
    forall n: nat | n <= 2 ensures Repeat(a, call, w, n) == (a, call) {
      Resting(a, call, w, n);
    }
  }

  // ----- the state no call leaves

  /** A cleanup of session `s` was recorded as failed, and no call is about to record otherwise. */
  ghost predicate CleanupFailed(m: Machine, s: Id, o: Id) {
    && MachineInv(m)
    && o in m.world.db.operations && m.world.db.operations[o].session == s
    && m.world.db.operations[o].status == CompensationFailed
    && (forall c :: c in m.calls && m.calls[c].Start? && m.calls[c].input.session == s ==> !m.calls[c].startAt.Cleaned?)
  }

  /** From `a` to `b` operation `o` stays as it is and no runtime comes up in session `s`. */
  ghost predicate Barred(a: World, b: World, s: Id, o: Id) {
    && o in a.db.operations && o in b.db.operations && b.db.operations[o] == a.db.operations[o]
    && (s in b.live ==> s in a.live)
  }

  lemma FailedIsHeld(db: Db, o: Id)
    requires DbInv(db)
    requires o in db.operations && db.operations[o].status == CompensationFailed
    ensures db.operations[o].claim.Some? && Held(db, o, db.operations[o].claim.value)
    ensures IsUnresolved(db, o)
  {
    assert OpShape(db.operations[o]);
  }

  lemma FailedIsTheOnlyUnresolved(db: Db, o: Id, q: Id)
    requires DbInv(db)
    requires o in db.operations && db.operations[o].status == CompensationFailed
    requires q in db.operations && db.operations[q].session == db.operations[o].session
    requires Unresolved(db.operations[q].status)
    ensures q == o
  {
    assert IsUnresolved(db, o) && IsUnresolved(db, q);
  }

  lemma FailedExcludesStart(world: World, i: StartInput, p: StartPoint, o: Id)
    requires WorldInv(world) && CallInv(world, Start(i, p))
    requires o in world.db.operations && world.db.operations[o].status == CompensationFailed
    requires world.db.operations[o].session == i.session
    ensures !p.Launching? && !p.Cleaning?
    ensures DbInv(Tick(world.db)) && Held(Tick(world.db), o, world.db.operations[o].claim.value)
  {
    hide DbInv, NoOrphan, ReportsStale;
    FailedIsHeld(world.db, o);
    TickKeeps(world.db, 1);
    if p.Launching? || p.Cleaning? {
      FailedIsTheOnlyUnresolved(world.db, o, p.op);
    }
  }

  lemma BarredTransactions(db: Db, o: Id, b: BeginParams, a: ActivateParams, c: ClaimParams)
    requires DbInv(db)
    requires o in db.operations && db.operations[o].status == CompensationFailed
    requires {b.session, a.session, c.session} == {db.operations[o].session}
    ensures BeginStartOperation(db, b).0 == db
    ensures TransitionToActive(db, a).0 == db
    ensures ClaimStartCompensation(db, c).0 == db
    ensures FinishStartCompensation(db, c, false).0 == db
  {
    assert b.session == a.session == c.session == db.operations[o].session by {
      assert b.session in {b.session, a.session, c.session} && a.session in {b.session, a.session, c.session}
          && c.session in {b.session, a.session, c.session};
    }
    FailedIsHeld(db, o);
    HeldExcludesOthers(db, o, db.operations[o].claim.value);
    OthersResolved(db, o);
    hide DbInv, HasUnresolved;
  }

  lemma StartBarred(world: World, i: StartInput, p: StartPoint, w: Weather, o: Id)
    requires WorldInv(world) && CallInv(world, Start(i, p))
    requires o in world.db.operations && world.db.operations[o].status == CompensationFailed
    requires world.db.operations[o].session == i.session
    requires !p.Cleaned?
    ensures
      var (after, q) := ActStart(world, i, p, w);
      Barred(world, after, i.session, o) && !q.Cleaned?
  {
    hide WorldInv, DbInv, CallInv, Held, BeginStartOperation, TransitionToActive, ClaimStartCompensation,
         FinishStartCompensation, GetStartOperation, StopConfirmed;
    var now := Tick(world.db);
    var b := BeginParams(w.freshId, i.session, i.key, i.hash, now.now);
    var noActivation, noClaim := ActivateParams(i.session, "", "", "", 0), ClaimParams(i.session, "", "", 0);
    FailedExcludesStart(world, i, p, o);
    match p
    case Activating(op) =>
      BarredTransactions(now, o, b, ActivateParams(i.session, op, i.key, i.hash, now.now), noClaim);
    case Claiming(op, claim) =>
      BarredTransactions(now, o, b, noActivation, ClaimParams(i.session, op, claim, now.now));
    case Uncleaned(op, claim) =>
      BarredTransactions(now, o, b, noActivation, ClaimParams(i.session, op, claim, now.now));
    case _ =>
      BarredTransactions(now, o, b, noActivation, noClaim);
  }

  lemma EndBarred(world: World, e: EndInput, p: EndPoint, w: Weather)
    ensures
      var after := ActEnd(world, e, p, w).0;
      after.db.operations == world.db.operations && after.live.Keys <= world.live.Keys
  {
    hide HasUnresolved, IntentKeyUsed, StopConfirmed;
  }

  lemma WorkerBarred(world: World, worker: Id, s: Id, reason: Id, p: WorkerPoint, w: Weather)
    ensures
      var after := ActWorker(world, worker, s, reason, p, w).0;
      after.db.operations == world.db.operations && after.live.Keys <= world.live.Keys
  {
    hide StopConfirmed;
  }

  lemma OthersBarred(world: World, call: Call, w: Weather)
    requires !call.Start?
    ensures
      var after := Act(world, call, w).0;
      after.db.operations == world.db.operations && after.live.Keys <= world.live.Keys
  {
    hide ActEnd, ActWorker;
    match call
    case End(e, p) => EndBarred(world, e, p, w);
    case Worker(worker, s, reason, p) => WorkerBarred(world, worker, s, reason, p, w);
    case _ =>
  }

  lemma ActBarred(world: World, call: Call, w: Weather, s: Id, o: Id)
    requires WorldInv(world) && CallInv(world, call)
    requires o in world.db.operations && world.db.operations[o].session == s
    requires world.db.operations[o].status == CompensationFailed
    requires call.Start? && call.input.session == s ==> !call.startAt.Cleaned?
    ensures
      var (after, next) := Act(world, call, w);
      && Barred(world, after, s, o)
      && (next.Start? && next.input.session == s ==> !next.startAt.Cleaned?)
  {
    hide WorldInv, CallInv, ActStart, ActEnd, ActWorker, ActFailure, Scan, SessionReaches, OpReaches, SameRequest;
    ActSafe(world, call, w);
    if call.Start? && call.input.session == s {
      StartBarred(world, call.input, call.startAt, w, o);
    } else if !call.Start? {
      OthersBarred(world, call, w);
    }
  }

  lemma ProgressBarred(m: Machine, c: nat, w: Weather, s: Id, o: Id)
    requires CleanupFailed(m, s, o)
    ensures CleanupFailed(Next(m, Progress(c, w)), s, o)
    ensures Barred(m.world, Next(m, Progress(c, w)).world, s, o)
  {
    hide Act, WorldInv, CallInv;
    ProgressKeeps(m, c, w);
    if c in m.calls {
      ActBarred(m.world, m.calls[c], w, s, o);
    }
    hide MachineInv;
  }

  lemma StepBarred(m: Machine, step: Step, s: Id, o: Id)
    requires CleanupFailed(m, s, o)
    ensures CleanupFailed(Next(m, step), s, o)
    ensures Barred(m.world, Next(m, step).world, s, o)
  {
    hide MachineInv, Act;
    if step.Progress? {
      ProgressBarred(m, step.c, step.weather, s, o);
    } else {
      MachineStepKeeps(m, step);
    }
  }

  /** Uncertain cleanup forbids new pipelines. Once a compensation is recorded as failed, then in every
      later run, whatever is retried and with whatever luck, the operation stays failed, no runtime comes
      up again, and the session neither starts nor ends. */
  lemma {:induction false} FailedCleanupForbidsPipelines(m: Machine, steps: seq<Step>, s: Id, o: Id)
    requires CleanupFailed(m, s, o)
    ensures CleanupFailed(RunMachine(m, steps), s, o)
    ensures Barred(m.world, RunMachine(m, steps).world, s, o)
    ensures
      var db := RunMachine(m, steps).world.db;
      s in db.sessions && db.sessions[s].status == Created && s !in db.intents
    decreases |steps|
  {
    if steps == [] {
      FailedIsHeld(m.world.db, o);
      HeldExcludesOthers(m.world.db, o, m.world.db.operations[o].claim.value);
    } else {
      hide CleanupFailed, Next;
      StepBarred(m, steps[0], s, o);
      FailedCleanupForbidsPipelines(Next(m, steps[0]), steps[1..], s, o);
    }
  }
}

/** The theorems about whole runs of the lifecycle machine: no runtime is ever orphaned, a start stops
    the runtime only with the authority to do so, and what Start and End report is durable. */
module SessionNoOrphan {
  import opened Wrappers
  import opened SessionRows
  import opened SessionTransactions
  import opened SessionRuns
  import opened SessionHistory
  import opened SessionLifecycle
  import opened SessionSafety

  // ----- one step of the machine

  lemma ActSafe(world: World, call: Call, w: Weather)
    requires WorldInv(world)
    requires CallInv(world, call)
    ensures
      var (after, next) := Act(world, call, w);
      && WorldInv(after) && CallInv(after, next)
      && (if HoldsLock(call) then Private(world, after, Subject(call)) else Harmless(world, after))
      && (HoldsLock(next) ==> HoldsLock(call) && Subject(next) == Subject(call))
  {
    hide WorldInv, CallInv, Private, Harmless, Scan, StopConfirmed, RealtimeStop;
    Unmoved(world);
    match call
    case Start(i, p) =>
      StartSafe(world, i, p, w);
    case End(e, p) =>
      EndSafe(world, e, p, w);
    case Worker(worker, s, reason, p) =>
      if p.Scanning? {
        ScanSafe(world, worker, w);
      } else {
        WorkerSafe(world, worker, s, reason, p, w);
      }
    case Failure(s, at, p) =>
      FailureSafe(world, s, at, p, w);
  }

  lemma Unmoved(world: World)
    ensures Harmless(world, world)
  {
  }

  lemma ProgressKeeps(m: Machine, c: nat, w: Weather)
    requires MachineInv(m)
    ensures MachineInv(Next(m, Progress(c, w)))
  {
    hide WorldInv, CallInv, Private, Harmless, Act;
    if c in m.calls {
      var call := m.calls[c];
      var after := Act(m.world, call, w).0;
      ActSafe(m.world, call, w);
      forall d | d in m.calls && d != c ensures CallInv(after, m.calls[d]) {
        OthersKnow(m.world, after, Subject(call), m.calls[d]);
      }
    }
  }

  lemma OwnedThroughCreate(db: Db, s: Id, account: Id, at: Time, t: Id, runtime: Runtime)
    requires Owned(db, t, runtime)
    ensures Owned(Create(db, s, account, at).0, t, runtime)
  {
  }

  lemma CreateTouchesSessions(db: Db, s: Id, account: Id, at: Time)
    ensures
      var after := Create(db, s, account, at).0;
      && after.operations == db.operations && after.intents == db.intents && after.now == db.now
      && Moves(db, after, s, "")
  {
  }

  lemma CreateSafe(world: World, s: Id, account: Id)
    requires WorldInv(world)
    ensures
      var after := world.(db := Create(Tick(world.db), s, account, world.db.now + 1).0);
      WorldInv(after) && Harmless(world, after)
  {
    hide DbInv, Owned, Evolves, Moves, Create;
    var now := Tick(world.db);
    var after := Create(now, s, account, now.now).0;
    TickSafe(world, 1, s);
    CreateKeeps(now, s, account, now.now);
    CreateTouchesSessions(now, s, account, now.now);
    MovesEvolves(now, after, s, "");
    EvolvesTransitive(world.db, now, after);
    forall t | t in world.live ensures Owned(after, t, world.live[t]) {
      assert Owned(now, t, world.live[t]);
      OwnedThroughCreate(now, s, account, now.now, t, world.live[t]);
    }
  }

  lemma DeathSafe(world: World, s: Id)
    requires WorldInv(world)
    ensures
      var after := world.(live := world.live - {s});
      WorldInv(after) && Harmless(world, after)
  {
    hide DbInv, Owned;
    forall t | t in world.live - {s} ensures Owned(world.db, t, world.live[t]) {
      assert Owned(world.db, t, world.live[t]);
    }
  }

  lemma ReportSafe(world: World, s: Id)
    requires WorldInv(world)
    requires s !in world.live
    ensures
      var after := world.(db := Tick(world.db), reports := world.reports + {(s, world.db.now + 1)});
      WorldInv(after) && Harmless(world, after)
  {
    hide DbInv, Owned;
    TickSafe(world, 1, s);
  }

  lemma EveryoneKnows(m: Machine, after: World)
    requires MachineInv(m)
    requires WorldInv(after) && Harmless(m.world, after)
    ensures MachineInv(m.(world := after))
  {
    hide WorldInv, CallInv, Harmless;
    forall c | c in m.calls ensures CallInv(after, m.calls[c]) {
      OthersKnow(m.world, after, Subject(m.calls[c]), m.calls[c]);
    }
  }

  lemma MachineStepKeeps(m: Machine, step: Step)
    requires MachineInv(m)
    ensures MachineInv(Next(m, step))
  {
    hide WorldInv, Harmless, Act;
    match step
    case CreateSession(s, account) =>
      CreateSafe(m.world, s, account);
      EveryoneKnows(m, Next(m, step).world);
    case Spawn(c, call) =>
    case Acquire(c) =>
    case GiveUp(c) =>
    case Progress(c, w) => ProgressKeeps(m, c, w);
    case Crash(c) =>
    case RuntimeDies(s) =>
      DeathSafe(m.world, s);
      EveryoneKnows(m, Next(m, step).world);
    case ReportFailure(s) =>
      if s !in m.world.live {
        ReportSafe(m.world, s);
        EveryoneKnows(m, Next(m, step).world);
      }
    case Wait(d) =>
      TickSafe(m.world, d, "");
      EveryoneKnows(m, Next(m, step).world);
  }

  // ----- every run

  lemma {:induction false} MachineRunKeeps(m: Machine, steps: seq<Step>)
    requires MachineInv(m)
    ensures MachineInv(RunMachine(m, steps))
    decreases |steps|
  {
    hide MachineInv, Next;
    if steps != [] {
      MachineStepKeeps(m, steps[0]);
      MachineRunKeeps(Next(m, steps[0]), steps[1..]);
    }
  }

  lemma Reachable(steps: seq<Step>)
    ensures MachineInv(RunMachine(Idle, steps))
  {
    MachineRunKeeps(Idle, steps);
  }

  /** No orphan runtime. In every run, wherever calls crash and whichever replies are lost, a live runtime
      carries either an unresolved operation of a created session or the completed operation of an
      active one. So a session that has ended or failed, or that is created with no unresolved
      operation, has no live runtime. */
  lemma NoOrphanRuntime(steps: seq<Step>, s: Id)
    requires s in RunMachine(Idle, steps).world.live
    ensures
      var world := RunMachine(Idle, steps).world;
      var op := world.live[s].operation;
      && s in world.db.sessions && op in world.db.operations && world.db.operations[op].session == s
      && (|| (world.db.sessions[s].status == Created && Unresolved(world.db.operations[op].status))
          || (world.db.sessions[s].status == Active && world.db.operations[op].status == Completed))
  {
    hide RunMachine, DbInv;
    Reachable(steps);
    assert Owned(RunMachine(Idle, steps).world.db, s, RunMachine(Idle, steps).world.live[s]);
  }

  lemma EndedSessionsAreSilent(steps: seq<Step>, s: Id)
    requires s in RunMachine(Idle, steps).world.db.sessions
    requires
      var db := RunMachine(Idle, steps).world.db;
      Terminal(db.sessions[s].status) || (db.sessions[s].status == Created && !HasUnresolved(db, s))
    ensures s !in RunMachine(Idle, steps).world.live
  {
    var world := RunMachine(Idle, steps).world;
    if s in world.live {
      var op := world.live[s].operation;
      UnresolvedCounts(world.db, op);
      NoOrphanRuntime(steps, s);
    }
  }

  lemma UnresolvedCounts(db: Db, o: Id)
    ensures IsUnresolved(db, o) ==> HasUnresolved(db, db.operations[o].session)
  {
  }

  /** Whenever a start is about to stop the runtime, it holds the compensation claim and its session is
      still created: a runtime serving an active session is never stopped on behalf of a start. */
  lemma StartStopsOnlyWithAuthority(steps: seq<Step>, c: nat)
    requires c in RunMachine(Idle, steps).calls
    requires RunMachine(Idle, steps).calls[c].Start? && RunMachine(Idle, steps).calls[c].startAt.Cleaning?
    ensures
      var m := RunMachine(Idle, steps);
      var i, p := m.calls[c].input, m.calls[c].startAt;
      && i.session in m.world.db.sessions
      && m.world.db.sessions[i.session].status == Created
      && Held(m.world.db, p.op, p.claim)
      && (i.session in m.world.live ==> m.world.live[i.session].operation == p.op)
  {
    hide RunMachine, DbInv;
    Reachable(steps);
    var m := RunMachine(Idle, steps);
    var i, op, claim := m.calls[c].input, m.calls[c].startAt.op, m.calls[c].startAt.claim;
    assert CallInv(m.world, Start(i, Cleaning(op, claim)));
    HeldExcludesOthers(m.world.db, op, claim);
    LiveIsTheUnresolved(m.world, op);
  }

  lemma LiveIsTheUnresolved(world: World, op: Id)
    requires WorldInv(world) && IsUnresolved(world.db, op)
    ensures
      var s := world.db.operations[op].session;
      s in world.live ==> world.live[s].operation == op
  {
    var s := world.db.operations[op].session;
    if s in world.live {
      assert Owned(world.db, s, world.live[s]);
      assert IsUnresolved(world.db, world.live[s].operation);
    }
  }

  /** A start that reports success started its session: the operation completed was its own request's. */
  lemma StartSuccessIsDurable(steps: seq<Step>, c: nat)
    requires c in RunMachine(Idle, steps).calls
    requires RunMachine(Idle, steps).calls[c].Start? && RunMachine(Idle, steps).calls[c].startAt.StartOk?
    ensures
      var m := RunMachine(Idle, steps);
      var i := m.calls[c].input;
      && StartedBy(m.world.db, i, m.calls[c].startAt.op)
      && i.session in m.world.db.sessions && m.world.db.sessions[i.session].status != Created
  {
    hide RunMachine, DbInv;
    Reachable(steps);
    var m := RunMachine(Idle, steps);
    var i, op := m.calls[c].input, m.calls[c].startAt.op;
    assert CallInv(m.world, Start(i, StartOk(op)));
    CompletedHasLeftCreated(m.world.db, op);
  }

  lemma CompletedHasLeftCreated(db: Db, op: Id)
    requires DbInv(db)
    requires IsCompleted(db, op)
    ensures db.operations[op].session in db.sessions && db.sessions[db.operations[op].session].status != Created
  {
  }

  /** An end that reports success ended its session for good: the intent is completed, the session is
      terminal and nothing is left running. */
  lemma EndSuccessIsFinal(steps: seq<Step>, c: nat)
    requires c in RunMachine(Idle, steps).calls
    requires RunMachine(Idle, steps).calls[c].End? && RunMachine(Idle, steps).calls[c].endAt.EndOk?
    ensures
      var m := RunMachine(Idle, steps);
      var s := m.calls[c].end.session;
      && s in m.world.db.intents && m.world.db.intents[s].completedAt.Some?
      && s in m.world.db.sessions && Terminal(m.world.db.sessions[s].status)
      && s !in m.world.live
  {
    hide RunMachine, DbInv;
    Reachable(steps);
    var m := RunMachine(Idle, steps);
    var e := m.calls[c].end;
    assert CallInv(m.world, End(e, EndOk));
    DoneIsTerminal(m.world.db, e.session);
    EndedSessionsAreSilent(steps, e.session);
  }

  lemma DoneIsTerminal(db: Db, s: Id)
    requires DbInv(db)
    requires s in db.intents && db.intents[s].completedAt.Some?
    ensures s in db.sessions && Terminal(db.sessions[s].status)
  {
  }

  // ----- where the timestamp guard is needed

  /** A failure report that reaches an active session whose runtime is live leaves the runtime accounted
      for exactly when the report is older than the activation, which is what the transition checks. */
  lemma FailureKeepsOwnerIff(db: Db, p: FailParams, runtime: Runtime)
    requires p.session in db.sessions && db.sessions[p.session].status == Active
    requires p.expected == Active && p.session != "" && p.code != "" && p.at != 0
    requires Owned(db, p.session, runtime)
    ensures Owned(TransitionToFailed(db, p).0, p.session, runtime) <==> p.at < db.sessions[p.session].startedAt.value
  {
  }
}

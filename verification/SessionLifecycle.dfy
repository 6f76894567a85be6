/** Start, End, end recovery and failure reports as small programs over repository transactions and
    realtime calls. A step of the machine is one such call, or the process stopping in between. Calls
    on one session are serialised by the process lock; everything else interleaves freely. */
module SessionLifecycle {
  import opened Wrappers
  import opened SessionRows
  import opened SessionTransactions

  // ----- the media plane as the service sees it

  datatype RuntimeState =
    | Stopped | Starting | Listening | AsrProcessing | Translating | Thinking
    | AssistantProcessing | TtsProcessing | Playing | Stopping | RuntimeFailed | Unclassified

  datatype Snapshot = Snapshot(session: Id, operation: Id, state: RuntimeState, updatedAt: Time)

  predicate Running(state: RuntimeState) {
    state in {Listening, AsrProcessing, Translating, Thinking, AssistantProcessing, TtsProcessing, Playing}
  }

  predicate ValidSnapshot(snapshot: Snapshot, session: Id) {
    snapshot.session == session && snapshot.state != Unclassified && snapshot.updatedAt != 0
  }

  /** Cleanup is confirmed only by a valid stopped snapshot of this session. */
  predicate StopConfirmed(reply: Option<Snapshot>, session: Id) {
    reply.Some? && ValidSnapshot(reply.value, session) && reply.value.state == Stopped
  }

  // A runtime that is really up, the operation it was started for, and when it came up.
  datatype Runtime = Runtime(operation: Id, since: Time)

  // `reports` are the runtime failures announced so far, with the time their cleanup was confirmed.
  datatype World = World(db: Db, live: map<Id, Runtime>, reports: set<(Id, Time)>)

  // ----- the calls and their program points

  datatype StartInput = StartInput(session: Id, key: Id, hash: Id, trace: Id)

  datatype EndInput = EndInput(session: Id, key: Id, hash: Id, trace: Id, reason: Id)

  datatype StartPoint =
    | StartWaiting | StartReading | Finding | Beginning
    | Launching(op: Id) | Reconciling(op: Id) | Activating(op: Id)
    | Claiming(op: Id, claim: Id) | Cleaning(op: Id, claim: Id) | Cleaned(op: Id, claim: Id)
    | Uncleaned(op: Id, claim: Id)
    | Denied | Replaying | Rereading(op: Id)
    | StartOk(op: Id) | StartRefused

  datatype EndPoint =
    | EndWaiting | EndReading | Saving(status: Status)
    | EndingCreated | StoppingActive | EndingActive(endedAt: Time) | CompletingIntent | ReleasingIntent
    | EndOk | EndRefused

  datatype WorkerPoint =
    | Scanning | WorkerWaiting | WorkerReading
    | RecoveringCreated | RecoveringStop | RecoveringActive(endedAt: Time) | RereadingEnd
    | CompletingClaim | RetryingClaim
    | WorkerDone

  datatype FailurePoint = FailureWaiting | FailureReading | Recording | FailureDone

  datatype Call =
    | Start(input: StartInput, startAt: StartPoint)
    | End(end: EndInput, endAt: EndPoint)
    | Worker(worker: Id, session: Id, reason: Id, workerAt: WorkerPoint)
    | Failure(failed: Id, occurredAt: Time, failureAt: FailurePoint)

  function Subject(call: Call): Id {
    match call
    case Start(i, _) => i.session
    case End(e, _) => e.session
    case Worker(_, s, _, _) => s
    case Failure(s, _, _) => s
  }

  predicate Waiting(call: Call) {
    match call
    case Start(_, p) => p.StartWaiting?
    case End(_, p) => p.EndWaiting?
    case Worker(_, _, _, p) => p.WorkerWaiting?
    case Failure(_, _, p) => p.FailureWaiting?
  }

  predicate Returned(call: Call) {
    match call
    case Start(_, p) => p.StartOk? || p.StartRefused?
    case End(_, p) => p.EndOk? || p.EndRefused?
    case Worker(_, _, _, p) => p.WorkerDone?
    case Failure(_, _, p) => p.FailureDone?
  }

  /** The program points between taking the session's lock and releasing it. The recovery worker scans
      for an intent before it locks, and records a failed attempt after it unlocks. */
  predicate HoldsLock(call: Call) {
    !Waiting(call) && !Returned(call) && !(call.Worker? && (call.workerAt.Scanning? || call.workerAt.RetryingClaim?))
  }

  // ----- what the environment decides at each step

  datatype Fault = Delivered | LostBefore | LostAfter

  /** One step's luck: whether a call is lost before or after taking effect, what the media plane
      answers, whether clocks and readiness checks succeed, and the identifiers it draws. */
  datatype Weather = Weather(
    fault: Fault, ready: bool, clock: bool, takesEffect: bool, snapshot: Option<Snapshot>,
    freshId: Id, pick: Id, lease: nat, retryAfter: nat, errorText: Id)

  function Reply<T>(w: Weather, r: Result<T, Error>): Result<T, Error> {
    if w.fault.Delivered? then r else Err(Storage)
  }

  function Committed(w: Weather, before: Db, after: Db): Db {
    if w.fault.LostBefore? then before else after
  }

  /** Reading the service clock. Readings are strictly increasing. */
  function Tick(db: Db): Db {
    db.(now := db.now + 1)
  }

  /** Realtime.Start never claims a runtime that another operation started. */
  function RealtimeStart(live: map<Id, Runtime>, session: Id, op: Id, now: Time, takesEffect: bool): map<Id, Runtime> {
    if takesEffect && session !in live then live[session := Runtime(op, now)] else live
  }

  /** Realtime.Stop. A confirmed stop really stopped; an unconfirmed one may have. */
  function RealtimeStop(live: map<Id, Runtime>, session: Id, w: Weather): map<Id, Runtime> {
    if w.takesEffect || StopConfirmed(w.snapshot, session) then live - {session} else live
  }

  // ----- Start

  /** What a snapshot means to the operation that asked for it. */
  function ContinueOwnedRuntime(i: StartInput, op: Id, snapshot: Snapshot, uncertain: bool): StartPoint {
    if snapshot.session != i.session || snapshot.operation == "" || snapshot.operation != op then StartRefused
    else if snapshot.state == Unclassified || snapshot.updatedAt == 0 then Claiming(op, i.trace)
    else if Running(snapshot.state) then Activating(op)
    else if snapshot.state == Starting || snapshot.state == Stopping then StartRefused
    else if uncertain then StartRefused
    else Claiming(op, i.trace)
  }

  function ContinueOperation(reply: OperationReply): StartPoint {
    match reply.row.status
    case Pending => Launching(reply.id)
    case Compensating =>
      if reply.row.claim.None? || reply.row.claim.value == "" then StartRefused
      else Claiming(reply.id, reply.row.claim.value)
    case Completed => Rereading(reply.id)
    case Compensated => StartRefused
    case CompensationFailed => StartRefused
  }

  ghost function Begin(world: World, i: StartInput, w: Weather): (World, Result<OperationReply, Error>) {
    var now := Tick(world.db);
    var (after, r) := BeginStartOperation(now, BeginParams(w.freshId, i.session, i.key, i.hash, now.now));
    (world.(db := Committed(w, now, after)), Reply(w, r))
  }

  predicate ReadsActive(world: World, s: Id, w: Weather) {
    w.fault.Delivered? && s in world.db.sessions && world.db.sessions[s].status == Active
  }

  ghost function ActStart(world: World, i: StartInput, point: StartPoint, w: Weather): (World, StartPoint) {
    var now := Tick(world.db);
    match point
    case StartReading =>
      if !w.fault.Delivered? || i.session !in world.db.sessions then (world, StartRefused)
      else if world.db.sessions[i.session].status == Active then (world, Replaying)
      else if world.db.sessions[i.session].status == Created then (world, Finding)
      else (world, StartRefused)
    case Finding => (
      match Reply(w, GetStartOperation(world.db, i.session, i.key))
      case Ok(reply) =>
        if reply.row.hash != i.hash then (world, StartRefused)
        else if reply.row.status == Pending && !w.ready then (world, StartRefused)
        else (world, ContinueOperation(reply))
      case Err(e) =>
        if e == OperationNotFound && w.ready then (world, Beginning) else (world, StartRefused))
    case Beginning =>
      if !w.clock then (world, StartRefused)
      else
        var (after, r) := Begin(world, i, w);
        (after, if r.Ok? then ContinueOperation(r.value) else StartRefused)
    case Launching(op) =>
      var up := world.(live := RealtimeStart(world.live, i.session, op, world.db.now, w.takesEffect));
      if w.fault.Delivered? && w.snapshot.Some? then (up, ContinueOwnedRuntime(i, op, w.snapshot.value, false))
      else (up, Reconciling(op))
    case Reconciling(op) =>
      if w.fault.Delivered? && w.snapshot.Some? then (world, ContinueOwnedRuntime(i, op, w.snapshot.value, true))
      else (world, StartRefused)
    case Activating(op) =>
      if !w.clock then (world, Claiming(op, i.trace))
      else
        var (after, r) := TransitionToActive(now, ActivateParams(i.session, op, i.key, i.hash, now.now));
        (world.(db := Committed(w, now, after)),
         if Reply(w, r).Ok? then StartOk(op) else Claiming(op, i.trace))
    case Claiming(op, claim) =>
      if !w.clock then (world, StartRefused)
      else
        var (after, r) := ClaimStartCompensation(now, ClaimParams(i.session, op, claim, now.now));
        (world.(db := Committed(w, now, after)),
         match Reply(w, r)
         case Err(_) => StartRefused
         case Ok(reply) => if reply == Granted then Cleaning(op, claim) else Denied)
    case Cleaning(op, claim) =>
      (world.(live := RealtimeStop(world.live, i.session, w)),
       if StopConfirmed(w.snapshot, i.session) && w.fault.Delivered? then Cleaned(op, claim) else Uncleaned(op, claim))
    case Cleaned(op, claim) =>
      if !w.clock then (world, StartRefused)
      else
        var after := FinishStartCompensation(now, ClaimParams(i.session, op, claim, now.now), true).0;
        (world.(db := Committed(w, now, after)), StartRefused)
    case Uncleaned(op, claim) =>
      if !w.clock then (world, StartRefused)
      else
        var after := FinishStartCompensation(now, ClaimParams(i.session, op, claim, now.now), false).0;
        (world.(db := Committed(w, now, after)), StartRefused)
    case Denied => (world, if ReadsActive(world, i.session, w) then Replaying else StartRefused)
    case Replaying =>
      if !w.clock then (world, StartRefused)
      else
        var (after, r) := Begin(world, i, w);
        (after, if r.Ok? && r.value.row.status == Completed then StartOk(r.value.id) else StartRefused)
    case Rereading(op) => (world, if ReadsActive(world, i.session, w) then StartOk(op) else StartRefused)
    case _ => (world, point)
  }

  // ----- End

  ghost function ActEnd(world: World, e: EndInput, point: EndPoint, w: Weather): (World, EndPoint) {
    var db := world.db;
    var now := Tick(db);
    match point
    case EndReading =>
      if !w.fault.Delivered? || e.session !in db.sessions then (world, EndRefused)
      else (world, Saving(db.sessions[e.session].status))
    case Saving(status) =>
      if !w.clock then (world, EndRefused)
      else
        var p := IntentParams(e.session, e.reason, e.key, e.hash, e.trace, now.now, "request:" + e.trace,
                              now.now + 1 + w.lease);
        var (after, r) := SaveEndIntent(now, p);
        (world.(db := Committed(w, now, after)),
         match Reply(w, r)
         case Err(_) => EndRefused
         case Ok(intent) =>
           if intent.reason != e.reason then EndRefused
           else if intent.completedAt.Some? then EndOk
           else if !w.ready then EndRefused
           else match status
             case Ended => CompletingIntent
             case Failed => CompletingIntent
             case Created => EndingCreated
             case Active => StoppingActive)
    case EndingCreated =>
      if !w.clock then (world, ReleasingIntent)
      else
        var (after, r) := TransitionToEnded(now, EndParams(e.session, Created, e.reason, now.now));
        (world.(db := Committed(w, now, after)), if Reply(w, r).Ok? then CompletingIntent else ReleasingIntent)
    case StoppingActive =>
      if !w.clock then (world, ReleasingIntent)
      else
        (world.(db := now, live := RealtimeStop(world.live, e.session, w)),
         if StopConfirmed(w.snapshot, e.session) && w.fault.Delivered? then EndingActive(now.now) else ReleasingIntent)
    case EndingActive(endedAt) =>
      var (after, r) := TransitionToEnded(db, EndParams(e.session, Active, e.reason, endedAt));
      (world.(db := Committed(w, db, after)), if Reply(w, r).Ok? then CompletingIntent else ReleasingIntent)
    case CompletingIntent =>
      if !w.clock then (world, ReleasingIntent)
      else
        var (after, r) := CompleteEndIntent(now, e.session, now.now);
        (world.(db := Committed(w, now, after)), if Reply(w, r).Ok? then EndOk else ReleasingIntent)
    case ReleasingIntent =>
      var after := RetryClaimedEndIntent(db, RetryParams(e.session, "request:" + e.trace, w.errorText, 0)).0;
      (world.(db := Committed(w, db, after)), EndRefused)
    case _ => (world, point)
  }

  // ----- end recovery

  function AfterRecovery(r: Result<Session, Error>): WorkerPoint {
    match r
    case Ok(_) => CompletingClaim
    case Err(e) => if e == ConcurrentTransition then RereadingEnd else RetryingClaim
  }

  /** Before the lock: lease any due intent. */
  ghost function Scan(world: World, worker: Id, w: Weather): (World, Call) {
    var now := Tick(world.db);
    if !w.clock then (world, Worker(worker, "", "", WorkerDone))
    else
      var (after, r) := ClaimPendingEndIntent(now, LeaseParams(worker, now.now, now.now + 1 + w.lease), w.pick);
      (world.(db := Committed(w, now, after)),
       match Reply(w, r)
       case Err(_) => Worker(worker, "", "", WorkerDone)
       case Ok(claimed) =>
         if claimed.Some? && w.ready then Worker(worker, w.pick, claimed.value.reason, WorkerWaiting)
         else Worker(worker, "", "", WorkerDone))
  }

  ghost function ActWorker(world: World, worker: Id, s: Id, reason: Id, point: WorkerPoint, w: Weather)
    : (World, WorkerPoint)
  {
    var db := world.db;
    var now := Tick(db);
    match point
    case WorkerReading =>
      if !w.fault.Delivered? || s !in db.sessions then (world, RetryingClaim)
      else if Terminal(db.sessions[s].status) then (world, CompletingClaim)
      else if db.sessions[s].status == Created then (world, RecoveringCreated)
      else (world, RecoveringStop)
    case RecoveringCreated =>
      if !w.clock then (world, RetryingClaim)
      else
        var (after, r) := TransitionToEnded(now, EndParams(s, Created, reason, now.now));
        (world.(db := Committed(w, now, after)), AfterRecovery(Reply(w, r)))
    case RecoveringStop =>
      if !w.clock then (world, RetryingClaim)
      else
        (world.(db := now, live := RealtimeStop(world.live, s, w)),
         if StopConfirmed(w.snapshot, s) && w.fault.Delivered? then RecoveringActive(now.now) else RetryingClaim)
    case RecoveringActive(endedAt) =>
      var (after, r) := TransitionToEnded(db, EndParams(s, Active, reason, endedAt));
      (world.(db := Committed(w, db, after)), AfterRecovery(Reply(w, r)))
    case RereadingEnd =>
      if w.fault.Delivered? && s in db.sessions && Terminal(db.sessions[s].status) then (world, CompletingClaim)
      else (world, RetryingClaim)
    case CompletingClaim =>
      if !w.clock then (world, RetryingClaim)
      else
        var (after, r) := CompleteClaimedEndIntent(now, FinishIntentParams(s, worker, now.now));
        (world.(db := Committed(w, now, after)), if Reply(w, r).Ok? then WorkerDone else RetryingClaim)
    case RetryingClaim =>
      var after := RetryClaimedEndIntent(db, RetryParams(s, worker, w.errorText, w.retryAfter)).0;
      (world.(db := Committed(w, db, after)), WorkerDone)
    case _ => (world, point)
  }

  // ----- runtime failure

  ghost function ActFailure(world: World, s: Id, at: Time, point: FailurePoint, w: Weather): (World, FailurePoint) {
    match point
    case FailureReading => (world, if ReadsActive(world, s, w) then Recording else FailureDone)
    case Recording =>
      var after := TransitionToFailed(world.db, FailParams(s, Active, w.errorText, at)).0;
      (world.(db := Committed(w, world.db, after)), FailureDone)
    case _ => (world, point)
  }

  // ----- the whole machine

  function Acquired(call: Call): Call
    requires Waiting(call)
  {
    match call
    case Start(i, _) => Start(i, StartReading)
    case End(e, _) => End(e, EndReading)
    case Worker(worker, s, reason, _) => Worker(worker, s, reason, WorkerReading)
    case Failure(s, at, _) => Failure(s, at, FailureReading)
  }

  /** The wait for the lock is cancelled or times out; a worker records its failed attempt. */
  function GaveUp(call: Call): Call
    requires Waiting(call)
  {
    match call
    case Start(i, _) => Start(i, StartRefused)
    case End(e, _) => End(e, EndRefused)
    case Worker(worker, s, reason, _) => Worker(worker, s, reason, RetryingClaim)
    case Failure(s, at, _) => Failure(s, at, FailureDone)
  }

  ghost function Act(world: World, call: Call, w: Weather): (World, Call) {
    match call
    case Start(i, p) => var (after, q) := ActStart(world, i, p, w); (after, Start(i, q))
    case End(e, p) => var (after, q) := ActEnd(world, e, p, w); (after, End(e, q))
    case Worker(worker, s, reason, p) =>
      if p.Scanning? then Scan(world, worker, w)
      else var (after, q) := ActWorker(world, worker, s, reason, p, w); (after, Worker(worker, s, reason, q))
    case Failure(s, at, p) => var (after, q) := ActFailure(world, s, at, p, w); (after, Failure(s, at, q))
  }

  datatype Machine = Machine(world: World, calls: map<nat, Call>)

  predicate LockFree(calls: map<nat, Call>, s: Id) {
    forall c :: c in calls && HoldsLock(calls[c]) ==> Subject(calls[c]) != s
  }

  datatype Step =
    | CreateSession(newSession: Id, account: Id)
    | Spawn(c: nat, call: Call)
    | Acquire(c: nat)
    | GiveUp(c: nat)
    | Progress(c: nat, weather: Weather)
    | Crash(c: nat)
    | RuntimeDies(dead: Id)
    | ReportFailure(cleaned: Id)
    | Wait(elapsed: nat)

  /** A call enters with nothing done yet; a failure call carries a report the media plane made. */
  predicate Entry(call: Call, reports: set<(Id, Time)>) {
    match call
    case Start(_, p) => p.StartWaiting?
    case End(_, p) => p.EndWaiting?
    case Worker(_, _, _, p) => p.Scanning?
    case Failure(s, at, p) => p.FailureWaiting? && (s, at) in reports
  }

  /** Steps that are not enabled change nothing. */
  ghost function Next(m: Machine, step: Step): Machine {
    var world := m.world;
    match step
    case CreateSession(s, account) =>
      m.(world := world.(db := Create(Tick(world.db), s, account, world.db.now + 1).0))
    case Spawn(c, call) =>
      if c !in m.calls && Entry(call, world.reports) then m.(calls := m.calls[c := call]) else m
    case Acquire(c) =>
      if c in m.calls && Waiting(m.calls[c]) && LockFree(m.calls, Subject(m.calls[c])) then
        m.(calls := m.calls[c := Acquired(m.calls[c])])
      else m
    case GiveUp(c) =>
      if c in m.calls && Waiting(m.calls[c]) then m.(calls := m.calls[c := GaveUp(m.calls[c])]) else m
    case Progress(c, w) =>
      if c in m.calls then
        var (after, call) := Act(world, m.calls[c], w);
        Machine(after, m.calls[c := call])
      else m
    case Crash(c) => m.(calls := m.calls - {c})
    case RuntimeDies(s) => m.(world := world.(live := world.live - {s}))
    case ReportFailure(s) =>
      // The media plane reports a failure only once everything the session owned is cleaned up.
      if s !in world.live then
        m.(world := world.(db := Tick(world.db), reports := world.reports + {(s, world.db.now + 1)}))
      else m
    case Wait(d) => m.(world := world.(db := world.db.(now := world.db.now + d)))
  }

  ghost function RunMachine(m: Machine, steps: seq<Step>): Machine
    decreases |steps|
  {
    if steps == [] then m else RunMachine(Next(m, steps[0]), steps[1..])
  }

  const Idle := Machine(World(Db(map[], map[], map[], 1), map[], {}), map[])
}

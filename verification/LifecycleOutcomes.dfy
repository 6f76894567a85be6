/** What each step of a start, an end, a recovery and a failure report decides and leaves behind, case by case. */
module LifecycleOutcomes {
  import opened Wrappers
  import opened SessionRows
  import opened SessionTransactions
  import opened SessionLifecycle

  // ----- the media plane

  /** A snapshot of another session or operation refuses the start. A runtime of its own that is up is activated;
      one that is broken is cleaned up, and so is one that is down, unless its launch may still come through;
      one on its way up or down is left to a later attempt. */
  lemma SnapshotOutcome(i: StartInput, op: Id, s: Snapshot, uncertain: bool)
    ensures
      var own := s.session == i.session && s.operation == op && op != "";
      var sound := s.state != Unclassified && s.updatedAt != 0;
      var down := s.state == Stopped || s.state == RuntimeFailed;
      var moving := s.state == Starting || s.state == Stopping;
      var q := ContinueOwnedRuntime(i, op, s, uncertain);
      && (q == Activating(op) <==> own && sound && !down && !moving)
      && (q == Claiming(op, i.trace) <==> own && (!sound || (down && !uncertain)))
      && (q == StartRefused <==> !own || (sound && (moving || (down && uncertain))))
  {
  }

  /** A stop counts as confirmed only by a sound snapshot of the session as stopped. Whether confirmed or not, no
      other session's runtime is touched; a confirmed one leaves none. */
  lemma StopOutcome(live: map<Id, Runtime>, session: Id, w: Weather)
    ensures
      StopConfirmed(w.snapshot, session) <==>
        && w.snapshot.Some? && w.snapshot.value.session == session && w.snapshot.value.state == Stopped
        && w.snapshot.value.updatedAt != 0
    ensures
      var after := RealtimeStop(live, session, w);
      && (session in after <==> session in live && !w.takesEffect && !StopConfirmed(w.snapshot, session))
      && (forall s :: s != session ==> (s in after <==> s in live))
      && (forall s :: s in after ==> after[s] == live[s])
  {
  }

  /** A launch that takes effect brings up a runtime of the operation, but only where none is up. */
  lemma LaunchOutcome(live: map<Id, Runtime>, session: Id, op: Id, now: Time, takesEffect: bool)
    ensures
      var after := RealtimeStart(live, session, op, now, takesEffect);
      && (after != live <==> takesEffect && session !in live)
      && (after != live ==> after.Keys == live.Keys + {session} && after[session] == Runtime(op, now))
      && (forall s :: s in live ==> s in after && after[s] == live[s])
  {
    if takesEffect && session !in live {
      assert session in live[session := Runtime(op, now)];
    }
  }

  /** An operation goes on where it stopped: pending ones are launched, compensating ones cleaned up under their
      own claim, completed ones answered; a compensation that has ended starts nothing. */
  lemma OperationOutcome(reply: OperationReply)
    ensures
      var q, row := ContinueOperation(reply), reply.row;
      && (q == Launching(reply.id) <==> row.status == Pending)
      && (q == Rereading(reply.id) <==> row.status == Completed)
      && (row.status == Compensating && row.claim.Some? && row.claim.value != "" ==>
            q == Claiming(reply.id, row.claim.value))
      && (q == StartRefused <==>
            || row.status == Compensated || row.status == CompensationFailed
            || (row.status == Compensating && (row.claim.None? || row.claim.value == "")))
  {
  }

  // ----- a transaction in any weather

  /** The one transaction `tx` ran on `base`, unless its call was lost on the way there. */
  ghost predicate Commits(before: World, after: World, base: Db, tx: Tx, w: Weather) {
    && after.live == before.live && after.reports == before.reports
    && after.db == if w.fault.LostBefore? then base else Apply(base, tx)
  }

  // ----- start

  /** A start looks at its session first: active ones are answered, created ones are looked up, and for any
      other, or when the reading fails, it gives up. */
  lemma ReadingOutcome(world: World, i: StartInput, op: Id, w: Weather)
    ensures
      var seen := w.fault.Delivered? && i.session in world.db.sessions;
      var (after, q) := ActStart(world, i, StartReading, w);
      && after == world
      && (q == Replaying <==> seen && world.db.sessions[i.session].status == Active)
      && (q == Finding <==> seen && world.db.sessions[i.session].status == Created)
      && (q == StartRefused <==> !seen || Terminal(world.db.sessions[i.session].status))
    ensures
      var active := w.fault.Delivered? && i.session in world.db.sessions
                    && world.db.sessions[i.session].status == Active;
      && ActStart(world, i, Denied, w) == (world, if active then Replaying else StartRefused)
      && ActStart(world, i, Rereading(op), w) == (world, if active then StartOk(op) else StartRefused)
  {
  }

  /** The operation of its key is continued if it was for the same payload; a new or pending one only while the
      service is ready. */
  lemma FindingOutcome(world: World, i: StartInput, w: Weather)
    ensures
      var r := GetStartOperation(world.db, i.session, i.key);
      var own := r.Ok? && r.value.row.hash == i.hash && (r.value.row.status == Pending ==> w.ready);
      var absent := r == Err(OperationNotFound) && w.ready;
      var (after, q) := ActStart(world, i, Finding, w);
      && after == world
      && (w.fault.Delivered? && own ==> q == ContinueOperation(r.value))
      && (w.fault.Delivered? && absent ==> q == Beginning)
      && (!w.fault.Delivered? || (!own && !absent) ==> q == StartRefused)
  {
    hide GetStartOperation, ContinueOperation;
  }

  /** Beginning and replaying run the same transaction under a fresh id. A start that begins goes on with the
      operation it got; one that replays succeeds exactly if that operation is completed. */
  lemma BeginningOutcome(world: World, i: StartInput, w: Weather)
    ensures
      var base := Tick(world.db);
      var p := BeginParams(w.freshId, i.session, i.key, i.hash, base.now);
      var r := BeginStartOperation(base, p).1;
      var (begun, q) := ActStart(world, i, Beginning, w);
      var (replayed, z) := ActStart(world, i, Replaying, w);
      && begun == replayed
      && (if w.clock then Commits(world, begun, base, BeginTx(p), w) else begun == world)
      && q == (if w.clock && w.fault.Delivered? && r.Ok? then ContinueOperation(r.value) else StartRefused)
      && z == if w.clock && w.fault.Delivered? && r.Ok? && r.value.row.status == Completed then StartOk(r.value.id)
              else StartRefused
  {
    hide BeginStartOperation, ContinueOperation;
  }

  /** A launch is judged by the snapshot it returns; without one the runtime is asked for once more, and then the
      start gives up. Neither touches the database. */
  lemma LaunchingOutcome(world: World, i: StartInput, op: Id, w: Weather)
    ensures
      var heard := w.fault.Delivered? && w.snapshot.Some?;
      var (up, q) := ActStart(world, i, Launching(op), w);
      var (same, z) := ActStart(world, i, Reconciling(op), w);
      && up == world.(live := RealtimeStart(world.live, i.session, op, world.db.now, w.takesEffect)) && same == world
      && q == (if heard then ContinueOwnedRuntime(i, op, w.snapshot.value, false) else Reconciling(op))
      && z == if heard then ContinueOwnedRuntime(i, op, w.snapshot.value, true) else StartRefused
  {
    hide ContinueOwnedRuntime, RealtimeStart;
  }

  /** An activation that is not known to have succeeded is followed by an attempt to claim the cleanup. */
  lemma ActivatingOutcome(world: World, i: StartInput, op: Id, w: Weather)
    ensures
      var base := Tick(world.db);
      var p := ActivateParams(i.session, op, i.key, i.hash, base.now);
      var (after, q) := ActStart(world, i, Activating(op), w);
      && (if w.clock then Commits(world, after, base, ActivateTx(p), w) else after == world)
      && q == if w.clock && w.fault.Delivered? && TransitionToActive(base, p).1.Ok? then StartOk(op)
              else Claiming(op, i.trace)
  {
    hide TransitionToActive;
  }

  /** Only a granted claim leads to cleaning up; a denial leads to looking again, anything else gives up. */
  lemma ClaimingOutcome(world: World, i: StartInput, op: Id, claim: Id, w: Weather)
    ensures
      var base := Tick(world.db);
      var p := ClaimParams(i.session, op, claim, base.now);
      var r := ClaimStartCompensation(base, p).1;
      var heard := w.clock && w.fault.Delivered? && r.Ok?;
      var (after, q) := ActStart(world, i, Claiming(op, claim), w);
      && (if w.clock then Commits(world, after, base, ClaimTx(p), w) else after == world)
      && (q == Cleaning(op, claim) <==> heard && r.value == Granted)
      && (q == Denied <==> heard && r.value != Granted)
      && (q == StartRefused <==> !heard)
  {
    hide ClaimStartCompensation;
  }

  /** Cleaning up stops the runtime, and records it as complete exactly if the stop was confirmed. Either way
      the start has failed. */
  lemma CleaningOutcome(world: World, i: StartInput, op: Id, claim: Id, w: Weather)
    ensures
      var (after, q) := ActStart(world, i, Cleaning(op, claim), w);
      && after == world.(live := RealtimeStop(world.live, i.session, w))
      && q == if StopConfirmed(w.snapshot, i.session) && w.fault.Delivered? then Cleaned(op, claim)
              else Uncleaned(op, claim)
    ensures
      var base := Tick(world.db);
      var p := ClaimParams(i.session, op, claim, base.now);
      var (cleaned, q) := ActStart(world, i, Cleaned(op, claim), w);
      var (uncleaned, z) := ActStart(world, i, Uncleaned(op, claim), w);
      && q == z == StartRefused
      && (if w.clock then Commits(world, cleaned, base, FinishTx(p, true), w) else cleaned == world)
      && (if w.clock then Commits(world, uncleaned, base, FinishTx(p, false), w) else uncleaned == world)
  {
    hide FinishStartCompensation, RealtimeStop, StopConfirmed;
  }

  // ----- end

  /** The intent of an end: made or leased for at least one unit from now, under the request's own name. The end
      goes on from the state the session was read in, if its intent is its own and still open. */
  lemma SavingOutcome(world: World, e: EndInput, status: Status, w: Weather)
    ensures
      var read := w.fault.Delivered? && e.session in world.db.sessions;
      ActEnd(world, e, EndReading, w) ==
        (world, if read then Saving(world.db.sessions[e.session].status) else EndRefused)
    ensures
      var base := Tick(world.db);
      var p := IntentParams(e.session, e.reason, e.key, e.hash, e.trace, base.now, "request:" + e.trace,
                            base.now + w.lease + 1);
      var r := SaveEndIntent(base, p).1;
      var own := w.clock && w.fault.Delivered? && r.Ok? && r.value.reason == e.reason;
      var (after, q) := ActEnd(world, e, Saving(status), w);
      && (if w.clock then Commits(world, after, base, SaveEndTx(p), w) else after == world)
      && (q == EndOk <==> own && r.value.completedAt.Some?)
      && (q == EndRefused <==> !own || (r.value.completedAt.None? && !w.ready))
      && (own && r.value.completedAt.None? && w.ready ==>
            q == if status == Created then EndingCreated else if status == Active then StoppingActive
                 else CompletingIntent)
  {
    hide SaveEndIntent;
  }

  /** An active session is ended only after its runtime's stop was confirmed, at the time of the stop. */
  lemma StoppingOutcome(world: World, e: EndInput, w: Weather)
    ensures
      var base := Tick(world.db);
      var (after, q) := ActEnd(world, e, StoppingActive, w);
      && (w.clock ==> after == world.(db := base, live := RealtimeStop(world.live, e.session, w)))
      && (!w.clock ==> after == world)
      && q == if w.clock && StopConfirmed(w.snapshot, e.session) && w.fault.Delivered? then EndingActive(base.now)
              else ReleasingIntent
  {
    hide RealtimeStop, StopConfirmed;
  }

  /** Each later step of an end runs its transaction and goes on only if that is known to have succeeded; failing
      that the intent is given back for an immediate retry and the end fails. */
  lemma EndingOutcome(world: World, e: EndInput, at: Time, w: Weather)
    ensures
      var base := Tick(world.db);
      var p := EndParams(e.session, Created, e.reason, base.now);
      var (after, q) := ActEnd(world, e, EndingCreated, w);
      && (if w.clock then Commits(world, after, base, EndTx(p), w) else after == world)
      && q == if w.clock && w.fault.Delivered? && TransitionToEnded(base, p).1.Ok? then CompletingIntent
              else ReleasingIntent
    ensures
      var p := EndParams(e.session, Active, e.reason, at);
      var (after, q) := ActEnd(world, e, EndingActive(at), w);
      && Commits(world, after, world.db, EndTx(p), w)
      && q == if w.fault.Delivered? && TransitionToEnded(world.db, p).1.Ok? then CompletingIntent else ReleasingIntent
    ensures
      var base := Tick(world.db);
      var (after, q) := ActEnd(world, e, CompletingIntent, w);
      && (if w.clock then Commits(world, after, base, CompleteEndTx(e.session, base.now), w) else after == world)
      && q == if w.clock && w.fault.Delivered? && CompleteEndIntent(base, e.session, base.now).1.Ok? then EndOk
              else ReleasingIntent
    ensures
      var (after, q) := ActEnd(world, e, ReleasingIntent, w);
      && Commits(world, after, world.db, RetryTx(RetryParams(e.session, "request:" + e.trace, w.errorText, 0)), w)
      && q == EndRefused
  {
    hide TransitionToEnded, CompleteEndIntent, RetryClaimedEndIntent;
  }

  // ----- recovery

  /** A scan leases some intent for at least one unit from now and waits for its session's lock, for the reason
      the intent gives; with nothing leased, or not ready, the worker is done. */
  lemma ScanOutcome(world: World, worker: Id, w: Weather)
    ensures
      var base := Tick(world.db);
      var p := LeaseParams(worker, base.now, base.now + w.lease + 1);
      var r := ClaimPendingEndIntent(base, p, w.pick).1;
      var leased := w.clock && w.fault.Delivered? && r.Ok? && r.value.Some? && w.ready;
      var (after, call) := Scan(world, worker, w);
      && (if w.clock then Commits(world, after, base, LeaseTx(p, w.pick), w) else after == world)
      && call == if leased then Worker(worker, w.pick, r.value.value.reason, WorkerWaiting)
                 else Worker(worker, "", "", WorkerDone)
  {
    hide ClaimPendingEndIntent;
  }

  /** A worker reads its session again: terminal ones need only their intent completed. */
  lemma WorkerReadingOutcome(world: World, worker: Id, s: Id, reason: Id, w: Weather)
    ensures
      var read := w.fault.Delivered? && s in world.db.sessions;
      var (after, q) := ActWorker(world, worker, s, reason, WorkerReading, w);
      && after == world
      && (q == RecoveringCreated <==> read && world.db.sessions[s].status == Created)
      && (q == RecoveringStop <==> read && world.db.sessions[s].status == Active)
      && (q == CompletingClaim <==> read && Terminal(world.db.sessions[s].status))
      && (q == RetryingClaim <==> !read)
    ensures
      var over := w.fault.Delivered? && s in world.db.sessions && Terminal(world.db.sessions[s].status);
      ActWorker(world, worker, s, reason, RereadingEnd, w) == (world, if over then CompletingClaim else RetryingClaim)
  {
  }

  /** Where an attempt to end the session leads: on, or to a second look if somebody else was faster, or to a
      retry. */
  lemma RecoveringOutcome(world: World, worker: Id, s: Id, reason: Id, at: Time, w: Weather)
    ensures
      var base := Tick(world.db);
      var p := EndParams(s, Created, reason, base.now);
      var r := TransitionToEnded(base, p).1;
      var heard := w.clock && w.fault.Delivered?;
      var (after, q) := ActWorker(world, worker, s, reason, RecoveringCreated, w);
      && (if w.clock then Commits(world, after, base, EndTx(p), w) else after == world)
      && (q == CompletingClaim <==> heard && r.Ok?) && (q == RereadingEnd <==> heard && r == Err(ConcurrentTransition))
      && (q == RetryingClaim <==> !heard || (r.Err? && r.error != ConcurrentTransition))
    ensures
      var p := EndParams(s, Active, reason, at);
      var r := TransitionToEnded(world.db, p).1;
      var heard := w.fault.Delivered?;
      var (after, q) := ActWorker(world, worker, s, reason, RecoveringActive(at), w);
      && Commits(world, after, world.db, EndTx(p), w)
      && (q == CompletingClaim <==> heard && r.Ok?) && (q == RereadingEnd <==> heard && r == Err(ConcurrentTransition))
      && (q == RetryingClaim <==> !heard || (r.Err? && r.error != ConcurrentTransition))
    ensures
      var base := Tick(world.db);
      var (after, q) := ActWorker(world, worker, s, reason, RecoveringStop, w);
      && (w.clock ==> after == world.(db := base, live := RealtimeStop(world.live, s, w)))
      && (!w.clock ==> after == world)
      && q == if w.clock && StopConfirmed(w.snapshot, s) && w.fault.Delivered? then RecoveringActive(base.now)
              else RetryingClaim
  {
    hide TransitionToEnded, RealtimeStop, StopConfirmed;
  }

  /** A worker is done when its intent is completed or its retry was sent. */
  lemma WorkerEndOutcome(world: World, worker: Id, s: Id, reason: Id, w: Weather)
    ensures
      var base := Tick(world.db);
      var p := FinishIntentParams(s, worker, base.now);
      var (after, q) := ActWorker(world, worker, s, reason, CompletingClaim, w);
      && (if w.clock then Commits(world, after, base, CompleteClaimedTx(p), w) else after == world)
      && q == if w.clock && w.fault.Delivered? && CompleteClaimedEndIntent(base, p).1.Ok? then WorkerDone
              else RetryingClaim
    ensures
      var (after, q) := ActWorker(world, worker, s, reason, RetryingClaim, w);
      && Commits(world, after, world.db, RetryTx(RetryParams(s, worker, w.errorText, w.retryAfter)), w)
      && q == WorkerDone
  {
    hide CompleteClaimedEndIntent, RetryClaimedEndIntent;
  }

  // ----- failure reports

  /** A report is recorded exactly if its session is read as active. */
  lemma ReportOutcome(world: World, s: Id, at: Time, w: Weather)
    ensures
      var active := w.fault.Delivered? && s in world.db.sessions && world.db.sessions[s].status == Active;
      ActFailure(world, s, at, FailureReading, w) == (world, if active then Recording else FailureDone)
    ensures
      var (after, q) := ActFailure(world, s, at, Recording, w);
      && Commits(world, after, world.db, FailTx(FailParams(s, Active, w.errorText, at)), w)
      && q == FailureDone
  {
    hide TransitionToFailed;
  }

  // ----- the lock

  /** A waiting call gets its session's lock exactly if no call on that session has it, and starts by reading; one
      that gives up instead has failed, except that a worker still records its retry. */
  lemma AcquireOutcome(m: Machine, c: nat)
    requires c in m.calls && Waiting(m.calls[c])
    ensures
      var s := Subject(m.calls[c]);
      var y := Next(m, Acquire(c));
      && y.world == m.world && y.calls.Keys == m.calls.Keys && Subject(y.calls[c]) == s
      && (HoldsLock(y.calls[c]) <==> forall d :: d in m.calls && Subject(m.calls[d]) == s ==> !HoldsLock(m.calls[d]))
      && (!HoldsLock(y.calls[c]) ==> y == m)
      && (forall d :: d in m.calls && d != c ==> y.calls[d] == m.calls[d])
    ensures
      var y := Next(m, GiveUp(c));
      && y.world == m.world && y.calls.Keys == m.calls.Keys && !HoldsLock(y.calls[c]) && !Waiting(y.calls[c])
      && (Returned(y.calls[c]) <==> !m.calls[c].Worker?)
      && (forall d :: d in m.calls && d != c ==> y.calls[d] == m.calls[d])
  {
  }
}

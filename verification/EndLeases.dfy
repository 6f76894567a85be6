/** Attempt windows on end intents. An attempt measures its start, is granted a lease by the database,
    and then works inside a window cut to what is left of the lease on its own clock. Database and
    attempts read clocks that run at the same rate, so one clock stands for both. */
module EndLeases {
  import opened Wrappers
  import opened SessionRows
  import opened SessionTransactions
  import opened SessionHistory

  // ----- who may settle an intent

  /** A retry is recorded exactly for the current owner of an unexpired lease on an open intent. */
  lemma RetryTakesEffectIff(db: Db, p: RetryParams)
    requires p.session != "" && p.worker != "" && p.lastError != ""
    ensures RetryClaimedEndIntent(db, p).1.Ok? <==> HoldsLease(db, p.session, p.worker)
    ensures RetryClaimedEndIntent(db, p).0 != db <==> HoldsLease(db, p.session, p.worker)
    ensures HoldsLease(db, p.session, p.worker) ==>
              var row := RetryClaimedEndIntent(db, p).0.intents[p.session];
              && row.owner.None? && row.lease.None? && row.completedAt.None?
              && row.retryCount == db.intents[p.session].retryCount + 1
              && row.nextAttemptAt == db.now + p.retryAfter
              && RetryClaimedEndIntent(db, p).0 == db.(intents := db.intents[p.session := row])
  {
    if HoldsLease(db, p.session, p.worker) {
      assert RetryClaimedEndIntent(db, p).0.intents[p.session].owner != db.intents[p.session].owner;
    }
  }

  /** A worker completes an intent exactly when it owns its unexpired lease and the session is over. */
  lemma CompletionTakesEffectIff(db: Db, p: FinishIntentParams)
    requires p.session != "" && p.worker != "" && p.at != 0
    requires p.session in db.sessions && p.session in db.intents && db.intents[p.session].requestedAt <= p.at
    ensures CompleteClaimedEndIntent(db, p).0 != db <==>
              Terminal(db.sessions[p.session].status) && HoldsLease(db, p.session, p.worker)
    ensures Terminal(db.sessions[p.session].status) && HoldsLease(db, p.session, p.worker) ==>
              var row := CompleteClaimedEndIntent(db, p).0.intents[p.session];
              && row.completedAt == Some(p.at) && row.owner.None? && row.lease.None?
              && CompleteClaimedEndIntent(db, p).0 == db.(intents := db.intents[p.session := row])
  {
    if Terminal(db.sessions[p.session].status) && HoldsLease(db, p.session, p.worker) {
      assert CompleteClaimedEndIntent(db, p).0.intents[p.session].owner != db.intents[p.session].owner;
    }
  }

  /** A completed intent is frozen, in every run, with no owner and no lease. */
  lemma CompletedIsFrozen(db: Db, txs: seq<Tx>, s: Id)
    requires DbInv(db)
    requires s in db.intents && db.intents[s].completedAt.Some?
    ensures s in Run(db, txs).intents && Run(db, txs).intents[s] == db.intents[s]
    ensures Run(db, txs).intents[s].owner.None? && Run(db, txs).intents[s].lease.None?
  {
    RunEvolves(db, txs);
  }

  // ----- attempts

  // `since` is when the attempt read its own clock; `until` is when its context expires.
  datatype Phase =
    | Measured
    | Granted(session: Id, grantedAt: Time)
    | Open(session: Id, grantedAt: Time, until: Time)
    | Closed(session: Id)

  datatype Attempt = Attempt(owner: Id, duration: nat, timeout: nat, since: Time, phase: Phase)

  predicate HasGrant(a: Attempt) {
    a.phase.Granted? || a.phase.Open?
  }

  /** The lease budget the attempt measured for itself has not run out. */
  predicate InBudget(a: Attempt, now: Time) {
    HasGrant(a) && now < a.since + a.duration
  }

  /** The attempt may act on its session right now. */
  predicate InWindow(a: Attempt, now: Time) {
    a.phase.Open? && now < a.phase.until
  }

  datatype Scene = Scene(db: Db, attempts: map<nat, Attempt>)

  datatype Step =
    | Measure(a: nat, owner: Id, duration: nat, timeout: nat)
    | GrantRequest(a: nat, request: IntentParams)
    | GrantWorker(a: nat, claimedAt: Time, pick: Id)
    | OpenWindow(a: nat)
    | CloseWindow(a: nat)
    | Retry(a: nat, lastError: Id, retryAfter: nat)
    | Leave(a: nat)
    | Elsewhere(tx: Tx)
    | Pass(elapsed: nat)

  /** Transactions that neither grant a lease nor give one up by name. */
  predicate KeepsGrants(tx: Tx) {
    !tx.SaveEndTx? && !tx.LeaseTx? && !tx.RetryTx? && !tx.TickTx?
  }

  ghost function Next(x: Scene, step: Step): Scene {
    match step
    case Measure(a, owner, duration, timeout) =>
      if a in x.attempts then x
      else x.(attempts := x.attempts[a := Attempt(owner, duration, timeout, x.db.now, Measured)])
    case GrantRequest(a, p) =>
      if a in x.attempts && x.attempts[a].phase.Measured? && p.owner == x.attempts[a].owner
         && p.leaseExpiresAt == p.requestedAt + x.attempts[a].duration then
        var (after, r) := SaveEndIntent(x.db, p);
        if r.Ok? && r.value.completedAt.None? && r.value.owner == Some(p.owner) then
          Scene(after, x.attempts[a := x.attempts[a].(phase := Phase.Granted(p.session, x.db.now))])
        else Scene(after, x.attempts - {a})
      else x
    case GrantWorker(a, claimedAt, pick) =>
      if a in x.attempts && x.attempts[a].phase.Measured? then
        var p := LeaseParams(x.attempts[a].owner, claimedAt, claimedAt + x.attempts[a].duration);
        var (after, r) := ClaimPendingEndIntent(x.db, p, pick);
        if r.Ok? && r.value.Some? then
          Scene(after, x.attempts[a := x.attempts[a].(phase := Phase.Granted(pick, x.db.now))])
        else Scene(after, x.attempts - {a})
      else x
    case OpenWindow(a) =>
      if a in x.attempts && x.attempts[a].phase.Granted? then
        var t := x.attempts[a];
        var remaining := t.duration - (x.db.now - t.since);
        if remaining <= 0 then x.(attempts := x.attempts - {a})
        else
          var until := x.db.now + if t.timeout < remaining then t.timeout else remaining;
          x.(attempts := x.attempts[a := t.(phase := Open(t.phase.session, t.phase.grantedAt, until))])
      else x
    case CloseWindow(a) =>
      if a in x.attempts && x.attempts[a].phase.Open? then
        x.(attempts := x.attempts[a := x.attempts[a].(phase := Closed(x.attempts[a].phase.session))])
      else x
    case Retry(a, lastError, retryAfter) =>
      if a in x.attempts && x.attempts[a].phase.Closed? then
        var p := RetryParams(x.attempts[a].phase.session, x.attempts[a].owner, lastError, retryAfter);
        Scene(RetryClaimedEndIntent(x.db, p).0, x.attempts - {a})
      else x
    case Leave(a) => x.(attempts := x.attempts - {a})
    case Elsewhere(tx) => if KeepsGrants(tx) then x.(db := Apply(x.db, tx)) else x
    case Pass(d) => x.(db := x.db.(now := x.db.now + d))
  }

  /** A granted attempt opens its window exactly while some of its budget is left, for its timeout or for what is
      left of the budget, whichever is shorter. */
  lemma OpenWindowOutcome(x: Scene, a: nat)
    requires a in x.attempts && x.attempts[a].phase.Granted?
    ensures
      var t := x.attempts[a];
      var end := t.since + t.duration;
      var y := Next(x, OpenWindow(a));
      && y.db == x.db && (a in y.attempts <==> x.db.now < end)
      && (forall b :: b != a ==> (b in y.attempts <==> b in x.attempts))
      && (forall b :: b in y.attempts && b != a ==> y.attempts[b] == x.attempts[b])
      && (a in y.attempts ==>
            && y.attempts[a].phase.Open? && y.attempts[a].phase.until <= end
            && y.attempts[a].phase.until <= x.db.now + t.timeout
            && (y.attempts[a].phase.until == end || y.attempts[a].phase.until == x.db.now + t.timeout)
            && y.attempts[a].phase.session == t.phase.session && y.attempts[a].phase.grantedAt == t.phase.grantedAt)
  {
  }

  ghost function RunScene(x: Scene, steps: seq<Step>): Scene
    decreases |steps|
  {
    if steps == [] then x else RunScene(Next(x, steps[0]), steps[1..])
  }

  /** No retry of the run is recorded under the name of another attempt that is still within its budget on
      the same session. */
  ghost predicate RetriesClear(x: Scene, steps: seq<Step>)
    decreases |steps|
  {
    steps == [] || (
      && (steps[0].Retry? ==> RetryClear(x, steps[0].a))
      && RetriesClear(Next(x, steps[0]), steps[1..]))
  }

  predicate RetryClear(x: Scene, a: nat) {
    a in x.attempts && x.attempts[a].phase.Closed? ==>
      forall b :: b in x.attempts && InBudget(x.attempts[b], x.db.now) ==>
        x.attempts[b].phase.session == x.attempts[a].phase.session ==> x.attempts[b].owner != x.attempts[a].owner
  }

  // ----- the invariant

  /** The database still records the attempt's own grant, or the intent was completed meanwhile. */
  ghost predicate Backed(db: Db, a: Attempt)
    requires HasGrant(a)
  {
    var s := a.phase.session;
    && s in db.intents
    && a.since <= a.phase.grantedAt <= db.now
    && (db.intents[s].completedAt.None? ==>
          db.intents[s].owner == Some(a.owner) && db.intents[s].lease == Some(a.phase.grantedAt + a.duration))
  }

  ghost predicate OneInBudget(attempts: map<nat, Attempt>, now: Time) {
    forall a, b ::
      (&& a in attempts && b in attempts && InBudget(attempts[a], now) && InBudget(attempts[b], now)
       && attempts[a].phase.session == attempts[b].phase.session)
      ==> a == b
  }

  ghost predicate AllBacked(db: Db, attempts: map<nat, Attempt>) {
    forall a :: a in attempts && InBudget(attempts[a], db.now) ==> Backed(db, attempts[a])
  }

  predicate WellTimed(a: Attempt, now: Time) {
    a.since <= now && (a.phase.Open? ==> a.phase.until <= a.since + a.duration)
  }

  ghost predicate SceneInv(x: Scene) {
    && (forall a :: a in x.attempts ==> WellTimed(x.attempts[a], x.db.now))
    && AllBacked(x.db, x.attempts)
    && OneInBudget(x.attempts, x.db.now)
  }

  /** While an attempt is within its budget, nobody else can be granted its intent. */
  lemma BudgetBlocksGrants(db: Db, a: Attempt)
    requires InBudget(a, db.now) && Backed(db, a)
    ensures !Due(db, a.phase.session)
    ensures forall p: IntentParams :: p.session == a.phase.session ==> SaveEndIntent(db, p).0 == db
    ensures forall p: IntentParams :: p.session == a.phase.session && SaveEndIntent(db, p).1.Ok? ==>
              SaveEndIntent(db, p).1.value.completedAt.Some?
  {
  }

  lemma GrantRequestKeeps(x: Scene, a: nat, p: IntentParams)
    requires SceneInv(x)
    ensures SceneInv(Next(x, GrantRequest(a, p)))
  {
    forall b | b in x.attempts && InBudget(x.attempts[b], x.db.now) {
      BudgetBlocksGrants(x.db, x.attempts[b]);
    }
    SavedFacts(x.db, p);
    hide SaveEndIntent;
  }

  lemma SavedFacts(db: Db, p: IntentParams)
    ensures
      var (after, r) := SaveEndIntent(db, p);
      && after.now == db.now
      && (after == db || (after == db.(intents := after.intents) && p.session in after.intents && r.Ok?
                          && after.intents == db.intents[p.session := after.intents[p.session]]))
      && (r.Ok? ==> p.session in after.intents && r.value == after.intents[p.session]
                    && p.requestedAt < p.leaseExpiresAt)
      && (r.Ok? && r.value.completedAt.None? ==>
            r.value.owner == Some(p.owner) && r.value.lease == Some(db.now + (p.leaseExpiresAt - p.requestedAt)))
  {
  }

  lemma LeasedFacts(db: Db, p: LeaseParams, pick: Id)
    ensures
      var (after, r) := ClaimPendingEndIntent(db, p, pick);
      && after.now == db.now
      && (after == db || (r.Ok? && r.value.Some?))
      && (r.Ok? && r.value.Some? ==>
            && Due(db, pick) && p.claimedAt <= p.leaseExpiresAt
            && after == db.(intents := after.intents) && pick in after.intents
            && after.intents == db.intents[pick := after.intents[pick]]
            && after.intents[pick].owner == Some(p.worker)
            && after.intents[pick].lease == Some(db.now + (p.leaseExpiresAt - p.claimedAt)))
  {
  }

  lemma GrantWorkerKeeps(x: Scene, a: nat, claimedAt: Time, pick: Id)
    requires SceneInv(x)
    ensures SceneInv(Next(x, GrantWorker(a, claimedAt, pick)))
  {
    forall b | b in x.attempts && InBudget(x.attempts[b], x.db.now) {
      BudgetBlocksGrants(x.db, x.attempts[b]);
    }
    if a in x.attempts {
      LeasedFacts(x.db, LeaseParams(x.attempts[a].owner, claimedAt, claimedAt + x.attempts[a].duration), pick);
    }
    hide ClaimPendingEndIntent, Due;
  }

  lemma RetryKeepsScene(x: Scene, a: nat, lastError: Id, retryAfter: nat)
    requires SceneInv(x) && RetryClear(x, a)
    ensures SceneInv(Next(x, Retry(a, lastError, retryAfter)))
  {
  }

  lemma ElsewhereBacked(db: Db, tx: Tx, a: Attempt)
    requires KeepsGrants(tx)
    requires HasGrant(a) && Backed(db, a)
    ensures Backed(Apply(db, tx), a)
  {
  }

  lemma ElsewhereTime(db: Db, tx: Tx)
    requires KeepsGrants(tx)
    ensures Apply(db, tx).now == db.now
  {
  }

  lemma ElsewhereKeeps(x: Scene, tx: Tx)
    requires SceneInv(x)
    ensures SceneInv(Next(x, Elsewhere(tx)))
  {
    if KeepsGrants(tx) {
      ElsewhereTime(x.db, tx);
      forall a | a in x.attempts && InBudget(x.attempts[a], x.db.now) {
        ElsewhereBacked(x.db, tx, x.attempts[a]);
      }
    }
    hide Apply;
  }

  lemma MeasureKeeps(x: Scene, a: nat, owner: Id, duration: nat, timeout: nat)
    requires SceneInv(x)
    ensures SceneInv(Next(x, Measure(a, owner, duration, timeout)))
  {
  }

  lemma OpenKeeps(x: Scene, a: nat)
    requires SceneInv(x)
    ensures SceneInv(Next(x, OpenWindow(a)))
  {
  }

  lemma CloseKeeps(x: Scene, a: nat)
    requires SceneInv(x)
    ensures SceneInv(Next(x, CloseWindow(a)))
  {
  }

  lemma PassKeeps(x: Scene, d: nat)
    requires SceneInv(x)
    ensures SceneInv(Next(x, Pass(d)))
  {
  }

  lemma SceneStepKeeps(x: Scene, step: Step)
    requires SceneInv(x)
    requires step.Retry? ==> RetryClear(x, step.a)
    ensures SceneInv(Next(x, step))
  {
    hide SceneInv, Next;
    match step
    case Measure(a, owner, duration, timeout) => MeasureKeeps(x, a, owner, duration, timeout);
    case GrantRequest(a, p) => GrantRequestKeeps(x, a, p);
    case GrantWorker(a, c, pick) => GrantWorkerKeeps(x, a, c, pick);
    case OpenWindow(a) => OpenKeeps(x, a);
    case CloseWindow(a) => CloseKeeps(x, a);
    case Retry(a, e, d) => RetryKeepsScene(x, a, e, d);
    case Leave(a) => LeaveKeeps(x, a);
    case Elsewhere(tx) => ElsewhereKeeps(x, tx);
    case Pass(d) => PassKeeps(x, d);
  }

  lemma LeaveKeeps(x: Scene, a: nat)
    requires SceneInv(x)
    ensures SceneInv(Next(x, Leave(a)))
  {
  }

  lemma {:induction false} SceneRunKeeps(x: Scene, steps: seq<Step>)
    requires SceneInv(x)
    requires RetriesClear(x, steps)
    ensures SceneInv(RunScene(x, steps))
    decreases |steps|
  {
    hide SceneInv, Next, RetryClear;
    if steps != [] {
      SceneStepKeeps(x, steps[0]);
      SceneRunKeeps(Next(x, steps[0]), steps[1..]);
    }
  }

  /** Attempt windows on one end intent never overlap: in every run over any database, with requests,
      workers and all other transactions interleaving, two attempts that may act on the same session at
      the same moment are the same attempt, and it owns the lease unless the intent is already complete. No
      retry may come under the name of another attempt within its budget there. */
  lemma WindowsNeverOverlap(db: Db, steps: seq<Step>, a: nat, b: nat)
    requires RetriesClear(Scene(db, map[]), steps)
    requires
      var x := RunScene(Scene(db, map[]), steps);
      && a in x.attempts && b in x.attempts
      && InWindow(x.attempts[a], x.db.now) && InWindow(x.attempts[b], x.db.now)
      && x.attempts[a].phase.session == x.attempts[b].phase.session
    ensures a == b
    ensures
      var x := RunScene(Scene(db, map[]), steps);
      var s := x.attempts[a].phase.session;
      s in x.db.intents && (x.db.intents[s].completedAt.Some? || HoldsLease(x.db, s, x.attempts[a].owner))
  {
    SceneRunKeeps(Scene(db, map[]), steps);
  }

  // ----- where names matter

  predicate On(a: Attempt, s: Id) {
    !a.phase.Measured? && a.phase.session == s
  }

  /** Nobody else on the session bears the name of attempt `a`. */
  predicate NameFreeOn(attempts: map<nat, Attempt>, a: nat, s: Id) {
    a in attempts ==>
      forall b :: b in attempts && b != a && On(attempts[b], s) ==> attempts[b].owner != attempts[a].owner
  }

  ghost predicate NamesDistinctOnSessions(attempts: map<nat, Attempt>) {
    forall a :: a in attempts && !attempts[a].phase.Measured? ==> NameFreeOn(attempts, a, attempts[a].phase.session)
  }

  /** Attempts take up a session only under a name nobody has there; elsewhere names may be shared. */
  ghost predicate NamesDistinct(x: Scene, steps: seq<Step>)
    decreases |steps|
  {
    steps == [] || (
      && (steps[0].GrantRequest? ==> NameFreeOn(x.attempts, steps[0].a, steps[0].request.session))
      && (steps[0].GrantWorker? ==> NameFreeOn(x.attempts, steps[0].a, steps[0].pick))
      && NamesDistinct(Next(x, steps[0]), steps[1..]))
  }

  lemma StepNamesDistinct(x: Scene, step: Step)
    requires NamesDistinctOnSessions(x.attempts)
    requires step.GrantRequest? ==> NameFreeOn(x.attempts, step.a, step.request.session)
    requires step.GrantWorker? ==> NameFreeOn(x.attempts, step.a, step.pick)
    ensures NamesDistinctOnSessions(Next(x, step).attempts)
  {
    hide SaveEndIntent, ClaimPendingEndIntent, RetryClaimedEndIntent, Apply;
  }

  lemma DistinctRetryIsClear(x: Scene, a: nat)
    requires NamesDistinctOnSessions(x.attempts)
    ensures RetryClear(x, a)
  {
    if a in x.attempts && x.attempts[a].phase.Closed? {
      assert NameFreeOn(x.attempts, a, x.attempts[a].phase.session);
    }
  }

  /** Owner names that differ on each session, in every run, keep all retries clear of one another. */
  lemma {:induction false} DistinctNamesAreClear(x: Scene, steps: seq<Step>)
    requires NamesDistinctOnSessions(x.attempts) && NamesDistinct(x, steps)
    ensures RetriesClear(x, steps)
    decreases |steps|
  {
    hide NamesDistinctOnSessions, NameFreeOn, RetryClear, Next;
    if steps != [] {
      StepNamesDistinct(x, steps[0]);
      if steps[0].Retry? {
        DistinctRetryIsClear(x, steps[0].a);
      }
      DistinctNamesAreClear(Next(x, steps[0]), steps[1..]);
    }
  }

  /** Recording a retry takes a live attempt's grant away exactly when it comes under the same owner name
      and the intent is still open: the database tells owners apart by name only. */
  lemma RetryRevokesIff(db: Db, a: Attempt, p: RetryParams)
    requires InBudget(a, db.now) && Backed(db, a)
    requires p.session == a.phase.session
    requires p.session != "" && p.worker != "" && p.lastError != ""
    ensures Backed(RetryClaimedEndIntent(db, p).0, a) <==>
              p.worker != a.owner || db.intents[p.session].completedAt.Some?
  {
  }

  function OpenIntent(owner: Option<Id>, lease: Option<Time>, retries: nat, next: Time): EndIntent {
    EndIntent("acct", "user_requested", "k", "h", "trace", 1, None,
              retries, if retries == 0 then None else Some("late"),
              next, owner, lease)
  }

  /** An end request that arrives at time `at` and asks for ten units. */
  function Asking(at: Time): IntentParams {
    IntentParams("s", "user_requested", "k", "h", "trace", at, "request:trace", at + 10)
  }

  function OneSession(now: Time, intent: EndIntent): Db {
    Db(map["s" := Session("acct", Created, 1, None, None)], map[], map["s" := intent], now)
  }

  lemma FirstRequestLeaves(x: Scene)
    requires x.db == Db(map["s" := Session("acct", Created, 1, None, None)], map[], map[], 1) && x.attempts == map[]
    ensures RunScene(x, [Measure(0, "request:trace", 10, 5),
                         GrantRequest(0, Asking(1)),
                         OpenWindow(0), CloseWindow(0)])
         == Scene(OneSession(1, OpenIntent(Some("request:trace"), Some(11), 0, 1)),
                  map[0 := Attempt("request:trace", 10, 5, 1, Closed("s"))])
  {
    var p := Asking(1);
    var saved := OneSession(1, OpenIntent(Some("request:trace"), Some(11), 0, 1));
    assert !HasUnresolved(x.db, "s") && !IntentKeyUsed(x.db, "acct", "k");
    assert SaveEndIntent(x.db, p) == (saved, Ok(saved.intents["s"]));
    hide SaveEndIntent;
    var attempt := Attempt("request:trace", 10, 5, 1, Measured);
    var x1 := Scene(x.db, map[0 := attempt]);
    var x2 := Scene(saved, map[0 := attempt.(phase := Phase.Granted("s", 1))]);
    var x3 := Scene(saved, map[0 := attempt.(phase := Open("s", 1, 6))]);
    assert Next(x, Measure(0, "request:trace", 10, 5)) == x1;
    assert Next(x1, GrantRequest(0, p)) == x2;
    assert Next(x2, OpenWindow(0)) == x3;
    assert Next(x3, CloseWindow(0)) == Scene(saved, map[0 := attempt.(phase := Closed("s"))]);
    FourSteps(x, Measure(0, "request:trace", 10, 5), GrantRequest(0, p), OpenWindow(0), CloseWindow(0));
  }

  lemma FourSteps(x: Scene, a: Step, b: Step, c: Step, d: Step)
    ensures RunScene(x, [a, b, c, d]) == Next(Next(Next(Next(x, a), b), c), d)
  {
    hide Next;
    assert [a, b, c, d][1..] == [b, c, d] && [b, c, d][1..] == [c, d] && [c, d][1..] == [d] && [d][1..] == [];
    var y := Next(Next(Next(x, a), b), c);
    assert RunScene(y, [d]) == Next(y, d);
    assert RunScene(Next(Next(x, a), b), [c, d]) == RunScene(y, [d]);
  }

  lemma SecondRequestOpens(x: Scene)
    requires x == Scene(OneSession(1, OpenIntent(Some("request:trace"), Some(11), 0, 1)),
                        map[0 := Attempt("request:trace", 10, 5, 1, Closed("s"))])
    ensures RunScene(x, [Pass(10), Measure(1, "request:trace", 10, 5),
                         GrantRequest(1, Asking(11)),
                         OpenWindow(1)])
         == Scene(OneSession(11, OpenIntent(Some("request:trace"), Some(21), 0, 1)),
                  map[0 := Attempt("request:trace", 10, 5, 1, Closed("s")),
                      1 := Attempt("request:trace", 10, 5, 11, Open("s", 11, 16))])
  {
    var p := Asking(11);
    var later := OneSession(11, OpenIntent(Some("request:trace"), Some(11), 0, 1));
    assert SaveEndIntent(later, p).0 == OneSession(11, OpenIntent(Some("request:trace"), Some(21), 0, 1));
  }

  lemma LateRetryRevokes(x: Scene)
    requires x == Scene(OneSession(11, OpenIntent(Some("request:trace"), Some(21), 0, 1)),
                        map[0 := Attempt("request:trace", 10, 5, 1, Closed("s")),
                            1 := Attempt("request:trace", 10, 5, 11, Open("s", 11, 16))])
    ensures RunScene(x, [Retry(0, "late", 0), Measure(2, "worker", 10, 5), GrantWorker(2, 1, "s"), OpenWindow(2)])
         == Scene(OneSession(11, OpenIntent(Some("worker"), Some(21), 1, 11)),
                  map[1 := Attempt("request:trace", 10, 5, 11, Open("s", 11, 16)),
                      2 := Attempt("worker", 10, 5, 11, Open("s", 11, 16))])
  {
    var released := OneSession(11, OpenIntent(None, None, 1, 11));
    assert RetryClaimedEndIntent(x.db, RetryParams("s", "request:trace", "late", 0)).0 == released;
    assert ClaimPendingEndIntent(released, LeaseParams("worker", 1, 11), "s").0
        == OneSession(11, OpenIntent(Some("worker"), Some(21), 1, 11));
  }

  lemma {:induction false} RunSceneAdds(x: Scene, first: seq<Step>, second: seq<Step>)
    ensures RunScene(x, first + second) == RunScene(RunScene(x, first), second)
    decreases |first|
  {
    hide Next;
    if first == [] {
      assert first + second == second;
    } else {
      assert (first + second)[1..] == first[1..] + second;
      RunSceneAdds(Next(x, first[0]), first[1..], second);
    }
  }

  /** Two end requests that carry the same trace id share the owner name built from it, so the late retry
      of the first releases the lease of the second, and a worker's window then overlaps it. */
  lemma SharedNamesOverlap(db: Db)
    requires db == Db(map["s" := Session("acct", Created, 1, None, None)], map[], map[], 1)
    ensures DbInv(db)
    ensures
      var steps := [
        Measure(0, "request:trace", 10, 5),
        GrantRequest(0, Asking(1)),
        OpenWindow(0), CloseWindow(0)] + [
        Pass(10), Measure(1, "request:trace", 10, 5),
        GrantRequest(1, Asking(11)),
        OpenWindow(1)] + [
        Retry(0, "late", 0), Measure(2, "worker", 10, 5), GrantWorker(2, 1, "s"), OpenWindow(2)];
      var x := RunScene(Scene(db, map[]), steps);
      && 1 in x.attempts && 2 in x.attempts
      && InWindow(x.attempts[1], x.db.now) && InWindow(x.attempts[2], x.db.now)
      && x.attempts[1].phase.session == x.attempts[2].phase.session
  {
    hide RunScene, Next, InWindow;
    OneSessionIsConsistent(db);
    hide DbInv;
    var a := [
      Measure(0, "request:trace", 10, 5),
      GrantRequest(0, Asking(1)),
      OpenWindow(0), CloseWindow(0)];
    var b := [
      Pass(10), Measure(1, "request:trace", 10, 5),
      GrantRequest(1, Asking(11)),
      OpenWindow(1)];
    var c := [Retry(0, "late", 0), Measure(2, "worker", 10, 5), GrantWorker(2, 1, "s"), OpenWindow(2)];
    var x := Scene(db, map[]);
    FirstRequestLeaves(x);
    SecondRequestOpens(RunScene(x, a));
    LateRetryRevokes(RunScene(RunScene(x, a), b));
    RunSceneAdds(x, a, b);
    RunSceneAdds(x, a + b, c);
    BothInWindow();
  }

  lemma OneSessionIsConsistent(db: Db)
    requires db == Db(map["s" := Session("acct", Created, 1, None, None)], map[], map[], 1)
    ensures DbInv(db)
  {
  }

  lemma BothInWindow()
    ensures InWindow(Attempt("request:trace", 10, 5, 11, Open("s", 11, 16)), 11)
    ensures InWindow(Attempt("worker", 10, 5, 11, Open("s", 11, 16)), 11)
  {
  }
}

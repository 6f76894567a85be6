/** The durable claim on one fallback playback: a lease with a token, renewed by a heartbeat, that ends
    accepted, aborted or taken over. */
module FallbackClaims {
  import opened Wrappers

  type Id = string

  type Time = int

  datatype Key = Key(session: Id, operation: Id)

  datatype Status = Processing | Accepted | Reclaimable

  datatype Row = Row(hash: Id, status: Status, startedAt: Option<Time>, token: Option<Id>)

  type Table = map<Key, Row>

  // Five minutes, in seconds.
  const LEASE: Time := 300

  datatype Claim = Claimed | InProgress | AlreadyAccepted

  datatype Error = PayloadConflict | NotClaimed | NotOwned | WrongStatus

  // ----- the statements

  predicate Expired(row: Row, at: Time) {
    row.startedAt.Some? && row.startedAt.value + LEASE <= at
  }

  /** One transaction, stamped `at`, which offers a freshly drawn token. */
  function ClaimRow(t: Table, k: Key, hash: Id, token: Id, at: Time): (Table, Result<Claim, Error>) {
    var mine := Row(hash, Processing, Some(at), Some(token));
    if k !in t then (t[k := mine], Ok(Claimed))
    else if t[k].hash != hash then (t, Err(PayloadConflict))
    else match t[k].status
      case Accepted => (t, Ok(AlreadyAccepted))
      case Reclaimable => (t[k := mine], Ok(Claimed))
      case Processing => if Expired(t[k], at) then (t[k := mine], Ok(Claimed)) else (t, Ok(InProgress))
  }

  /** The row is being processed under exactly this hash and token. */
  predicate Owns(t: Table, k: Key, hash: Id, token: Id) {
    k in t && t[k].hash == hash && t[k].status == Processing && t[k].token == Some(token)
  }

  function Renewed(t: Table, k: Key, hash: Id, token: Id, at: Time): Table {
    if Owns(t, k, hash, token) then t[k := t[k].(startedAt := Some(at))] else t
  }

  function Completed(t: Table, k: Key, hash: Id, token: Id): Table {
    if Owns(t, k, hash, token) then t[k := Row(hash, Accepted, None, None)] else t
  }

  function Aborted(t: Table, k: Key, hash: Id, token: Id): Table {
    if Owns(t, k, hash, token) then t - {k} else t
  }

  /** What a statement that changed no row finds when it looks again. */
  function Explain(t: Table, k: Key, hash: Id, token: Id): Error
    requires k in t
  {
    if t[k].hash != hash then PayloadConflict
    else if t[k].token != Some(token) then NotOwned
    else WrongStatus
  }

  predicate IsAccepted(t: Table, k: Key, hash: Id) {
    k in t && t[k].hash == hash && t[k].status == Accepted
  }

  /** The store as it works on its table. */
  class ReplayStore {
    var rows: Table

    constructor ()
      ensures rows == map[]
    {
      rows := map[];
    }

    /** Inserts, or locks and inspects the stored row. An expired claim is first marked reclaimable and
        then taken, inside the same transaction. */
    method Claim(k: Key, hash: Id, token: Id, now: Time) returns (r: Result<Claim, Error>)
      modifies this
      ensures (rows, r) == ClaimRow(old(rows), k, hash, token, now)
    {
      if k !in rows {
        rows := rows[k := Row(hash, Processing, Some(now), Some(token))];
        return Ok(Claimed);
      }
      var stored := rows[k];
      if stored.hash != hash { return Err(PayloadConflict); }
      match stored.status {
        case Accepted => return Ok(AlreadyAccepted);
        case Reclaimable =>
          rows := rows[k := stored.(status := Processing, startedAt := Some(now), token := Some(token))];
          return Ok(Claimed);
        case Processing =>
          if stored.startedAt.None? || now < stored.startedAt.value + LEASE { return Ok(InProgress); }
          rows := rows[k := stored.(status := Reclaimable, startedAt := None, token := None)];
          rows := rows[k := rows[k].(status := Processing, startedAt := Some(now), token := Some(token))];
          assert rows == old(rows)[k := Row(hash, Processing, Some(now), Some(token))];
          return Ok(Claimed);
      }
    }

    method Renew(k: Key, hash: Id, token: Id, now: Time) returns (r: Result<(), Error>)
      modifies this
      ensures rows == Renewed(old(rows), k, hash, token, now)
      ensures r.Ok? <==> Owns(old(rows), k, hash, token)
      ensures r.Err? ==> r.error == if k in rows then Explain(rows, k, hash, token) else NotClaimed
    {
      if k in rows && rows[k].hash == hash && rows[k].status == Processing && rows[k].token == Some(token) {
        rows := rows[k := rows[k].(startedAt := Some(now))];
        return Ok(());
      }
      if k !in rows { return Err(NotClaimed); }
      if rows[k].hash != hash { return Err(PayloadConflict); }
      if rows[k].token != Some(token) { return Err(NotOwned); }
      return Err(WrongStatus);
    }

    /** Succeeds for the owner, and for anybody whose operation is accepted already. */
    method Complete(k: Key, hash: Id, token: Id) returns (r: Result<(), Error>)
      modifies this
      ensures rows == Completed(old(rows), k, hash, token)
      ensures r.Ok? <==> IsAccepted(rows, k, hash)
      ensures r.Err? ==> r.error == if k in rows then Explain(rows, k, hash, token) else NotClaimed
    {
      if k in rows && rows[k].hash == hash && rows[k].status == Processing && rows[k].token == Some(token) {
        rows := rows[k := Row(hash, Accepted, None, None)];
        return Ok(());
      }
      if k !in rows { return Err(NotClaimed); }
      if rows[k].hash != hash { return Err(PayloadConflict); }
      if rows[k].status == Accepted { return Ok(()); }
      if rows[k].token != Some(token) { return Err(NotOwned); }
      return Err(WrongStatus);
    }

    /** A missing or accepted row is fine; a row with another token is never touched. */
    method Abort(k: Key, hash: Id, token: Id) returns (r: Result<(), Error>)
      modifies this
      ensures rows == Aborted(old(rows), k, hash, token)
      ensures r.Ok? <==> k !in rows || IsAccepted(rows, k, hash)
      ensures r.Err? ==> r.error == Explain(rows, k, hash, token)
    {
      if k in rows && rows[k].hash == hash && rows[k].status == Processing && rows[k].token == Some(token) {
        rows := rows - {k};
        return Ok(());
      }
      if k !in rows { return Ok(()); }
      if rows[k].hash != hash { return Err(PayloadConflict); }
      if rows[k].status == Accepted { return Ok(()); }
      if rows[k].token != Some(token) { return Err(NotOwned); }
      return Err(WrongStatus);
    }
  }

  // ----- requests that play a fallback

  // `stamp` is the time the claim was last taken or renewed at; `beating` tells whether the heartbeat
  // still runs without error. Checking: the completing statement changed nothing and looks again.
  datatype Phase =
    | Arriving
    | Playing(token: Id, stamp: Time, beating: bool)
    | Succeeded(token: Id) | Unstarted(token: Id) | Checking(token: Id)
    | Receipt(first: bool) | Refused

  datatype Request = Request(key: Key, hash: Id, phase: Phase)

  // `issued` are the tokens drawn so far.
  datatype World = World(rows: Table, now: Time, requests: map<nat, Request>, issued: set<Id>)

  datatype Playback = Done | NotStarted | Broken

  // `lag` is how long a transaction's timestamp is behind the clock; `lost` is a reply that never arrives.
  datatype Step =
    | Arrive(r: nat, key: Key, hash: Id)
    | TryClaim(r: nat, token: Id, lag: nat, lost: bool)
    | Beat(r: nat, lag: nat, lost: bool)
    | Play(r: nat, outcome: Playback)
    | TryComplete(r: nat, lost: bool)
    | Check(r: nat)
    | TryAbort(r: nat)
    | Crash(r: nat)
    | Pass(elapsed: nat)

  function Goto(x: World, r: nat, p: Phase): map<nat, Request>
    requires r in x.requests
  {
    x.requests[r := x.requests[r].(phase := p)]
  }

  /** Steps that are not enabled change nothing. */
  function Next(x: World, step: Step): World {
    match step
    case Arrive(r, k, hash) =>
      if r in x.requests then x else x.(requests := x.requests[r := Request(k, hash, Arriving)])
    case TryClaim(r, token, lag, lost) =>
      if r in x.requests && x.requests[r].phase == Arriving && token !in x.issued then
        var q := x.requests[r];
        var (rows, reply) := ClaimRow(x.rows, q.key, q.hash, token, x.now - lag);
        var p := if lost then Refused else match reply
                 case Err(_) => Refused
                 case Ok(c) =>
                   if c == Claimed then Playing(token, x.now - lag, true)
                   else if c == AlreadyAccepted then Receipt(false) else Refused;
        World(rows, x.now, Goto(x, r, p), x.issued + {token})
      else x
    case Beat(r, lag, lost) =>
      if r in x.requests && x.requests[r].phase.Playing? && x.requests[r].phase.beating then
        var q := x.requests[r];
        var rows := Renewed(x.rows, q.key, q.hash, q.phase.token, x.now - lag);
        var renewed := Owns(x.rows, q.key, q.hash, q.phase.token);
        x.(rows := rows,
           requests := Goto(x, r, q.phase.(stamp := if renewed then x.now - lag else q.phase.stamp,
                                           beating := renewed && !lost)))
      else x
    case Play(r, outcome) =>
      if r in x.requests && x.requests[r].phase.Playing? then
        var p := x.requests[r].phase;
        x.(requests := Goto(x, r, match outcome
                                  case Done => Succeeded(p.token)
                                  case NotStarted => if p.beating then Unstarted(p.token) else Refused
                                  case Broken => Refused))
      else x
    case TryComplete(r, lost) =>
      if r in x.requests && x.requests[r].phase.Succeeded? then
        var q := x.requests[r];
        x.(rows := Completed(x.rows, q.key, q.hash, q.phase.token),
           requests := Goto(x, r, if lost then Refused
                                  else if Owns(x.rows, q.key, q.hash, q.phase.token) then Receipt(true)
                                  else Checking(q.phase.token)))
      else x
    case Check(r) =>
      if r in x.requests && x.requests[r].phase.Checking? then
        var q := x.requests[r];
        x.(requests := Goto(x, r, if IsAccepted(x.rows, q.key, q.hash) then Receipt(true) else Refused))
      else x
    case TryAbort(r) =>
      if r in x.requests && x.requests[r].phase.Unstarted? then
        var q := x.requests[r];
        x.(rows := Aborted(x.rows, q.key, q.hash, q.phase.token), requests := Goto(x, r, Refused))
      else x
    case Crash(r) => x.(requests := x.requests - {r})
    case Pass(d) => x.(now := x.now + d)
  }

  function Run(x: World, steps: seq<Step>): World
    decreases |steps|
  {
    if steps == [] then x else Run(Next(x, steps[0]), steps[1..])
  }

  const Start := World(map[], 0, map[], {})

  // ----- the invariant

  predicate HasToken(p: Phase) {
    p.Playing? || p.Succeeded? || p.Unstarted? || p.Checking?
  }

  /** The request plays under a lease that has not run out. */
  predicate Live(x: World, r: nat) {
    r in x.requests && x.requests[r].phase.Playing? && x.now < x.requests[r].phase.stamp + LEASE
  }

  /** Rows as they are between transactions: never reclaimable, and a token exactly while processing. */
  ghost predicate RowsSettled(x: World) {
    forall k :: k in x.rows ==>
      && x.rows[k].status != Reclaimable
      && (x.rows[k].status == Processing <==> x.rows[k].token.Some?)
      && (x.rows[k].status == Processing <==> x.rows[k].startedAt.Some?)
      && (x.rows[k].token.Some? ==> x.rows[k].token.value in x.issued)
      && (x.rows[k].startedAt.Some? ==> x.rows[k].startedAt.value <= x.now)
  }

  ghost predicate RequestTokens(x: World) {
    && (forall r :: r in x.requests && HasToken(x.requests[r].phase) ==> x.requests[r].phase.token in x.issued)
    && (forall r, q ::
          (&& r in x.requests && q in x.requests && HasToken(x.requests[r].phase) && HasToken(x.requests[q].phase)
           && x.requests[r].phase.token == x.requests[q].phase.token)
          ==> r == q)
  }

  ghost predicate RowTokens(x: World) {
    forall j, k :: j in x.rows && k in x.rows && x.rows[j].token.Some? && x.rows[j].token == x.rows[k].token ==> j == k
  }

  ghost predicate OwnKeys(x: World) {
    forall r, k ::
      (&& r in x.requests && k in x.rows && HasToken(x.requests[r].phase)
       && x.rows[k].token == Some(x.requests[r].phase.token))
      ==> x.requests[r].key == k
  }

  ghost predicate TokensDistinct(x: World) {
    RequestTokens(x) && RowTokens(x) && OwnKeys(x)
  }

  ghost predicate LiveOwn(x: World) {
    forall r :: Live(x, r) ==>
      && Owns(x.rows, x.requests[r].key, x.requests[r].hash, x.requests[r].phase.token)
      && x.rows[x.requests[r].key].startedAt == Some(x.requests[r].phase.stamp)
  }

  ghost predicate ReceiptsHonest(x: World) {
    forall r :: r in x.requests && x.requests[r].phase.Receipt? ==>
      IsAccepted(x.rows, x.requests[r].key, x.requests[r].hash)
  }

  ghost predicate Inv(x: World) {
    RowsSettled(x) && TokensDistinct(x) && LiveOwn(x) && ReceiptsHonest(x)
  }

  // ----- what one step may do to a row

  /** The only ways a row changes: created by a claim, renewed or completed or aborted under its own token,
      or taken over once its lease has run out. In particular the hash is fixed while the row exists,
      nothing changes an accepted row, and a stale token changes nothing. */
  ghost predicate Edge(before: Table, after: Table, now: Time, k: Key, actor: Option<Id>) {
    if k !in before then k in after ==> after[k].status == Processing && after[k].token == actor && actor.Some?
    else if k !in after then before[k].status == Processing && before[k].token == actor && actor.Some?
    else
      && after[k].hash == before[k].hash
      && (|| after[k] == before[k]
          || (before[k].status == Processing && before[k].token == actor && actor.Some?
              && (after[k].status == Accepted || (after[k].status == Processing && after[k].token == actor)))
          || (before[k].status == Processing && after[k].status == Processing && after[k].token == actor
              && before[k].startedAt.Some? && before[k].startedAt.value + LEASE <= now))
  }

  /** The token under which a step acts, if it acts on rows at all. */
  function TokenOf(x: World, step: Step): Option<Id> {
    match step
    case TryClaim(_, token, _, _) => Some(token)
    case Beat(r, _, _) =>
      if r in x.requests && HasToken(x.requests[r].phase) then Some(x.requests[r].phase.token) else None
    case TryComplete(r, _) =>
      if r in x.requests && HasToken(x.requests[r].phase) then Some(x.requests[r].phase.token) else None
    case TryAbort(r) =>
      if r in x.requests && HasToken(x.requests[r].phase) then Some(x.requests[r].phase.token) else None
    case _ => None
  }

  lemma RowEdges(x: World, step: Step, k: Key)
    requires RowsSettled(x)
    ensures Edge(x.rows, Next(x, step).rows, x.now, k, TokenOf(x, step))
  {
  }

  // ----- every step and every run

  lemma ClaimSettles(x: World, r: nat, token: Id, lag: nat, lost: bool)
    requires RowsSettled(x)
    ensures RowsSettled(Next(x, TryClaim(r, token, lag, lost)))
  {
  }

  lemma ClaimRequestTokens(x: World, r: nat, token: Id, lag: nat, lost: bool)
    requires RequestTokens(x)
    ensures RequestTokens(Next(x, TryClaim(r, token, lag, lost)))
  {
    hide ClaimRow;
  }

  lemma ClaimRowTokens(x: World, r: nat, token: Id, lag: nat, lost: bool)
    requires RowsSettled(x) && RowTokens(x)
    ensures RowTokens(Next(x, TryClaim(r, token, lag, lost)))
  {
  }

  lemma ClaimOwnKeys(x: World, r: nat, token: Id, lag: nat, lost: bool)
    requires RowsSettled(x) && RequestTokens(x) && OwnKeys(x)
    ensures OwnKeys(Next(x, TryClaim(r, token, lag, lost)))
  {
  }

  lemma ClaimDistinct(x: World, r: nat, token: Id, lag: nat, lost: bool)
    requires RowsSettled(x) && TokensDistinct(x)
    ensures TokensDistinct(Next(x, TryClaim(r, token, lag, lost)))
  {
    hide RowsSettled, RequestTokens, RowTokens, OwnKeys, Next;
    ClaimRequestTokens(x, r, token, lag, lost);
    ClaimRowTokens(x, r, token, lag, lost);
    ClaimOwnKeys(x, r, token, lag, lost);
  }

  /** A claim takes nothing from a live owner: its row has not expired. */
  lemma ClaimSparesLive(x: World, r: nat, token: Id, lag: nat, lost: bool)
    requires LiveOwn(x)
    ensures LiveOwn(Next(x, TryClaim(r, token, lag, lost)))
  {
    var y := Next(x, TryClaim(r, token, lag, lost));
    forall q | Live(y, q) && q != r
      ensures Owns(y.rows, y.requests[q].key, y.requests[q].hash, y.requests[q].phase.token)
      ensures y.rows[y.requests[q].key].startedAt == Some(y.requests[q].phase.stamp)
    {
      assert Live(x, q);
    }
  }

  lemma ClaimHonest(x: World, r: nat, token: Id, lag: nat, lost: bool)
    requires ReceiptsHonest(x)
    ensures ReceiptsHonest(Next(x, TryClaim(r, token, lag, lost)))
  {
  }

  lemma ClaimKeeps(x: World, r: nat, token: Id, lag: nat, lost: bool)
    requires Inv(x)
    ensures Inv(Next(x, TryClaim(r, token, lag, lost)))
  {
    hide RowsSettled, TokensDistinct, LiveOwn, ReceiptsHonest, Next;
    ClaimSettles(x, r, token, lag, lost);
    ClaimDistinct(x, r, token, lag, lost);
    ClaimSparesLive(x, r, token, lag, lost);
    ClaimHonest(x, r, token, lag, lost);
  }

  lemma BeatSettles(x: World, r: nat, lag: nat, lost: bool)
    requires RowsSettled(x) && TokensDistinct(x)
    ensures RowsSettled(Next(x, Beat(r, lag, lost))) && TokensDistinct(Next(x, Beat(r, lag, lost)))
  {
  }

  lemma BeatSparesLive(x: World, r: nat, lag: nat, lost: bool)
    requires TokensDistinct(x) && LiveOwn(x)
    ensures LiveOwn(Next(x, Beat(r, lag, lost)))
  {
    var y := Next(x, Beat(r, lag, lost));
    forall q | Live(y, q) && q != r ensures Live(x, q) {
    }
  }

  lemma BeatKeeps(x: World, r: nat, lag: nat, lost: bool)
    requires Inv(x)
    ensures Inv(Next(x, Beat(r, lag, lost)))
  {
    BeatSettles(x, r, lag, lost);
    BeatSparesLive(x, r, lag, lost);
    hide RowsSettled, TokensDistinct, LiveOwn;
  }

  lemma CompleteRows(x: World, r: nat, lost: bool)
    requires RowsSettled(x)
    ensures RowsSettled(Next(x, TryComplete(r, lost)))
  {
  }

  lemma CompleteTokens(x: World, r: nat, lost: bool)
    requires TokensDistinct(x)
    ensures TokensDistinct(Next(x, TryComplete(r, lost)))
  {
  }

  /** A request that stops playing leaves all rows alone but its own, and no other's lease. */
  lemma SparesLive(x: World, y: World, r: nat)
    requires TokensDistinct(x) && LiveOwn(x)
    requires r in x.requests && HasToken(x.requests[r].phase) && y.now == x.now
    requires forall q :: q in y.requests && q != r ==> q in x.requests && y.requests[q] == x.requests[q]
    requires r in y.requests ==> !y.requests[r].phase.Playing?
    requires forall k :: k in x.rows && x.rows[k].token != Some(x.requests[r].phase.token) ==>
               k in y.rows && y.rows[k] == x.rows[k]
    ensures LiveOwn(y)
  {
    forall q | Live(y, q)
      ensures Owns(y.rows, y.requests[q].key, y.requests[q].hash, y.requests[q].phase.token)
      ensures y.rows[y.requests[q].key].startedAt == Some(y.requests[q].phase.stamp)
    {
      assert Live(x, q);
    }
  }

  lemma CompleteSparesLive(x: World, r: nat, lost: bool)
    requires TokensDistinct(x) && LiveOwn(x)
    ensures LiveOwn(Next(x, TryComplete(r, lost)))
  {
    hide TokensDistinct, LiveOwn;
    if r in x.requests && x.requests[r].phase.Succeeded? {
      SparesLive(x, Next(x, TryComplete(r, lost)), r);
    }
  }

  lemma CompleteHonest(x: World, r: nat, lost: bool)
    requires ReceiptsHonest(x)
    ensures ReceiptsHonest(Next(x, TryComplete(r, lost)))
  {
  }

  lemma CompleteKeeps(x: World, r: nat, lost: bool)
    requires Inv(x)
    ensures Inv(Next(x, TryComplete(r, lost)))
  {
    hide RowsSettled, TokensDistinct, LiveOwn, ReceiptsHonest, Next;
    CompleteRows(x, r, lost);
    CompleteTokens(x, r, lost);
    CompleteSparesLive(x, r, lost);
    CompleteHonest(x, r, lost);
  }

  lemma AbortSettles(x: World, r: nat)
    requires RowsSettled(x) && TokensDistinct(x)
    ensures RowsSettled(Next(x, TryAbort(r))) && TokensDistinct(Next(x, TryAbort(r)))
  {
  }

  lemma AbortSparesLive(x: World, r: nat)
    requires TokensDistinct(x) && LiveOwn(x)
    ensures LiveOwn(Next(x, TryAbort(r)))
  {
    hide TokensDistinct, LiveOwn;
    if r in x.requests && x.requests[r].phase.Unstarted? {
      SparesLive(x, Next(x, TryAbort(r)), r);
    }
  }

  lemma AbortKeeps(x: World, r: nat)
    requires Inv(x)
    ensures Inv(Next(x, TryAbort(r)))
  {
    AbortSettles(x, r);
    AbortSparesLive(x, r);
    hide RowsSettled, TokensDistinct, LiveOwn;
  }

  lemma PlayKeeps(x: World, r: nat, outcome: Playback)
    requires Inv(x)
    ensures Inv(Next(x, Play(r, outcome)))
  {
  }

  lemma CheckKeeps(x: World, r: nat)
    requires Inv(x)
    ensures Inv(Next(x, Check(r)))
  {
  }

  lemma QuietKeeps(x: World, step: Step)
    requires Inv(x)
    requires step.Arrive? || step.Crash? || step.Pass?
    ensures Inv(Next(x, step))
  {
  }

  lemma StepKeeps(x: World, step: Step)
    requires Inv(x)
    ensures Inv(Next(x, step))
  {
    hide Inv, Next;
    match step
    case TryClaim(r, token, lag, lost) => ClaimKeeps(x, r, token, lag, lost);
    case Beat(r, lag, lost) => BeatKeeps(x, r, lag, lost);
    case TryComplete(r, lost) => CompleteKeeps(x, r, lost);
    case TryAbort(r) => AbortKeeps(x, r);
    case Play(r, outcome) => PlayKeeps(x, r, outcome);
    case Check(r) => CheckKeeps(x, r);
    case _ => QuietKeeps(x, step);
  }

  lemma {:induction false} RunKeeps(x: World, steps: seq<Step>)
    requires Inv(x)
    ensures Inv(Run(x, steps))
    decreases |steps|
  {
    hide Inv, Next;
    if steps != [] {
      StepKeeps(x, steps[0]);
      RunKeeps(Next(x, steps[0]), steps[1..]);
    }
  }

  // ----- the guarantees

  /** One live owner: in every run, two requests that play the same operation under running leases are the
      same request, and the row carries its token. */
  lemma OneLiveOwner(steps: seq<Step>, r: nat, q: nat)
    requires
      var x := Run(Start, steps);
      Live(x, r) && Live(x, q) && x.requests[r].key == x.requests[q].key
    ensures r == q
    ensures
      var x := Run(Start, steps);
      Owns(x.rows, x.requests[r].key, x.requests[r].hash, x.requests[r].phase.token)
  {
    RunKeeps(Start, steps);
  }

  /** The reclaimable state is only ever passed through inside a transaction. */
  lemma NeverReclaimable(steps: seq<Step>, k: Key)
    requires k in Run(Start, steps).rows
    ensures Run(Start, steps).rows[k].status != Reclaimable
  {
    RunKeeps(Start, steps);
  }

  /** A success receipt, fresh or repeated, implies an accepted row with the request's payload. */
  lemma ReceiptMeansAccepted(steps: seq<Step>, r: nat)
    requires r in Run(Start, steps).requests && Run(Start, steps).requests[r].phase.Receipt?
    ensures IsAccepted(Run(Start, steps).rows, Run(Start, steps).requests[r].key, Run(Start, steps).requests[r].hash)
  {
    RunKeeps(Start, steps);
  }

  /** Everybody who holds a token for operation `k` drew it from `tokens`. */
  ghost predicate Players(x: World, k: Key, tokens: set<Id>) {
    forall r :: r in x.requests && x.requests[r].key == k && HasToken(x.requests[r].phase) ==>
      x.requests[r].phase.token in tokens
  }

  lemma NoNewPlayer(x: World, step: Step, k: Key, tokens: set<Id>)
    requires k in x.rows && x.rows[k].status == Accepted
    requires Players(x, k, tokens)
    ensures Players(Next(x, step), k, tokens)
  {
  }

  lemma AcceptedStays(x: World, step: Step, k: Key)
    requires RowsSettled(x)
    requires k in x.rows && x.rows[k].status == Accepted
    ensures k in Next(x, step).rows && Next(x, step).rows[k] == x.rows[k]
  {
  }

  lemma {:induction false} AcceptedBarsPlayers(x: World, steps: seq<Step>, k: Key, tokens: set<Id>)
    requires Inv(x)
    requires k in x.rows && x.rows[k].status == Accepted
    requires Players(x, k, tokens)
    ensures k in Run(x, steps).rows && Run(x, steps).rows[k] == x.rows[k]
    ensures Players(Run(x, steps), k, tokens)
    decreases |steps|
  {
    hide Players, Next;
    if steps != [] {
      AcceptedStays(x, steps[0], k);
      NoNewPlayer(x, steps[0], k, tokens);
      StepKeeps(x, steps[0]);
      AcceptedBarsPlayers(Next(x, steps[0]), steps[1..], k, tokens);
    }
  }

  /** Accepted is terminal: in every later run the row stays as it is, and nobody plays the operation who
      had not been granted its token by then. */
  lemma AcceptedIsFinal(first: seq<Step>, rest: seq<Step>, k: Key)
    requires k in Run(Start, first).rows && Run(Start, first).rows[k].status == Accepted
    ensures
      var x, y := Run(Start, first), Run(Run(Start, first), rest);
      && k in y.rows && y.rows[k] == x.rows[k]
      && (forall r :: r in y.requests && y.requests[r].key == k && y.requests[r].phase.Playing? ==>
            y.requests[r].phase.token in x.issued)
  {
    RunKeeps(Start, first);
    AcceptedBarsPlayers(Run(Start, first), rest, k, Run(Start, first).issued);
  }

  /** When nothing goes wrong an operation claimed afresh is played and accepted, with a receipt. */
  lemma CalmRequestIsAccepted(x: World, r: nat, k: Key, hash: Id, token: Id)
    requires r !in x.requests && k !in x.rows && token !in x.issued
    ensures
      var played := Next(Next(Next(x, Arrive(r, k, hash)), TryClaim(r, token, 0, false)), Play(r, Done));
      var y := Next(played, TryComplete(r, false));
      IsAccepted(y.rows, k, hash) && r in y.requests && y.requests[r].phase == Receipt(true)
  {
  }

  /** A claim that is not renewed can be taken over as soon as its lease has run out, and no earlier. */
  lemma TakeoverIffExpired(t: Table, k: Key, token: Id, now: Time)
    requires k in t && t[k].status == Processing && t[k].startedAt.Some? && t[k].token != Some(token)
    ensures ClaimRow(t, k, t[k].hash, token, now).1 == Ok(Claimed) <==> t[k].startedAt.value + LEASE <= now
    ensures ClaimRow(t, k, t[k].hash, token, now).1 == Ok(Claimed) <==>
              Owns(ClaimRow(t, k, t[k].hash, token, now).0, k, t[k].hash, token)
  {
  }
}

/** What each statement on the claims table answers and writes, case by case, and what a playback that never
    began leaves behind. */
module FallbackOutcomes {
  import opened Wrappers
  import opened FallbackClaims

  predicate WritesRow(a: Table, b: Table, k: Key) {
    b.Keys == a.Keys + {k} && forall j :: j in a && j != k ==> b[j] == a[j]
  }

  /** An operation is claimed exactly if nobody has it, or the claim on it ran out five minutes after it was last
      renewed, or was given back; never for another payload, and never once it was accepted. */
  lemma ClaimOutcome(t: Table, k: Key, hash: Id, token: Id, at: Time)
    ensures
      var (after, r) := ClaimRow(t, k, hash, token, at);
      var lapsed := k in t && t[k].status == Processing && t[k].startedAt.Some? && t[k].startedAt.value + 300 <= at;
      && (r == Ok(Claimed) <==> k !in t || (t[k].hash == hash && (t[k].status == Reclaimable || lapsed)))
      && (r == Ok(AlreadyAccepted) <==> k in t && t[k].hash == hash && t[k].status == Accepted)
      && (r == Ok(InProgress) <==> k in t && t[k].hash == hash && t[k].status == Processing && !lapsed)
      && (r == Err(PayloadConflict) <==> k in t && t[k].hash != hash)
      && (r != Ok(Claimed) ==> after == t)
      && (r == Ok(Claimed) ==>
            && WritesRow(t, after, k) && Owns(after, k, hash, token) && after[k].startedAt == Some(at))
  {
  }

  /** The owner renews its claim from now on, completes it for good, or gives the operation back as if it had
      never been claimed; everybody else's statements change nothing. */
  lemma OwnerOutcome(t: Table, k: Key, hash: Id, token: Id, at: Time)
    ensures !Owns(t, k, hash, token) ==>
              Renewed(t, k, hash, token, at) == Completed(t, k, hash, token) == Aborted(t, k, hash, token) == t
    ensures Owns(t, k, hash, token) ==>
              var renewed := Renewed(t, k, hash, token, at);
              WritesRow(t, renewed, k) && Owns(renewed, k, hash, token) && renewed[k].startedAt == Some(at)
    ensures Owns(t, k, hash, token) ==>
              var completed := Completed(t, k, hash, token);
              && WritesRow(t, completed, k) && IsAccepted(completed, k, hash)
              && completed[k].token.None? && completed[k].startedAt.None?
    ensures Owns(t, k, hash, token) ==>
              var aborted := Aborted(t, k, hash, token);
              k !in aborted && aborted.Keys == t.Keys - {k} && forall j :: j in aborted ==> aborted[j] == t[j]
    ensures Owns(t, k, hash, token) <==>
              k in t && t[k].hash == hash && t[k].status == Processing && t[k].token == Some(token)
  {
  }

  /** Why a statement that changed no row did not: another payload, another owner, or the wrong state. */
  lemma ExplainOutcome(t: Table, k: Key, hash: Id, token: Id)
    requires k in t
    ensures
      var e := Explain(t, k, hash, token);
      && (e == PayloadConflict <==> t[k].hash != hash)
      && (e == NotOwned <==> t[k].hash == hash && t[k].token != Some(token))
      && (e == WrongStatus <==> t[k].hash == hash && t[k].token == Some(token))
  {
  }

  // ----- requests

  /** An owner that renews in time moves the end of its lease to five minutes from the renewal, and goes on
      only while it can tell that it is the owner. */
  lemma BeatOutcome(x: World, r: nat, lag: nat, lost: bool)
    requires r in x.requests && x.requests[r].phase.Playing? && x.requests[r].phase.beating
    ensures
      var q := x.requests[r];
      var owner := Owns(x.rows, q.key, q.hash, q.phase.token);
      var y := Next(x, Beat(r, lag, lost));
      && y.requests[r].phase == Playing(q.phase.token, if owner then x.now - lag else q.phase.stamp, owner && !lost)
      && y.rows == Renewed(x.rows, q.key, q.hash, q.phase.token, x.now - lag) && y.now == x.now && y.issued == x.issued
  {
    hide Renewed;
  }

  /** A request plays exactly the operation it claimed. */
  lemma TryClaimOutcome(x: World, r: nat, token: Id, lag: nat, lost: bool)
    requires r in x.requests && x.requests[r].phase == Arriving && token !in x.issued
    ensures
      var q := x.requests[r];
      var (rows, reply) := ClaimRow(x.rows, q.key, q.hash, token, x.now - lag);
      var y := Next(x, TryClaim(r, token, lag, lost));
      && y.rows == rows && y.issued == x.issued + {token}
      && (y.requests[r].phase == Playing(token, x.now - lag, true) <==> !lost && reply == Ok(Claimed))
      && (y.requests[r].phase == Receipt(false) <==> !lost && reply == Ok(AlreadyAccepted))
      && (y.requests[r].phase == Refused <==> lost || reply == Ok(InProgress) || reply.Err?)
  {
    hide ClaimRow;
  }

  /** What becomes of a request when its playback is over: it completes what was played, gives back what never
      began as long as its heartbeat held, and is refused otherwise, leaving the claim to run out. */
  lemma PlayOutcome(x: World, r: nat, outcome: Playback)
    requires r in x.requests && x.requests[r].phase.Playing?
    ensures
      var p := x.requests[r].phase;
      var y := Next(x, Play(r, outcome));
      && y.rows == x.rows
      && (y.requests[r].phase == Succeeded(p.token) <==> outcome == Done)
      && (y.requests[r].phase == Unstarted(p.token) <==> outcome == NotStarted && p.beating)
      && (y.requests[r].phase == Refused <==> outcome == Broken || (outcome == NotStarted && !p.beating))
  {
  }

  /** A receipt is given exactly to the owner whose completion is seen, or to one who finds its payload accepted
      when it looks again. */
  lemma ReceiptOutcome(x: World, r: nat, lost: bool)
    requires r in x.requests
    ensures x.requests[r].phase.Succeeded? ==>
              var q := x.requests[r];
              var owner := Owns(x.rows, q.key, q.hash, q.phase.token);
              var y := Next(x, TryComplete(r, lost));
              && y.rows == Completed(x.rows, q.key, q.hash, q.phase.token)
              && (y.requests[r].phase == Receipt(true) <==> !lost && owner)
              && (y.requests[r].phase == Checking(q.phase.token) <==> !lost && !owner)
              && (y.requests[r].phase == Refused <==> lost)
    ensures x.requests[r].phase.Checking? ==>
              var q := x.requests[r];
              var y := Next(x, Check(r));
              && y.rows == x.rows
              && y.requests[r].phase == if IsAccepted(x.rows, q.key, q.hash) then Receipt(true) else Refused
  {
    hide Completed, IsAccepted;
  }

  /** A playback that never began gives its operation back at once: the next request claims it, with any
      payload, however fresh the lease still was. */
  lemma AbortFreesTheOperation(x: World, r: nat, hash: Id, token: Id, at: Time)
    requires r in x.requests && x.requests[r].phase.Unstarted?
    requires Owns(x.rows, x.requests[r].key, x.requests[r].hash, x.requests[r].phase.token)
    ensures
      var k := x.requests[r].key;
      var y := Next(x, TryAbort(r));
      && k !in y.rows && y.requests[r].phase == Refused
      && ClaimRow(y.rows, k, hash, token, at).1 == Ok(Claimed)
      && Owns(ClaimRow(y.rows, k, hash, token, at).0, k, hash, token)
  {
  }

  /** An owner that crashes keeps its operation for five minutes after its last renewal; from then on the next
      request with the same payload takes over. */
  lemma CrashedOwnerIsReplaced(x: World, r: nat, q: nat, token: Id, wait: nat)
    requires r in x.requests && x.requests[r].phase.Playing? && q !in x.requests && token !in x.issued
    requires
      var p := x.requests[r].phase;
      Owns(x.rows, x.requests[r].key, x.requests[r].hash, p.token)
      && x.rows[x.requests[r].key].startedAt == Some(p.stamp)
    ensures
      var k, hash := x.requests[r].key, x.requests[r].hash;
      var y := Next(Next(Next(Next(x, Crash(r)), Pass(wait)), Arrive(q, k, hash)), TryClaim(q, token, 0, false));
      && y.now == x.now + wait && r !in y.requests
      && (y.requests[q].phase == Playing(token, y.now, true) <==> x.requests[r].phase.stamp + 300 <= y.now)
      && (y.requests[q].phase == Refused <==> y.now < x.requests[r].phase.stamp + 300)
  {
    var k, hash := x.requests[r].key, x.requests[r].hash;
    ClaimOutcome(x.rows, k, hash, token, x.now + wait);
    hide ClaimRow;
  }
}

/** The reference-counted keyed lock. Its atomic sections are the two critical sections under the mutex
    and the channel operations on an entry's one-slot token channel; callers interleave between them. */
module KeyedLock {
  import opened Wrappers

  type Key = string

  // An entry is identified by a number that is never reused, as its address is while anyone refers to it.
  type EntryId = nat

  // `token`: the channel currently holds the token.
  datatype Entry = Entry(token: bool, references: int)

  datatype Locks = Locks(locks: map<Key, EntryId>, entries: map<EntryId, Entry>, nextId: EntryId)

  // ----- the atomic sections

  function Register(l: Locks, key: Key): (Locks, EntryId) {
    if key in l.locks && l.locks[key] in l.entries then
      var e := l.locks[key];
      (l.(entries := l.entries[e := l.entries[e].(references := l.entries[e].references + 1)]), e)
    else
      (Locks(l.locks[key := l.nextId], l.entries[l.nextId := Entry(true, 1)], l.nextId + 1), l.nextId)
  }

  function SetToken(l: Locks, e: EntryId, token: bool): Locks {
    if e in l.entries then l.(entries := l.entries[e := l.entries[e].(token := token)]) else l
  }

  function ReleaseReference(l: Locks, key: Key, e: EntryId): Locks {
    if e !in l.entries then l
    else
      var left := l.entries[e].references - 1;
      l.(entries := l.entries[e := l.entries[e].(references := left)],
         locks := if left == 0 && key in l.locks && l.locks[key] == e then l.locks - {key} else l.locks)
  }

  /** The lock as the program keeps it, updated in place. */
  class KeyedLocker {
    var locks: map<Key, EntryId>
    var entries: map<EntryId, Entry>
    var nextId: EntryId

    ghost function State(): Locks
      reads this
    {
      Locks(locks, entries, nextId)
    }

    constructor ()
      ensures State() == Locks(map[], map[], 0)
    {
      locks, entries, nextId := map[], map[], 0;
    }

    method Enter(key: Key) returns (entry: EntryId)
      requires key in locks ==> locks[key] in entries
      modifies this
      ensures (State(), entry) == Register(old(State()), key)
    {
      if key in locks {
        entry := locks[key];
      } else {
        entry := nextId;
        nextId := nextId + 1;
        entries := entries[entry := Entry(true, 0)];
        locks := locks[key := entry];
      }
      entries := entries[entry := entries[entry].(references := entries[entry].references + 1)];
      assert entry == old(nextId) ==> entries == old(entries)[entry := Entry(true, 1)] || key in old(locks);
    }

    /** Receives from the token channel if it is not empty. */
    method TryTake(entry: EntryId) returns (taken: bool)
      requires entry in entries
      modifies this
      ensures taken == old(entries[entry].token)
      ensures State() == if taken then SetToken(old(State()), entry, false) else old(State())
    {
      taken := entries[entry].token;
      if taken { entries := entries[entry := entries[entry].(token := false)]; }
    }

    /** Sends to the token channel. It has one slot, so sending to a full channel would block. */
    method PutBack(entry: EntryId)
      requires entry in entries && !entries[entry].token
      modifies this
      ensures State() == SetToken(old(State()), entry, true)
    {
      entries := entries[entry := entries[entry].(token := true)];
    }

    method Release(key: Key, entry: EntryId)
      requires entry in entries
      modifies this
      ensures State() == ReleaseReference(old(State()), key, entry)
    {
      entries := entries[entry := entries[entry].(references := entries[entry].references - 1)];
      if entries[entry].references == 0 && key in locks && locks[key] == entry {
        locks := locks - {key};
      }
    }
  }

  // ----- callers

  // Taken: the token was received, the context not yet looked at again. Leaving: the token is not held
  // (any more) and the reference is about to be given up.
  datatype Phase = Waiting | Taken | Holding | Leaving | Gone

  datatype Caller = Caller(key: Key, entry: EntryId, phase: Phase)

  datatype System = System(lock: Locks, callers: map<nat, Caller>)

  datatype Step =
    | Enter(t: nat, key: Key)
    | CancelWait(t: nat)
    | Take(t: nat)
    | Admit(t: nat)
    | Reject(t: nat)
    | Unlock(t: nat)
    | Finish(t: nat)

  predicate At(x: System, t: nat, p: Phase) {
    t in x.callers && x.callers[t].phase == p
  }

  function Move(x: System, t: nat, p: Phase): map<nat, Caller>
    requires t in x.callers
  {
    x.callers[t := x.callers[t].(phase := p)]
  }

  /** Steps that are not enabled change nothing; so does unlocking twice. */
  function Next(x: System, step: Step): System {
    match step
    case Enter(t, key) =>
      if t in x.callers then x
      else var (lock, e) := Register(x.lock, key); System(lock, x.callers[t := Caller(key, e, Waiting)])
    case CancelWait(t) => if At(x, t, Waiting) then x.(callers := Move(x, t, Leaving)) else x
    case Take(t) =>
      if At(x, t, Waiting) && x.callers[t].entry in x.lock.entries && x.lock.entries[x.callers[t].entry].token then
        System(SetToken(x.lock, x.callers[t].entry, false), Move(x, t, Taken))
      else x
    case Admit(t) => if At(x, t, Taken) then x.(callers := Move(x, t, Holding)) else x
    case Reject(t) =>
      if At(x, t, Taken) then System(SetToken(x.lock, x.callers[t].entry, true), Move(x, t, Leaving)) else x
    case Unlock(t) =>
      if At(x, t, Holding) then System(SetToken(x.lock, x.callers[t].entry, true), Move(x, t, Leaving)) else x
    case Finish(t) =>
      if At(x, t, Leaving) then
        System(ReleaseReference(x.lock, x.callers[t].key, x.callers[t].entry), Move(x, t, Gone))
      else x
  }

  function Run(x: System, steps: seq<Step>): System
    decreases |steps|
  {
    if steps == [] then x else Run(Next(x, steps[0]), steps[1..])
  }

  const Start := System(Locks(map[], map[], 0), map[])

  // ----- the invariant

  predicate Present(c: Caller) {
    c.phase != Gone
  }

  predicate Owns(c: Caller) {
    c.phase == Taken || c.phase == Holding
  }

  /** Holders, waiters and releasers of an entry. */
  ghost function Users(callers: map<nat, Caller>, e: EntryId): set<nat> {
    set t | t in callers && Present(callers[t]) && callers[t].entry == e
  }

  ghost predicate Counted(x: System) {
    && (forall e :: e in x.lock.entries ==> e < x.lock.nextId)
    && (forall e :: e in x.lock.entries ==> x.lock.entries[e].references == |Users(x.callers, e)|)
    && (forall t :: t in x.callers ==> x.callers[t].entry < x.lock.nextId)
  }

  /** Everybody who uses a key uses the entry the map holds for it. */
  ghost predicate Registered(x: System) {
    && (forall t :: t in x.callers && Present(x.callers[t]) ==>
          && x.callers[t].key in x.lock.locks
          && x.lock.locks[x.callers[t].key] == x.callers[t].entry
          && x.callers[t].entry in x.lock.entries)
    && (forall k :: k in x.lock.locks ==>
          x.lock.locks[k] in x.lock.entries && x.lock.entries[x.lock.locks[k]].references > 0)
    && (forall j, k :: j in x.lock.locks && k in x.lock.locks && x.lock.locks[j] == x.lock.locks[k] ==> j == k)
  }

  ghost predicate OneOwner(x: System) {
    && (forall t, u ::
          (&& t in x.callers && u in x.callers && Owns(x.callers[t]) && Owns(x.callers[u])
           && x.callers[t].entry == x.callers[u].entry)
          ==> t == u)
    && (forall t :: t in x.callers && Owns(x.callers[t]) && x.callers[t].entry in x.lock.entries ==>
          !x.lock.entries[x.callers[t].entry].token)
    && (forall e :: e in x.lock.entries && !x.lock.entries[e].token ==>
          exists t :: t in x.callers && Owns(x.callers[t]) && x.callers[t].entry == e)
  }

  ghost predicate Inv(x: System) {
    Counted(x) && Registered(x) && OneOwner(x)
  }

  lemma PhaseKeepsUsers(x: System, t: nat, p: Phase)
    requires t in x.callers && Present(x.callers[t]) && p != Gone
    ensures forall e :: Users(Move(x, t, p), e) == Users(x.callers, e)
  {
    forall e ensures Users(Move(x, t, p), e) == Users(x.callers, e) {
    }
  }

  lemma EnterUsers(x: System, t: nat, key: Key, e: EntryId)
    requires t !in x.callers
    ensures forall d :: Users(x.callers[t := Caller(key, e, Waiting)], d) ==
              if d == e then Users(x.callers, d) + {t} else Users(x.callers, d)
    ensures forall d :: t !in Users(x.callers, d)
  {
    var callers := x.callers[t := Caller(key, e, Waiting)];
    forall d ensures Users(callers, d) == if d == e then Users(x.callers, d) + {t} else Users(x.callers, d) {
    }
  }

  lemma NobodyUsesTheNext(x: System)
    requires Counted(x)
    ensures Users(x.callers, x.lock.nextId) == {}
  {
  }

  lemma EnterCounted(x: System, t: nat, key: Key)
    requires Counted(x) && t !in x.callers
    ensures Counted(Next(x, Enter(t, key)))
  {
    EnterUsers(x, t, key, Register(x.lock, key).1);
    NobodyUsesTheNext(x);
    hide Users;
  }

  lemma EnterRegistered(x: System, t: nat, key: Key)
    requires Counted(x) && Registered(x) && t !in x.callers
    ensures Registered(Next(x, Enter(t, key)))
  {
    hide Users;
    forall k | k in x.lock.locks ensures x.lock.locks[k] < x.lock.nextId {
      assert x.lock.locks[k] in x.lock.entries;
    }
  }

  lemma EnterOneOwner(x: System, t: nat, key: Key)
    requires Inv(x) && t !in x.callers
    ensures OneOwner(Next(x, Enter(t, key)))
  {
    hide Users;
    var y := Next(x, Enter(t, key));
    forall d | d in y.lock.entries && !y.lock.entries[d].token
      ensures exists u :: u in y.callers && Owns(y.callers[u]) && y.callers[u].entry == d
    {
      var u :| u in x.callers && Owns(x.callers[u]) && x.callers[u].entry == d;
      assert y.callers[u] == x.callers[u];
    }
  }

  lemma EnterKeeps(x: System, t: nat, key: Key)
    requires Inv(x)
    ensures Inv(Next(x, Enter(t, key)))
  {
    hide Counted, Registered, OneOwner, Register;
    if t !in x.callers {
      EnterCounted(x, t, key);
      EnterRegistered(x, t, key);
      EnterOneOwner(x, t, key);
    }
  }

  lemma PhaseOneOwner(x: System, t: nat, p: Phase)
    requires OneOwner(x)
    requires t in x.callers
    requires Owns(x.callers[t]) <==> Owns(x.callers[t].(phase := p))
    ensures OneOwner(x.(callers := Move(x, t, p)))
  {
    var y := x.(callers := Move(x, t, p));
    forall d | d in y.lock.entries && !y.lock.entries[d].token
      ensures exists u :: u in y.callers && Owns(y.callers[u]) && y.callers[u].entry == d
    {
      var u :| u in x.callers && Owns(x.callers[u]) && x.callers[u].entry == d;
      assert Owns(y.callers[u]);
    }
  }

  lemma PhaseKeeps(x: System, t: nat, p: Phase)
    requires Inv(x)
    requires t in x.callers && Present(x.callers[t]) && p != Gone
    requires Owns(x.callers[t]) <==> Owns(x.callers[t].(phase := p))
    ensures Inv(x.(callers := Move(x, t, p)))
  {
    hide OneOwner, Users;
    PhaseOneOwner(x, t, p);
    PhaseKeepsUsers(x, t, p);
  }

  /** Moving the token changes neither who uses an entry nor where it is registered. */
  lemma TokenKeepsCounts(x: System, t: nat, p: Phase, token: bool)
    requires Counted(x) && Registered(x)
    requires t in x.callers && Present(x.callers[t]) && p != Gone
    ensures
      var y := System(SetToken(x.lock, x.callers[t].entry, token), Move(x, t, p));
      Counted(y) && Registered(y)
  {
    PhaseKeepsUsers(x, t, p);
    hide Users;
  }

  lemma TakeOneOwner(x: System, t: nat)
    requires OneOwner(x) && Next(x, Take(t)) != x
    ensures OneOwner(Next(x, Take(t)))
  {
    var y := Next(x, Take(t));
    forall d | d in y.lock.entries && !y.lock.entries[d].token
      ensures exists u :: u in y.callers && Owns(y.callers[u]) && y.callers[u].entry == d
    {
      if d == x.callers[t].entry {
        assert Owns(y.callers[t]);
      } else {
        var u :| u in x.callers && Owns(x.callers[u]) && x.callers[u].entry == d;
        assert Owns(y.callers[u]);
      }
    }
  }

  lemma TakeKeeps(x: System, t: nat)
    requires Inv(x)
    ensures Inv(Next(x, Take(t)))
  {
    hide Counted, Registered, OneOwner;
    if Next(x, Take(t)) != x {
      TokenKeepsCounts(x, t, Taken, false);
      TakeOneOwner(x, t);
    }
  }

  lemma PutBackOneOwner(x: System, t: nat)
    requires OneOwner(x)
    requires t in x.callers && Owns(x.callers[t])
    ensures OneOwner(System(SetToken(x.lock, x.callers[t].entry, true), Move(x, t, Leaving)))
  {
    var y := System(SetToken(x.lock, x.callers[t].entry, true), Move(x, t, Leaving));
    forall d | d in y.lock.entries && !y.lock.entries[d].token
      ensures exists u :: u in y.callers && Owns(y.callers[u]) && y.callers[u].entry == d
    {
      var u :| u in x.callers && Owns(x.callers[u]) && x.callers[u].entry == d;
      assert Owns(y.callers[u]);
    }
  }

  lemma PutBackKeeps(x: System, t: nat)
    requires Inv(x)
    requires t in x.callers && Owns(x.callers[t])
    ensures Inv(System(SetToken(x.lock, x.callers[t].entry, true), Move(x, t, Leaving)))
  {
    hide Counted, Registered, OneOwner;
    TokenKeepsCounts(x, t, Leaving, true);
    PutBackOneOwner(x, t);
  }

  lemma FinishCounted(x: System, t: nat)
    requires Counted(x) && At(x, t, Leaving) && x.callers[t].entry in x.lock.entries
    ensures
      var y := Next(x, Finish(t));
      && Counted(y)
      && x.lock.entries[x.callers[t].entry].references > 0
      && (forall u :: u in y.callers && Present(y.callers[u]) ==>
            u != t && (y.callers[u].entry in y.lock.entries ==> y.lock.entries[y.callers[u].entry].references > 0))
  {
    var y := Next(x, Finish(t));
    var e := x.callers[t].entry;
    forall d ensures Users(y.callers, d) == if d == e then Users(x.callers, d) - {t} else Users(x.callers, d) {
    }
    assert t in Users(x.callers, e);
    forall u | u in y.callers && Present(y.callers[u]) && y.callers[u].entry in y.lock.entries
      ensures y.lock.entries[y.callers[u].entry].references > 0
    {
      assert u in Users(y.callers, y.callers[u].entry);
    }
  }

  lemma FinishRegistered(x: System, t: nat)
    requires Inv(x) && At(x, t, Leaving)
    ensures Registered(Next(x, Finish(t)))
  {
    hide Users, Counted, OneOwner;
    FinishCounted(x, t);
  }

  lemma FinishOneOwner(x: System, t: nat)
    requires Inv(x) && At(x, t, Leaving)
    ensures OneOwner(Next(x, Finish(t)))
  {
    hide Users, Counted;
    var y := Next(x, Finish(t));
    forall d | d in y.lock.entries && !y.lock.entries[d].token
      ensures exists u :: u in y.callers && Owns(y.callers[u]) && y.callers[u].entry == d
    {
      var u :| u in x.callers && Owns(x.callers[u]) && x.callers[u].entry == d;
      assert Owns(y.callers[u]);
    }
  }

  lemma FinishKeeps(x: System, t: nat)
    requires Inv(x)
    ensures Inv(Next(x, Finish(t)))
  {
    if At(x, t, Leaving) {
      assert x.callers[t].entry in x.lock.entries;
      hide Counted, OneOwner, ReleaseReference;
      FinishCounted(x, t);
      FinishRegistered(x, t);
      FinishOneOwner(x, t);
    }
  }

  lemma StepKeeps(x: System, step: Step)
    requires Inv(x)
    ensures Inv(Next(x, step))
  {
    hide Inv, Register, SetToken, ReleaseReference;
    match step
    case Enter(t, key) => EnterKeeps(x, t, key);
    case CancelWait(t) => if At(x, t, Waiting) { PhaseKeeps(x, t, Leaving); }
    case Take(t) => TakeKeeps(x, t);
    case Admit(t) => if At(x, t, Taken) { PhaseKeeps(x, t, Holding); }
    case Reject(t) => if At(x, t, Taken) { PutBackKeeps(x, t); }
    case Unlock(t) => if At(x, t, Holding) { PutBackKeeps(x, t); }
    case Finish(t) => FinishKeeps(x, t);
  }

  lemma {:induction false} RunKeeps(x: System, steps: seq<Step>)
    requires Inv(x)
    ensures Inv(Run(x, steps))
    decreases |steps|
  {
    hide Inv, Next;
    if steps != [] {
      StepKeeps(x, steps[0]);
      RunKeeps(Next(x, steps[0]), steps[1..]);
    }
  }

  // ----- what callers rely on

  /** At most one caller holds a key, in every run, however often its entry is deleted and re-created. */
  lemma MutualExclusion(steps: seq<Step>, t: nat, u: nat)
    requires
      var x := Run(Start, steps);
      && t in x.callers && u in x.callers && Owns(x.callers[t]) && Owns(x.callers[u])
      && x.callers[t].key == x.callers[u].key
    ensures t == u
  {
    RunKeeps(Start, steps);
  }

  /** The token is in its channel exactly when nobody has it. So a send never blocks: a caller that is
      about to put the token back finds the channel empty. */
  lemma TokenIffFree(steps: seq<Step>, e: EntryId)
    requires e in Run(Start, steps).lock.entries
    ensures
      var x := Run(Start, steps);
      x.lock.entries[e].token <==> !exists t :: t in x.callers && Owns(x.callers[t]) && x.callers[t].entry == e
  {
    RunKeeps(Start, steps);
  }

  /** Nobody waits in vain: while a key has a waiter, some caller has the token or can take it now. */
  lemma NoLostWakeup(steps: seq<Step>, t: nat)
    requires At(Run(Start, steps), t, Waiting)
    ensures
      var x := Run(Start, steps);
      || (exists u :: u in x.callers && Owns(x.callers[u]) && x.callers[u].key == x.callers[t].key)
      || At(Next(x, Take(t)), t, Taken)
  {
    RunKeeps(Start, steps);
    hide Run;
    WaiterCanProceed(Run(Start, steps), t);
  }

  lemma WaiterCanProceed(x: System, t: nat)
    requires Inv(x) && At(x, t, Waiting)
    ensures
      || (exists u :: u in x.callers && Owns(x.callers[u]) && x.callers[u].key == x.callers[t].key)
      || At(Next(x, Take(t)), t, Taken)
  {
    hide Counted, Users;
    var e := x.callers[t].entry;
    if !x.lock.entries[e].token {
      var u :| u in x.callers && Owns(x.callers[u]) && x.callers[u].entry == e;
      assert x.callers[u].key == x.callers[t].key;
    }
  }

  /** An entry's reference count is the number of its holders, waiters and releasers, and a key is in the
      map exactly when it has any. When everybody has left, the map is empty. */
  lemma EntriesAreInUse(steps: seq<Step>, k: Key)
    ensures
      var x := Run(Start, steps);
      && (k in x.lock.locks <==> exists t :: t in x.callers && Present(x.callers[t]) && x.callers[t].key == k)
      && (k in x.lock.locks ==>
            && x.lock.locks[k] in x.lock.entries
            && x.lock.entries[x.lock.locks[k]].references
                 == |set t | t in x.callers && Present(x.callers[t]) && x.callers[t].key == k|)
  {
    RunKeeps(Start, steps);
    hide Run;
    EntryInUse(Run(Start, steps), k);
  }

  lemma EntryInUse(x: System, k: Key)
    requires Inv(x)
    ensures k in x.lock.locks <==> exists t :: t in x.callers && Present(x.callers[t]) && x.callers[t].key == k
    ensures k in x.lock.locks ==>
              && x.lock.locks[k] in x.lock.entries
              && x.lock.entries[x.lock.locks[k]].references
                   == |set t | t in x.callers && Present(x.callers[t]) && x.callers[t].key == k|
  {
    hide OneOwner;
    if k in x.lock.locks {
      var e := x.lock.locks[k];
      var users := Users(x.callers, e);
      SomeMember(users);
      var t :| t in users;
      assert x.callers[t].key == k;
      SameUsers(x, k);
    }
  }

  lemma SameUsers(x: System, k: Key)
    requires Registered(x) && k in x.lock.locks
    ensures Users(x.callers, x.lock.locks[k])
         == set t | t in x.callers && Present(x.callers[t]) && x.callers[t].key == k
  {
    var e := x.lock.locks[k];
    forall t | t in x.callers && Present(x.callers[t]) ensures x.callers[t].entry == e <==> x.callers[t].key == k {
    }
  }

  lemma SomeMember(s: set<nat>)
    requires |s| > 0
    ensures exists t :: t in s
  {
    if s == {} {
      assert false;
    }
  }

  /** Unlocking again, in any later state, changes nothing. */
  lemma {:induction false} RepeatedUnlock(x: System, t: nat, steps: seq<Step>)
    requires t in x.callers && (x.callers[t].phase == Leaving || x.callers[t].phase == Gone)
    ensures Next(Run(x, steps), Unlock(t)) == Run(x, steps)
    ensures t in Run(x, steps).callers
    ensures Run(x, steps).callers[t].phase == Leaving || Run(x, steps).callers[t].phase == Gone
    decreases |steps|
  {
    if steps != [] {
      RepeatedUnlock(Next(x, steps[0]), t, steps[1..]);
    }
  }

  // ----- one caller, undisturbed

  /** A caller of a key nobody uses holds it as soon as it asks, and when it is done the key is gone. */
  lemma UndisturbedUse(x: System, t: nat, key: Key)
    requires t !in x.callers && key !in x.lock.locks
    ensures
      var held := Next(Next(Next(x, Enter(t, key)), Take(t)), Admit(t));
      var y := Next(Next(held, Unlock(t)), Finish(t));
      && At(held, t, Holding) && key in held.lock.locks && At(y, t, Gone) && key !in y.lock.locks
      && (forall k :: k != key ==> (k in y.lock.locks <==> k in x.lock.locks))
      && (forall k :: k in x.lock.locks ==> y.lock.locks[k] == x.lock.locks[k])
  {
  }

  /** A caller that gives up while it waits is counted out and holds nothing. */
  lemma CancelledCallerLeaves(x: System, t: nat)
    requires At(x, t, Waiting)
    ensures
      var y := Next(Next(x, CancelWait(t)), Finish(t));
      At(y, t, Gone) && y.lock == ReleaseReference(x.lock, x.callers[t].key, x.callers[t].entry)
  {
    hide ReleaseReference;
  }
}

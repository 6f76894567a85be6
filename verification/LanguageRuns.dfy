/** Whole runs over the language configurations: versions in every reachable store, paging while creation
    goes on, and idempotent creation by callers that race. */
module LanguageRuns {
  import opened Wrappers
  import opened LanguageConfigs

  // ----- paging

  function Down(n: nat): seq<int> {
    if n == 0 then [] else [n] + Down(n - 1)
  }

  function Versions(configs: seq<Config>): seq<int>
    decreases |configs|
  {
    if configs == [] then [] else [configs[0].version as int] + Versions(configs[1..])
  }

  lemma {:induction false} VersionsAppend(a: seq<Config>, b: seq<Config>)
    ensures Versions(a + b) == Versions(a) + Versions(b)
    decreases |a|
  {
    if a == [] {
      assert a + b == b;
    } else {
      assert (a + b)[1..] == a[1..] + b;
      VersionsAppend(a[1..], b);
    }
  }

  ghost predicate CountedUp(configs: seq<Config>) {
    forall i :: 0 <= i < |configs| ==> configs[i].version == Count(configs[..i], configs[i].session) + 1
  }

  /** The highest version a page can start with. */
  function Top(configs: seq<Config>, session: Id, cursor: Cursor): nat {
    var n := Count(configs, session);
    if cursor.Before? && cursor.version <= n then (if cursor.version > 0 then cursor.version - 1 else 0) else n
  }

  lemma CountedUpPrefix(configs: seq<Config>)
    requires CountedUp(configs) && configs != []
    ensures
      var n := |configs| - 1;
      CountedUp(configs[..n]) && configs[n].version == Count(configs[..n], configs[n].session) + 1
  {
    var n := |configs| - 1;
    var rest := configs[..n];
    forall i | 0 <= i < n ensures rest[i].version == Count(rest[..i], rest[i].session) + 1 {
      assert rest[..i] == configs[..i];
    }
  }

  /** Dropping the last config lowers the top by one if that config matches, and not at all otherwise. */
  lemma TopOfPrefix(configs: seq<Config>, session: Id, cursor: Cursor)
    requires CountedUp(configs) && configs != []
    ensures
      var n := |configs| - 1;
      var top := Top(configs, session, cursor);
      if Matches(configs[n], session, cursor) then
        top == configs[n].version && top == Top(configs[..n], session, cursor) + 1
      else top == Top(configs[..n], session, cursor)
  {
    CountedUpPrefix(configs);
  }

  lemma {:induction false} MatchedCountsDown(configs: seq<Config>, session: Id, cursor: Cursor)
    requires CountedUp(configs)
    ensures Versions(Matched(configs, session, cursor)) == Down(Top(configs, session, cursor))
    decreases |configs|
  {
    if configs != [] {
      var n := |configs| - 1;
      CountedUpPrefix(configs);
      TopOfPrefix(configs, session, cursor);
      hide CountedUp, Count, Top;
      MatchedCountsDown(configs[..n], session, cursor);
      var rest := Matched(configs[..n], session, cursor);
      if Matches(configs[n], session, cursor) {
        assert ([configs[n]] + rest)[1..] == rest;
      } else {
        assert [] + rest == rest;
      }
    }
  }

  lemma {:induction false} DownAt(n: nat, i: nat)
    requires i < n
    ensures |Down(n)| == n && Down(n)[i] == n - i
    ensures Down(n)[i + 1..] == Down(n - i - 1)
    decreases n
  {
    DownLength(n);
    if i > 0 {
      DownAt(n - 1, i - 1);
      assert Down(n)[i + 1..] == Down(n - 1)[i..];
    }
  }

  lemma {:induction false} DownLength(n: nat)
    ensures |Down(n)| == n
  {
    if n > 0 {
      DownLength(n - 1);
    }
  }

  lemma {:induction false} VersionsLength(configs: seq<Config>)
    ensures |Versions(configs)| == |configs|
    ensures forall i :: 0 <= i < |configs| ==> Versions(configs)[i] == configs[i].version
    decreases |configs|
  {
    if configs != [] {
      VersionsLength(configs[1..]);
    }
  }

  /** One page holds the next versions in descending order, and its cursor stands exactly where it stopped. */
  lemma PageCountsDown(configs: seq<Config>, session: Id, cursor: Cursor, limit: int)
    requires CountedUp(configs)
    ensures
      var top := Top(configs, session, cursor);
      var page := PageOf(configs, session, cursor, limit);
      var n := LimitOf(limit);
      if top <= n then Versions(page.items) == Down(top) && page.next == NoCursor
      else Versions(page.items) + Down(top - n) == Down(top) && page.next == Before(top - n + 1)
  {
    var all := Matched(configs, session, cursor);
    var top := Top(configs, session, cursor);
    var n := LimitOf(limit);
    MatchedCountsDown(configs, session, cursor);
    hide Matched, Top, CountedUp;
    VersionsLength(all);
    DownLength(top);
    if top > n {
      DownAt(top, n - 1);
      FirstOf(all, n, top);
    }
  }

  lemma FirstOf(all: seq<Config>, n: nat, top: nat)
    requires Versions(all) == Down(top) && |all| == top && n < top
    requires |Down(top)| == top && Down(top)[n..] == Down(top - n)
    ensures Versions(all[..n]) + Down(top - n) == Down(top)
  {
    hide Down;
    VersionsLength(all);
    VersionsLength(all[..n]);
    assert Versions(all[..n]) == Versions(all)[..n];
    assert Down(top) == Down(top)[..n] + Down(top)[n..];
  }

  /** Reads page after page, each from the store as it is by then. */
  function Follow(stores: seq<seq<Config>>, limits: seq<int>, session: Id, cursor: Cursor): seq<Config>
    requires |stores| == |limits|
    decreases |stores|
  {
    if stores == [] then []
    else
      var page := PageOf(stores[0], session, cursor, limits[0]);
      page.items + if page.next == NoCursor then [] else Follow(stores[1..], limits[1..], session, page.next)
  }

  /** How many configs the pages hold when they are full. */
  function Room(limits: seq<int>): nat
    decreases |limits|
  {
    if limits == [] then 0 else LimitOf(limits[0]) + Room(limits[1..])
  }

  function Least(a: nat, b: nat): nat {
    if a <= b then a else b
  }

  lemma DownSplits(top: nat, n: nat, k: nat)
    requires 0 < n && n < top && k <= top - n
    ensures |Down(top)| == top && |Down(top - n)| == top - n
    ensures Down(top)[..n + k] == Down(top)[..n] + Down(top - n)[..k]
  {
    DownLength(top);
    DownLength(top - n);
    DownAt(top, n - 1);
    assert Down(top)[..n + k] == Down(top)[..n] + Down(top)[n..][..k];
  }

  ghost predicate Grown(stores: seq<seq<Config>>, session: Id, top: nat) {
    forall j :: 0 <= j < |stores| ==> CountedUp(stores[j]) && top <= Count(stores[j], session)
  }

  lemma GrownLater(stores: seq<seq<Config>>, session: Id, top: nat, less: nat)
    requires Grown(stores, session, top) && stores != [] && less <= top
    ensures Grown(stores[1..], session, less)
    ensures CountedUp(stores[0])
    ensures |stores| > 1 && less < top ==> Top(stores[1], session, Before(less + 1)) == less
  {
  }

  lemma {:induction false} FollowCountsDown(
      stores: seq<seq<Config>>, limits: seq<int>, session: Id, cursor: Cursor, top: nat)
    requires |stores| == |limits| && Grown(stores, session, top)
    requires stores != [] ==> Top(stores[0], session, cursor) == top
    ensures |Down(top)| == top
    ensures Versions(Follow(stores, limits, session, cursor)) == Down(top)[..Least(top, Room(limits))]
    decreases |stores|
  {
    hide Count, Top, PageOf, Grown, CountedUp;
    DownLength(top);
    if stores != [] {
      GrownLater(stores, session, top, top);
      PageCountsDown(stores[0], session, cursor, limits[0]);
      var page := PageOf(stores[0], session, cursor, limits[0]);
      var n := LimitOf(limits[0]);
      if top <= n {
        assert page.items + [] == page.items;
      } else {
        GrownLater(stores, session, top, top - n);
        FollowCountsDown(stores[1..], limits[1..], session, page.next, top - n);
        var rest := Follow(stores[1..], limits[1..], session, page.next);
        VersionsAppend(page.items, rest);
        PageIsFirst(Versions(page.items), top, n);
        DownSplits(top, n, Least(top - n, Room(limits[1..])));
      }
    }
  }

  lemma PageIsFirst(page: seq<int>, top: nat, n: nat)
    requires n < top && page + Down(top - n) == Down(top)
    ensures |Down(top)| == top && page == Down(top)[..n]
  {
    DownLength(top);
    DownLength(top - n);
  }

  /** Following the cursors from the first page returns the versions that were there at the start in
      descending order, each once, as many as the pages have room for, even when configs are created
      between the pages and the limits change: all of them exactly when there is room for all. */
  lemma PagingIsComplete(stores: seq<seq<Config>>, limits: seq<int>, session: Id)
    requires |stores| == |limits| && stores != []
    requires forall j :: 0 <= j < |stores| ==>
               Versioned(stores[j]) && Count(stores[0], session) <= Count(stores[j], session)
    ensures
      var n := Count(stores[0], session);
      var seen := Versions(Follow(stores, limits, session, NoCursor));
      && |Down(n)| == n
      && seen == Down(n)[..Least(n, Room(limits))]
      && (seen == Down(n) <==> n <= Room(limits))
  {
    FollowCountsDown(stores, limits, session, NoCursor, Count(stores[0], session));
  }

  /** Creating only adds to what later pages see. */
  lemma CreateGrows(s: Store, input: Input, id: nat, now: Time, session: Id)
    ensures Count(s.configs, session) <= Count(CreateActive(s, input, id, now).0.configs, session)
  {
    CurrentIndexFinds(s.configs, input.session, 0);
    var (after, r) := CreateActive(s, input, id, now);
    if r.Ok? {
      LaterCounts(s.configs, CurrentIndex(s.configs, input.session, 0), now, r.value);
    }
  }

  // ----- callers that race

  datatype Phase = LookingUp | Creating | Rereading | Succeeded(id: nat) | Refused

  datatype Caller = Caller(input: Input, phase: Phase)

  // `made` logs every config made under an idempotency key.
  datatype World = World(store: Store, callers: map<nat, Caller>, made: seq<(Id, nat)>)

  datatype Step =
    | Arrive(c: nat, input: Input)
    | LookUp(c: nat, ready: bool)
    | Create(c: nat, id: nat, now: Time)
    | Reread(c: nat)
    | Leave(c: nat)

  predicate SameRequest(config: Config, input: Input) {
    config.session == input.session && config.fingerprint == input.fingerprint
  }

  function Goto(x: World, c: nat, p: Phase): map<nat, Caller>
    requires c in x.callers
  {
    x.callers[c := x.callers[c].(phase := p)]
  }

  ghost function Existing(x: World, input: Input, otherwise: Phase): Phase {
    match ByKey(x.store, input.key)
    case None => otherwise
    case Some(config) => if SameRequest(config, input) then Succeeded(config.id) else Refused
  }

  /** Steps that are not enabled change nothing. */
  ghost function Next(x: World, step: Step): World {
    match step
    case Arrive(c, input) => if c in x.callers then x else x.(callers := x.callers[c := Caller(input, LookingUp)])
    case LookUp(c, ready) =>
      if c in x.callers && x.callers[c].phase.LookingUp? then
        x.(callers := Goto(x, c, Existing(x, x.callers[c].input, if ready then Creating else Refused)))
      else x
    case Create(c, id, now) =>
      if c in x.callers && x.callers[c].phase.Creating? && IdUnused(x.store.configs, id) then
        var input := x.callers[c].input;
        var (store, r) := CreateActive(x.store, input, id, now);
        World(store,
              Goto(x, c, if r.Ok? then Succeeded(id)
                         else if input.key != "" && r.error == IdempotencyConflict then Rereading else Refused),
              if r.Ok? && input.key != "" then x.made + [(input.key, id)] else x.made)
      else x
    case Reread(c) =>
      if c in x.callers && x.callers[c].phase.Rereading? then
        x.(callers := Goto(x, c, Existing(x, x.callers[c].input, Refused)))
      else x
    case Leave(c) => x.(callers := x.callers - {c})
  }

  ghost function Run(x: World, steps: seq<Step>): World
    decreases |steps|
  {
    if steps == [] then x else Run(Next(x, steps[0]), steps[1..])
  }

  const Start := World(Store([], map[]), map[], [])

  ghost predicate HoldsConfig(configs: seq<Config>, id: nat, input: Input) {
    exists i :: 0 <= i < |configs| && HasId(configs[i], id) && SameRequest(configs[i], input)
  }

  ghost predicate CallersRight(x: World) {
    forall c :: c in x.callers && x.callers[c].phase.Succeeded? ==>
      && HoldsConfig(x.store.configs, x.callers[c].phase.id, x.callers[c].input)
      && (x.callers[c].input.key != "" ==>
            x.callers[c].input.key in x.store.idempo && x.store.idempo[x.callers[c].input.key] == x.callers[c].phase.id)
  }

  ghost predicate MadeOnce(x: World) {
    && (forall i :: 0 <= i < |x.made| ==> x.made[i].0 in x.store.idempo && x.store.idempo[x.made[i].0] == x.made[i].1)
    && (forall i, j :: 0 <= i < j < |x.made| ==> x.made[i].0 != x.made[j].0)
  }

  ghost predicate WorldInv(x: World) {
    StoreInv(x.store) && CallersRight(x) && MadeOnce(x)
  }

  /** Keys stay with their configs, and configs keep their identity and request. */
  lemma CreatePreserves(s: Store, input: Input, id: nat, now: Time, before: nat, i: Input)
    ensures
      var (after, r) := CreateActive(s, input, id, now);
      && (forall k :: k in s.idempo ==> k in after.idempo && after.idempo[k] == s.idempo[k])
      && (HoldsConfig(s.configs, before, i) ==> HoldsConfig(after.configs, before, i))
      && (r.Ok? ==> HoldsConfig(after.configs, id, input))
      && (r.Ok? && input.key != "" ==>
            input.key !in s.idempo && input.key in after.idempo && after.idempo[input.key] == id)
  {
    CurrentIndexFinds(s.configs, input.session, 0);
    var (after, r) := CreateActive(s, input, id, now);
    if HoldsConfig(s.configs, before, i) {
      var j :| 0 <= j < |s.configs| && HasId(s.configs[j], before) && SameRequest(s.configs[j], i);
      assert HasId(after.configs[j], before) && SameRequest(after.configs[j], i);
    }
    if r.Ok? {
      assert HasId(after.configs[|s.configs|], id) && SameRequest(after.configs[|s.configs|], input);
    }
  }

  lemma ExistingIsRight(x: World, input: Input, otherwise: Phase)
    requires !otherwise.Succeeded?
    ensures
      var p := Existing(x, input, otherwise);
      p.Succeeded? ==>
        && HoldsConfig(x.store.configs, p.id, input)
        && input.key in x.store.idempo && x.store.idempo[input.key] == p.id
  {
    var found := ByKey(x.store, input.key);
    if found.Some? && SameRequest(found.value, input) {
      var i :| 0 <= i < |x.store.configs| && HasId(x.store.configs[i], x.store.idempo[input.key])
               && x.store.configs[i] == found.value;
      assert HasId(x.store.configs[i], found.value.id) && SameRequest(x.store.configs[i], input);
    }
  }

  lemma StepKeeps(x: World, step: Step)
    requires WorldInv(x)
    ensures WorldInv(Next(x, step))
  {
    hide StoreInv, ByKey, HoldsConfig, IdUnused;
    match step
    case LookUp(c, ready) =>
      if c in x.callers { ExistingIsRight(x, x.callers[c].input, if ready then Creating else Refused); }
      hide Existing;
    case Reread(c) =>
      if c in x.callers { ExistingIsRight(x, x.callers[c].input, Refused); }
      hide Existing;
    case Create(c, id, now) => CreateStepKeeps(x, c, id, now);
    case _ =>
  }

  lemma CreateKeepsCallers(x: World, c: nat, id: nat, now: Time)
    requires CallersRight(x)
    ensures CallersRight(Next(x, Create(c, id, now)))
  {
    if c in x.callers && x.callers[c].phase.Creating? && IdUnused(x.store.configs, id) {
      var y := Next(x, Create(c, id, now));
      forall d | d in y.callers && y.callers[d].phase.Succeeded?
        ensures HoldsConfig(y.store.configs, y.callers[d].phase.id, y.callers[d].input)
        ensures y.callers[d].input.key != "" ==>
                  && y.callers[d].input.key in y.store.idempo
                  && y.store.idempo[y.callers[d].input.key] == y.callers[d].phase.id
      {
        CreatePreserves(x.store, x.callers[c].input, id, now, y.callers[d].phase.id, y.callers[d].input);
        hide HoldsConfig, CreateActive;
      }
    }
  }

  lemma CreateKeepsMade(x: World, c: nat, id: nat, now: Time)
    requires MadeOnce(x)
    ensures MadeOnce(Next(x, Create(c, id, now)))
  {
    if c in x.callers {
      CreatePreserves(x.store, x.callers[c].input, id, now, id, x.callers[c].input);
    }
    hide HoldsConfig, CreateActive, IdUnused;
  }

  lemma CreateStepKeeps(x: World, c: nat, id: nat, now: Time)
    requires WorldInv(x)
    ensures WorldInv(Next(x, Create(c, id, now)))
  {
    hide StoreInv, CallersRight, MadeOnce, CreateActive, IdUnused;
    CreateKeepsCallers(x, c, id, now);
    CreateKeepsMade(x, c, id, now);
    if c in x.callers && IdUnused(x.store.configs, id) {
      CreateKeeps(x.store, x.callers[c].input, id, now);
    }
  }

  lemma {:induction false} RunKeeps(x: World, steps: seq<Step>)
    requires WorldInv(x)
    ensures WorldInv(Run(x, steps))
    decreases |steps|
  {
    hide WorldInv, Next;
    if steps != [] {
      StepKeeps(x, steps[0]);
      RunKeeps(Next(x, steps[0]), steps[1..]);
    }
  }

  // ----- paging during a run

  lemma StepGrows(x: World, step: Step, session: Id)
    ensures Count(x.store.configs, session) <= Count(Next(x, step).store.configs, session)
  {
    if step.Create? && step.c in x.callers {
      CreateGrows(x.store, x.callers[step.c].input, step.id, step.now, session);
    }
    hide Existing, CreateActive, Count;
  }

  lemma {:induction false} RunGrows(x: World, steps: seq<Step>, session: Id)
    ensures Count(x.store.configs, session) <= Count(Run(x, steps).store.configs, session)
    decreases |steps|
  {
    hide Next, Count;
    if steps != [] {
      StepGrows(x, steps[0], session);
      RunGrows(Next(x, steps[0]), steps[1..], session);
    }
  }

  /** The stores a client sees that reads a page after each of the stretches of a run. */
  ghost function Visited(x: World, between: seq<seq<Step>>): (stores: seq<seq<Config>>)
    ensures |stores| == |between|
    decreases |between|
  {
    if between == [] then []
    else
      var y := Run(x, between[0]);
      [y.store.configs] + Visited(y, between[1..])
  }

  lemma {:induction false} VisitedGrow(x: World, between: seq<seq<Step>>, session: Id)
    requires WorldInv(x)
    ensures forall j :: 0 <= j < |between| ==>
              && Versioned(Visited(x, between)[j])
              && Count(x.store.configs, session) <= Count(Visited(x, between)[j], session)
    decreases |between|
  {
    hide Run, Versioned, Count;
    if between != [] {
      var y := Run(x, between[0]);
      RunKeeps(x, between[0]);
      RunGrows(x, between[0], session);
      VisitedGrow(y, between[1..], session);
      var rest := Visited(y, between[1..]);
      assert Visited(x, between) == [y.store.configs] + rest;
    }
  }

  // ----- the guarantees

  /** A client that follows the cursors gets the versions that were there at its first page in descending
      order, each once, as many as its pages have room for, whatever callers do between the pages: all of
      them exactly when there is room for all. */
  lemma PagingInEveryRun(between: seq<seq<Step>>, limits: seq<int>, session: Id)
    requires |between| == |limits| && between != []
    ensures
      var n := Count(Run(Start, between[0]).store.configs, session);
      var seen := Versions(Follow(Visited(Start, between), limits, session, NoCursor));
      && |Down(n)| == n
      && seen == Down(n)[..Least(n, Room(limits))]
      && (seen == Down(n) <==> n <= Room(limits))
  {
    var y := Run(Start, between[0]);
    var stores := Visited(Start, between);
    RunKeeps(Start, between[0]);
    VisitedGrow(y, between[1..], session);
    assert stores == [y.store.configs] + Visited(y, between[1..]);
    hide Run, Visited, Count, Versioned;
    PagingIsComplete(stores, limits, session);
  }

  /** In every run a session's versions count up from one in the order of creation, and the youngest config
      alone is active. */
  lemma VersionsInEveryRun(steps: seq<Step>, i: nat)
    requires i < |Run(Start, steps).store.configs|
    ensures
      var configs := Run(Start, steps).store.configs;
      && configs[i].version == Count(configs[..i], configs[i].session) + 1
      && (configs[i].status == Active <==>
            forall j :: i < j < |configs| ==> configs[j].session != configs[i].session)
  {
    RunKeeps(Start, steps);
    var configs := Run(Start, steps).store.configs;
    YoungestIffNoneLater(configs, i);
  }

  lemma YoungestIffNoneLater(configs: seq<Config>, i: nat)
    requires Versioned(configs) && i < |configs|
    ensures configs[i].status == Active <==> forall j :: i < j < |configs| ==> configs[j].session != configs[i].session
  {
    var s := configs[i].session;
    assert configs[..|configs|] == configs;
    if j :| i < j < |configs| && configs[j].session == s {
      VersionsIncrease(configs, i, j);
    } else {
      NoneAfter(configs, i + 1, |configs|, s);
      assert configs[..i + 1][..i] == configs[..i];
    }
  }

  lemma {:induction false} NoneAfter(configs: seq<Config>, i: nat, n: nat, s: Id)
    requires i <= n <= |configs|
    requires forall j :: i <= j < n ==> configs[j].session != s
    ensures Count(configs[..n], s) == Count(configs[..i], s)
    decreases n - i
  {
    if i < n {
      assert configs[..n][..n - 1] == configs[..n - 1];
      NoneAfter(configs, i, n - 1, s);
    }
  }

  /** However callers with one idempotency key interleave, every success returns the same config, made for
      the request of each of them. */
  lemma OneConfigPerKey(steps: seq<Step>, c: nat, d: nat)
    requires
      var x := Run(Start, steps);
      && c in x.callers && d in x.callers && x.callers[c].phase.Succeeded? && x.callers[d].phase.Succeeded?
      && x.callers[c].input.key == x.callers[d].input.key != ""
    ensures
      var x := Run(Start, steps);
      && x.callers[c].phase.id == x.callers[d].phase.id
      && x.callers[c].input.session == x.callers[d].input.session
      && x.callers[c].input.fingerprint == x.callers[d].input.fingerprint
  {
    RunKeeps(Start, steps);
    var x := Run(Start, steps);
    assert HoldsConfig(x.store.configs, x.callers[c].phase.id, x.callers[c].input);
    assert HoldsConfig(x.store.configs, x.callers[d].phase.id, x.callers[d].input);
    var i :| 0 <= i < |x.store.configs| && HasId(x.store.configs[i], x.callers[c].phase.id)
             && SameRequest(x.store.configs[i], x.callers[c].input);
    var j :| 0 <= j < |x.store.configs| && HasId(x.store.configs[j], x.callers[d].phase.id)
             && SameRequest(x.store.configs[j], x.callers[d].input);
    assert i == j;
  }

  /** A key makes one config at most, in every run. */
  lemma KeyMakesOneConfig(steps: seq<Step>, i: nat, j: nat)
    requires i < |Run(Start, steps).made| && j < |Run(Start, steps).made|
    requires Run(Start, steps).made[i].0 == Run(Start, steps).made[j].0
    ensures i == j
  {
    RunKeeps(Start, steps);
  }

  /** A caller that loses the race to an identical request gets the winner's config. */
  lemma LoserGetsWinnersConfig(x: World, c: nat, id: nat, now: Time)
    requires WorldInv(x) && IdUnused(x.store.configs, id)
    requires c in x.callers && x.callers[c].phase.Creating?
    requires
      var found := ByKey(x.store, x.callers[c].input.key);
      found.Some? && SameRequest(found.value, x.callers[c].input)
    ensures
      var y := Next(Next(x, Create(c, id, now)), Reread(c));
      && y.store == x.store
      && y.callers[c].phase == Succeeded(ByKey(x.store, x.callers[c].input.key).value.id)
  {
    hide StoreInv, Find;
  }
}

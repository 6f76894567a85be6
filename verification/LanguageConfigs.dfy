/** Versioned language configurations: each session has one active version, creating another supersedes
    it, idempotency keys make creation repeatable, and cursors page through the history. */
module LanguageConfigs {
  import opened Wrappers

  type Id = string

  type Time = int

  datatype Status = Active | Superseded

  datatype Config = Config(
    id: nat, session: Id, version: nat, body: Id, status: Status, from: Time, until: Option<Time>, author: Id,
    fingerprint: Id)

  datatype Store = Store(configs: seq<Config>, idempo: map<Id, nat>)

  datatype Input = Input(session: Id, body: Id, author: Id, key: Id, expected: Option<int>, fingerprint: Id)

  datatype Error = IdempotencyConflict | VersionConflict | NoActiveConfig | InvalidRequest

  // ----- what the store holds for a session

  function Count(configs: seq<Config>, s: Id): nat
    decreases |configs|
  {
    if configs == [] then 0
    else Count(configs[..|configs| - 1], s) + if configs[|configs| - 1].session == s then 1 else 0
  }

  predicate IsCurrent(c: Config, s: Id) {
    c.session == s && c.status == Active
  }

  /** Versions count up from one in the order of creation, and only the last one of a session is active. */
  ghost predicate Versioned(configs: seq<Config>) {
    && (forall i :: 0 <= i < |configs| ==> configs[i].version == Count(configs[..i], configs[i].session) + 1)
    && (forall i :: 0 <= i < |configs| ==>
          (configs[i].status == Active <==> configs[i].version == Count(configs, configs[i].session)))
    && (forall i :: 0 <= i < |configs| ==> (configs[i].status == Active <==> configs[i].until.None?))
  }

  ghost predicate Keyed(s: Store) {
    && (forall i, j :: 0 <= i < j < |s.configs| ==> s.configs[i].id != s.configs[j].id)
    && (forall k :: k in s.idempo ==> exists i :: 0 <= i < |s.configs| && s.configs[i].id == s.idempo[k])
  }

  ghost predicate StoreInv(s: Store) {
    Versioned(s.configs) && Keyed(s)
  }

  predicate IdUnused(configs: seq<Config>, id: nat) {
    forall i :: 0 <= i < |configs| ==> configs[i].id != id
  }

  lemma {:induction false} CountPrefix(configs: seq<Config>, i: nat, j: nat, s: Id)
    requires i <= j <= |configs|
    ensures Count(configs[..i], s) <= Count(configs[..j], s)
    ensures i < j && configs[i].session == s ==> Count(configs[..i], s) < Count(configs[..j], s)
    decreases j - i
  {
    if i < j {
      assert configs[..j][..j - 1] == configs[..j - 1];
      assert configs[..i + 1][..i] == configs[..i];
      if i + 1 < j {
        CountPrefix(configs, i, j - 1, s);
      } else {
        assert configs[..j][..i] == configs[..i];
      }
    }
  }

  /** Two configs of a session never share a version, and later ones have higher versions. */
  lemma VersionsIncrease(configs: seq<Config>, i: nat, j: nat)
    requires Versioned(configs)
    requires i < j < |configs| && configs[i].session == configs[j].session
    ensures configs[i].version < configs[j].version <= Count(configs, configs[j].session)
  {
    CountPrefix(configs, i, j, configs[i].session);
    CountPrefix(configs, j, |configs|, configs[j].session);
    assert configs[..|configs|] == configs;
  }

  // ----- creating

  function CurrentIndex(configs: seq<Config>, s: Id, i: nat): int
    requires i <= |configs|
    decreases |configs| - i
  {
    if i == |configs| then -1 else if IsCurrent(configs[i], s) then i else CurrentIndex(configs, s, i + 1)
  }

  lemma {:induction false} CurrentIndexFinds(configs: seq<Config>, s: Id, i: nat)
    requires i <= |configs|
    ensures
      var k := CurrentIndex(configs, s, i);
      if k < 0 then k == -1 && forall j :: i <= j < |configs| ==> !IsCurrent(configs[j], s)
      else i <= k < |configs| && IsCurrent(configs[k], s) && forall j :: i <= j < k ==> !IsCurrent(configs[j], s)
    decreases |configs| - i
  {
    if i < |configs| && !IsCurrent(configs[i], s) {
      CurrentIndexFinds(configs, s, i + 1);
    }
  }

  function Superseding(configs: seq<Config>, k: int, now: Time): seq<Config>
    requires k < |configs|
  {
    if k < 0 then configs else configs[k := configs[k].(status := Superseded, until := Some(now))]
  }

  function CreateActive(s: Store, input: Input, id: nat, now: Time): (Store, Result<Config, Error>) {
    if input.key != "" && input.key in s.idempo then (s, Err(IdempotencyConflict))
    else
      CurrentIndexFinds(s.configs, input.session, 0);
      var k := CurrentIndex(s.configs, input.session, 0);
      var version := if k < 0 then 1 else s.configs[k].version + 1;
      if input.expected.Some? && (k < 0 || s.configs[k].version != input.expected.value) then (s, Err(VersionConflict))
      else
        var c := Config(id, input.session, version, input.body, Active, now, None, input.author, input.fingerprint);
        (Store(Superseding(s.configs, k, now) + [c],
               if input.key != "" then s.idempo[input.key := id] else s.idempo),
         Ok(c))
  }

  predicate HasId(c: Config, id: nat) {
    c.id == id
  }

  ghost function Find(configs: seq<Config>, id: nat): Option<Config> {
    if i :| 0 <= i < |configs| && HasId(configs[i], id) then Some(configs[i]) else None
  }

  ghost function ByKey(s: Store, key: Id): Option<Config> {
    if key == "" || key !in s.idempo then None else Find(s.configs, s.idempo[key])
  }

  // ----- paging

  datatype Cursor = NoCursor | Before(version: int) | Garbled

  function LimitOf(limit: int): nat {
    if limit <= 0 then 20 else if limit > 100 then 100 else limit
  }

  predicate Matches(c: Config, session: Id, cursor: Cursor) {
    c.session == session && (cursor.Before? ==> c.version < cursor.version)
  }

  /** The matching configs, youngest first. */
  function Matched(configs: seq<Config>, session: Id, cursor: Cursor): seq<Config>
    decreases |configs|
  {
    if configs == [] then []
    else
      var last := configs[|configs| - 1];
      (if Matches(last, session, cursor) then [last] else []) + Matched(configs[..|configs| - 1], session, cursor)
  }

  datatype Page = Page(items: seq<Config>, next: Cursor)

  function PageOf(configs: seq<Config>, session: Id, cursor: Cursor, limit: int): Page {
    var all := Matched(configs, session, cursor);
    var n := LimitOf(limit);
    if |all| > n then Page(all[..n], Before(all[n - 1].version)) else Page(all, NoCursor)
  }

  // ----- the store as it works on its slice and map

  class MemoryStore {
    var configs: seq<Config>
    var idempo: map<Id, nat>

    ghost function State(): Store
      reads this
    {
      Store(configs, idempo)
    }

    ghost predicate Valid()
      reads this
    {
      StoreInv(State())
    }

    constructor ()
      ensures Valid() && State() == Store([], map[])
    {
      configs, idempo := [], map[];
    }

    method CreateActiveConfig(input: Input, id: nat, now: Time) returns (r: Result<Config, Error>)
      requires Valid() && IdUnused(configs, id)
      modifies this
      ensures Valid()
      ensures (State(), r) == CreateActive(old(State()), input, id, now)
    {
      hide StoreInv, IdUnused;
      CreateKeeps(State(), input, id, now);
      if input.key != "" && input.key in idempo { return Err(IdempotencyConflict); }
      var currentIdx := FindCurrent(input.session);
      CurrentIndexFinds(configs, input.session, 0);
      hide CurrentIndex;
      var nextVersion := 1;
      if currentIdx >= 0 { nextVersion := configs[currentIdx].version + 1; }
      if input.expected.Some? {
        if currentIdx < 0 || configs[currentIdx].version != input.expected.value { return Err(VersionConflict); }
      }
      if currentIdx >= 0 {
        configs := configs[currentIdx := configs[currentIdx].(status := Superseded, until := Some(now))];
      }
      var cfg := Config(id, input.session, nextVersion, input.body, Active, now, None, input.author, input.fingerprint);
      configs := configs + [cfg];
      if input.key != "" { idempo := idempo[input.key := id]; }
      return Ok(cfg);
    }

    /** The first active config of the session, or -1. */
    method FindCurrent(session: Id) returns (index: int)
      ensures index == CurrentIndex(configs, session, 0)
    {
      var i := 0;
      while i < |configs|
        invariant i <= |configs|
        invariant CurrentIndex(configs, session, i) == CurrentIndex(configs, session, 0)
      {
        if configs[i].session == session && configs[i].status == Active { return i; }
        i := i + 1;
      }
      return -1;
    }

    method GetConfigByIdempotencyKey(key: Id) returns (r: Option<Config>)
      requires Valid()
      ensures r == ByKey(State(), key)
      ensures r.Some? <==> key != "" && key in idempo
    {
      if key == "" || key !in idempo { return None; }
      var id := idempo[key];
      var i := 0;
      while i < |configs|
        invariant i <= |configs|
        invariant forall j :: 0 <= j < i ==> configs[j].id != id
      {
        if configs[i].id == id {
          FindIs(configs, i);
          return Some(configs[i]);
        }
        i := i + 1;
      }
      assert false;
    }

    method ListConfigs(session: Id, cursor: Cursor, limit: int) returns (r: Result<Page, Error>)
      ensures r == if cursor.Garbled? then Err(InvalidRequest) else Ok(PageOf(configs, session, cursor, limit))
    {
      var bound := limit;
      if bound <= 0 { bound := 20; }
      if bound > 100 { bound := 100; }
      if cursor.Garbled? { return Err(InvalidRequest); }
      var matched := Collect(session, cursor);
      if |matched| > bound {
        return Ok(Page(matched[..bound], Before(matched[bound - 1].version)));
      }
      return Ok(Page(matched, NoCursor));
    }

    /** Walks the slice backwards. */
    method Collect(session: Id, cursor: Cursor) returns (matched: seq<Config>)
      ensures matched == Matched(configs, session, cursor)
    {
      matched := [];
      var i := |configs|;
      assert configs[..i] == configs;
      while i > 0
        invariant 0 <= i <= |configs|
        invariant matched + Matched(configs[..i], session, cursor) == Matched(configs, session, cursor)
      {
        i := i - 1;
        var cfg := configs[i];
        ghost var rest := Matched(configs[..i], session, cursor);
        assert configs[..i + 1][..i] == configs[..i];
        assert matched + ([cfg] + rest) == (matched + [cfg]) + rest;
        assert [] + rest == rest;
        if cfg.session != session { continue; }
        if cursor.Before? && cfg.version >= cursor.version { continue; }
        matched := matched + [cfg];
      }
    }
  }

  lemma FindIs(configs: seq<Config>, i: nat)
    requires forall a, b :: 0 <= a < b < |configs| ==> configs[a].id != configs[b].id
    requires i < |configs|
    ensures Find(configs, configs[i].id) == Some(configs[i])
  {
    assert HasId(configs[i], configs[i].id);
  }

  // ----- what creation keeps

  lemma {:induction false} CountSameSessions(a: seq<Config>, b: seq<Config>, s: Id)
    requires |a| == |b| && forall i :: 0 <= i < |a| ==> a[i].session == b[i].session
    ensures Count(a, s) == Count(b, s)
    decreases |a|
  {
    if a != [] {
      CountSameSessions(a[..|a| - 1], b[..|b| - 1], s);
    }
  }

  /** The active config of a session, if there is any config, is its youngest. */
  lemma {:induction false} CurrentIsYoungest(configs: seq<Config>, s: Id)
    requires Versioned(configs)
    ensures
      var k := CurrentIndex(configs, s, 0);
      && -1 <= k < |configs|
      && (k < 0 <==> Count(configs, s) == 0)
      && (k >= 0 ==> IsCurrent(configs[k], s) && configs[k].version == Count(configs, s))
  {
    CurrentIndexFinds(configs, s, 0);
    if Count(configs, s) > 0 {
      assert configs[..|configs|] == configs;
      var i := YoungestOf(configs, |configs|, s);
      assert IsCurrent(configs[i], s);
    }
    var k := CurrentIndex(configs, s, 0);
    if k >= 0 {
      CountPrefix(configs, k, |configs|, s);
      assert configs[..|configs|] == configs;
    }
  }

  lemma {:induction false} YoungestOf(configs: seq<Config>, n: nat, s: Id) returns (i: nat)
    requires n <= |configs| && Count(configs[..n], s) > 0
    ensures i < n && configs[i].session == s && Count(configs[..i], s) + 1 == Count(configs[..n], s)
    decreases n
  {
    assert configs[..n][..n - 1] == configs[..n - 1];
    if configs[n - 1].session == s {
      i := n - 1;
    } else {
      i := YoungestOf(configs, n - 1, s);
    }
  }

  lemma LaterCounts(configs: seq<Config>, k: int, now: Time, c: Config)
    requires k < |configs|
    ensures
      var later := Superseding(configs, k, now) + [c];
      && (forall i, t :: 0 <= i <= |configs| ==> Count(later[..i], t) == Count(configs[..i], t))
      && (forall t :: Count(later, t) == Count(configs, t) + if t == c.session then 1 else 0)
  {
    var later := Superseding(configs, k, now) + [c];
    forall i, t | 0 <= i <= |configs| ensures Count(later[..i], t) == Count(configs[..i], t) {
      CountSameSessions(later[..i], configs[..i], t);
    }
    assert later[..|configs|] == later[..|later| - 1] && configs[..|configs|] == configs;
  }

  lemma OthersAreSuperseded(configs: seq<Config>, s: Id, k: int)
    requires Versioned(configs)
    requires -1 <= k < |configs| && (k < 0 <==> Count(configs, s) == 0)
    requires k >= 0 ==> IsCurrent(configs[k], s)
    ensures forall i :: 0 <= i < |configs| && i != k && configs[i].session == s ==> configs[i].status != Active
  {
    forall i | 0 <= i < |configs| && i != k && configs[i].session == s ensures configs[i].status != Active {
      CountPrefix(configs, i, |configs|, s);
      assert configs[..|configs|] == configs;
      if i < k { VersionsIncrease(configs, i, k); } else { VersionsIncrease(configs, k, i); }
    }
  }

  lemma VersionsBounded(configs: seq<Config>)
    requires Versioned(configs)
    ensures forall i :: 0 <= i < |configs| ==> configs[i].version <= Count(configs, configs[i].session)
  {
    forall i | 0 <= i < |configs| ensures configs[i].version <= Count(configs, configs[i].session) {
      CountPrefix(configs, i, |configs|, configs[i].session);
      assert configs[..|configs|] == configs;
    }
  }

  lemma LaterVersions(configs: seq<Config>, k: int, now: Time, c: Config)
    requires Versioned(configs) && k < |configs|
    requires c.version == Count(configs, c.session) + 1
    ensures
      var later := Superseding(configs, k, now) + [c];
      forall i :: 0 <= i < |later| ==> later[i].version == Count(later[..i], later[i].session) + 1
  {
    LaterCounts(configs, k, now, c);
    assert configs[..|configs|] == configs;
    hide Count;
  }

  lemma LaterStatuses(configs: seq<Config>, k: int, now: Time, c: Config)
    requires Versioned(configs) && -1 <= k < |configs|
    requires k < 0 <==> Count(configs, c.session) == 0
    requires k >= 0 ==> IsCurrent(configs[k], c.session)
    requires c.version == Count(configs, c.session) + 1 && c.status == Active && c.until.None?
    ensures
      var later := Superseding(configs, k, now) + [c];
      && (forall i :: 0 <= i < |later| ==>
            (later[i].status == Active <==> later[i].version == Count(later, later[i].session)))
      && (forall i :: 0 <= i < |later| ==> (later[i].status == Active <==> later[i].until.None?))
  {
    hide Count;
    LaterCounts(configs, k, now, c);
    OthersAreSuperseded(configs, c.session, k);
    VersionsBounded(configs);
  }

  lemma CreateKeepsVersions(s: Store, input: Input, id: nat, now: Time)
    requires Versioned(s.configs)
    ensures Versioned(CreateActive(s, input, id, now).0.configs)
  {
    var (after, r) := CreateActive(s, input, id, now);
    if r.Ok? {
      CurrentIsYoungest(s.configs, input.session);
      var k := CurrentIndex(s.configs, input.session, 0);
      LaterVersions(s.configs, k, now, r.value);
      LaterStatuses(s.configs, k, now, r.value);
      hide Count, Superseding;
    }
  }

  lemma CreateKeepsKeys(s: Store, input: Input, id: nat, now: Time)
    requires Keyed(s) && IdUnused(s.configs, id)
    ensures Keyed(CreateActive(s, input, id, now).0)
  {
    var (after, r) := CreateActive(s, input, id, now);
    CurrentIndexFinds(s.configs, input.session, 0);
    if r.Ok? {
      var n := |s.configs|;
      assert after.configs[n].id == id;
      assert forall i :: 0 <= i < n ==> after.configs[i].id == s.configs[i].id;
      forall k | k in after.idempo
        ensures exists i :: 0 <= i < |after.configs| && after.configs[i].id == after.idempo[k]
      {
        if k in s.idempo && !(input.key != "" && k == input.key) {
          var i :| 0 <= i < |s.configs| && s.configs[i].id == s.idempo[k];
          assert after.configs[i].id == after.idempo[k];
        }
      }
    }
  }

  lemma CreateKeeps(s: Store, input: Input, id: nat, now: Time)
    requires StoreInv(s) && IdUnused(s.configs, id)
    ensures StoreInv(CreateActive(s, input, id, now).0)
  {
    hide Versioned, Keyed, CreateActive;
    CreateKeepsVersions(s, input, id, now);
    CreateKeepsKeys(s, input, id, now);
  }
}

/** What creating a language configuration answers and leaves in the store, case by case. */
module LanguageOutcomes {
  import opened Wrappers
  import opened LanguageConfigs
  import opened LanguageRuns

  /** The same configuration, no longer in force since that time. */
  predicate SupersededAt(before: Config, after: Config, at: Time) {
    && after.status == Superseded && after.until == Some(at)
    && after.id == before.id && after.session == before.session && after.version == before.version
    && after.body == before.body && after.from == before.from && after.author == before.author
    && after.fingerprint == before.fingerprint
  }

  /** A used key is refused, whatever it asks for. Otherwise a caller that expects a version is refused
      exactly if that is not the number of versions its session has, or it has none. */
  lemma CreateRefusals(s: Store, input: Input, id: nat, now: Time)
    requires StoreInv(s)
    ensures
      var (after, r) := CreateActive(s, input, id, now);
      var n := Count(s.configs, input.session);
      var used := input.key != "" && input.key in s.idempo;
      && (r == Err(IdempotencyConflict) <==> used)
      && (r == Err(VersionConflict) <==> !used && input.expected.Some? && (n == 0 || input.expected.value != n))
      && (r.Ok? <==> !used && (input.expected.None? || (n > 0 && input.expected.value == n)))
      && (r.Err? ==> after == s)
  {
    CurrentIsYoungest(s.configs, input.session);
    hide CurrentIndex, Count;
  }

  /** A created configuration is the next version of its session and in force from now on; the one in force
      before is superseded, all others stay, and the key leads to the new one. */
  lemma CreateOutcome(s: Store, input: Input, id: nat, now: Time)
    requires StoreInv(s) && CreateActive(s, input, id, now).1.Ok?
    ensures
      var (after, r) := CreateActive(s, input, id, now);
      && |after.configs| == |s.configs| + 1 && after.configs[|s.configs|] == r.value
      && r.value.id == id && r.value.session == input.session && r.value.body == input.body
      && r.value.version == Count(s.configs, input.session) + 1
      && r.value.status == Active && r.value.from == now && r.value.until.None?
      && r.value.author == input.author && r.value.fingerprint == input.fingerprint
      && (forall i :: 0 <= i < |s.configs| ==>
            if IsCurrent(s.configs[i], input.session) then SupersededAt(s.configs[i], after.configs[i], now)
            else after.configs[i] == s.configs[i])
      && after.idempo.Keys == s.idempo.Keys + (if input.key != "" then {input.key} else {})
      && (input.key != "" ==> after.idempo[input.key] == id)
      && (forall k :: k in s.idempo && k != input.key ==> after.idempo[k] == s.idempo[k])
  {
    CurrentIsYoungest(s.configs, input.session);
    CurrentIndexFinds(s.configs, input.session, 0);
    OnlyOneCurrent(s.configs, input.session);
    hide CurrentIndex, Count;
  }

  /** A session has one configuration in force at most. */
  lemma OnlyOneCurrent(configs: seq<Config>, s: Id)
    requires Versioned(configs)
    ensures forall i, j :: 0 <= i < j < |configs| && configs[j].session == s ==> !IsCurrent(configs[i], s)
  {
    forall i: nat, j: nat | i < j < |configs| && configs[i].session == configs[j].session == s
      ensures !IsCurrent(configs[i], s)
    {
      VersionsIncrease(configs, i, j);
    }
  }

  /** A key leads to the one configuration that was created under it. */
  lemma KeyLeadsTo(s: Store, key: Id)
    requires StoreInv(s)
    ensures ByKey(s, key).Some? <==> key != "" && key in s.idempo
    ensures ByKey(s, key).Some? ==> ByKey(s, key).value in s.configs && ByKey(s, key).value.id == s.idempo[key]
  {
    if key != "" && key in s.idempo {
      var i :| 0 <= i < |s.configs| && s.configs[i].id == s.idempo[key];
      FindIs(s.configs, i);
    }
    hide Versioned;
  }

  /** Pages hold twenty configurations unless asked for another number, up to a hundred. */
  lemma LimitOutcome(limit: int)
    ensures 1 <= LimitOf(limit) <= 100
    ensures LimitOf(limit) == limit <==> 1 <= limit <= 100
    ensures limit <= 0 ==> LimitOf(limit) == 20
    ensures limit >= 100 ==> LimitOf(limit) == 100
  {
  }

  // ----- one caller, undisturbed

  /** What a request comes to when nobody interferes. Under a used key it gets the config made under it, exactly
      if that was made for the same request. Otherwise a config is made for it exactly if the service is ready
      and the version it expects, if any, is its session's latest. All else is refused and changes nothing. */
  lemma UndisturbedRequest(x: World, c: nat, input: Input, ready: bool, id: nat, now: Time)
    requires StoreInv(x.store) && c !in x.callers && IdUnused(x.store.configs, id)
    ensures
      var y := Next(Next(Next(x, Arrive(c, input)), LookUp(c, ready)), Create(c, id, now));
      var found := ByKey(x.store, input.key);
      var n := Count(x.store.configs, input.session);
      var timely := input.expected.None? || (n > 0 && input.expected.value == n);
      && c in y.callers && (y.callers[c].phase.Succeeded? || y.callers[c].phase.Refused?)
      && (found.Some? ==>
            && y.store == x.store && y.made == x.made
            && (y.callers[c].phase == Succeeded(found.value.id) <==> SameRequest(found.value, input))
            && (y.callers[c].phase.Refused? <==> !SameRequest(found.value, input)))
      && (found.None? ==>
            && (y.callers[c].phase == Succeeded(id) <==> ready && timely)
            && (y.callers[c].phase.Refused? <==> !ready || !timely)
            && y.store == (if ready && timely then CreateActive(x.store, input, id, now).0 else x.store)
            && y.made == x.made + if ready && timely && input.key != "" then [(input.key, id)] else [])
  {
    KeyLeadsTo(x.store, input.key);
    CreateRefusals(x.store, input, id, now);
    hide StoreInv, ByKey, CreateActive, Count;
  }

  /** A caller that looks again gets the config made under its key for its request, and is refused otherwise; one
      that leaves is forgotten. Neither touches the store. */
  lemma RereadOutcome(x: World, c: nat)
    requires c in x.callers && x.callers[c].phase.Rereading?
    ensures
      var y := Next(x, Reread(c));
      var found := ByKey(x.store, x.callers[c].input.key);
      var same := found.Some? && SameRequest(found.value, x.callers[c].input);
      && y.store == x.store && y.made == x.made && y.callers.Keys == x.callers.Keys
      && y.callers[c].phase == if same then Succeeded(found.value.id) else Refused
    ensures Next(x, Leave(c)) == x.(callers := x.callers - {c})
  {
    hide ByKey;
  }
}

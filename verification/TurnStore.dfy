/** Final translation turns: stored once under three unique keys, with an attribution that may be
    corrected later. A payload hash is taken to determine its payload, so it is modelled by the payload. */
module TurnStore {
  import opened Wrappers

  type Id = string

  type Time = int

  datatype Attribution = Pending | Provisional | Confirmed | Corrected

  datatype Speaker = Speaker(code: Id, name: Option<Id>, provider: Option<Id>, profile: Option<Id>)

  datatype Translation = Translation(
    sourceLanguage: Id, targetLanguage: Id, configVersion: int, source: Id, translated: Id,
    startedAt: Time, endedAt: Time, occurredAt: Time)

  datatype Routes = Routes(tts: bool, delivery: bool, trigger: Id)

  datatype Event = Event(
    eventId: Id, traceId: Id, turnId: Id, session: Id, sequence: int, participant: Option<Id>, speaker: Speaker,
    text: Translation, routes: Routes, confidence: Option<int>, status: Attribution)

  datatype Correction = Correction(author: Id, at: Time)

  datatype Row = Row(
    eventId: Id, hash: Event, session: Id, sequence: int, participant: Option<Id>, speaker: Speaker,
    text: Translation, confidence: Option<int>, status: Attribution, corrected: Option<Correction>)

  datatype TaskStatus = Queued | Processing | Completed | Failed

  // One attribution task per turn, named after it.
  datatype Task = Task(
    session: Id, status: TaskStatus, availableAt: Time, receipt: Option<Id>, lockedUntil: Time, attempts: nat,
    lastError: Option<Id>)

  // `participants` are the speakers known in each session.
  datatype Db = Db(
    turns: map<Id, Row>, tasks: map<Id, Task>, participants: map<(Id, Id), Speaker>, sessions: set<Id>, now: Time)

  datatype Error = InvalidRequest | Conflict | NotFound | InvalidAttribution | StaleAttribution | Transient

  // ----- replays

  /** Hashes written by consumers that did not yet know the route fields are accepted as well. */
  function LegacyForms(e: Event): seq<Event> {
    var r := e.routes;
    (if r.trigger != "" then [e.(routes := r.(trigger := ""))] else [])
    + (if r.tts || r.delivery then
         [e.(routes := r.(tts := false, delivery := false))]
         + (if r.trigger != "" then [e.(routes := Routes(false, false, ""))] else [])
       else [])
  }

  predicate HashMatches(e: Event, stored: Event) {
    stored == e || stored in LegacyForms(e)
  }

  predicate Collides(row: Row, t: Id, e: Event) {
    row.eventId == e.eventId || t == e.turnId || (row.session == e.session && row.sequence == e.sequence)
  }

  predicate IsFresh(db: Db, e: Event) {
    forall t :: t in db.turns ==> !Collides(db.turns[t], t, e)
  }

  predicate IsReplay(db: Db, e: Event) {
    !IsFresh(db, e) && forall t :: t in db.turns && Collides(db.turns[t], t, e) ==> HashMatches(e, db.turns[t].hash)
  }

  // ----- storing

  predicate Blank(s: Id) {
    forall i :: 0 <= i < |s| ==> s[i] in {' ', '\t', '\n', '\r'}
  }

  predicate ShouldEnqueue(e: Event) {
    (e.status == Pending || e.status == Provisional) && e.speaker.provider.Some? && !Blank(e.speaker.provider.value)
  }

  function RowOf(e: Event): Row {
    Row(e.eventId, e, e.session, e.sequence, e.participant, e.speaker.(profile := None), e.text,
        e.confidence, e.status, None)
  }

  function NewTask(session: Id, now: Time): Task {
    Task(session, Queued, now, None, 0, 0, None)
  }

  /** A duplicate turn keeps its task; an unknown session, or a task of another one, is an error. */
  function Enqueue(db: Db, turn: Id, session: Id): (Db, bool) {
    if session !in db.sessions then (db, false)
    else if turn in db.tasks then (db, db.tasks[turn].session == session)
    else (db.(tasks := db.tasks[turn := NewTask(session, db.now)]), true)
  }

  predicate ParticipantKnown(db: Db, e: Event) {
    e.participant.Some? ==> (e.session, e.participant.value) in db.participants
  }

  function StoreFinalTurn(db: Db, e: Event): (Db, Result<(), Error>) {
    if !IsFresh(db, e) then (db, if IsReplay(db, e) then Ok(()) else Err(Conflict))
    else if !ParticipantKnown(db, e) then (db, Err(NotFound))
    else
      var stored := db.(turns := db.turns[e.turnId := RowOf(e)]);
      if !ShouldEnqueue(e) then (stored, Ok(()))
      else
        var (queued, ok) := Enqueue(stored, e.turnId, e.session);
        if ok then (queued, Ok(())) else (db, Err(NotFound))
  }

  // ----- correcting the attribution

  datatype Update = Update(
    turn: Id, participant: Id, status: Attribution, confidenceSet: bool, confidence: Option<int>, at: Time,
    onlyIfUnresolved: bool)

  predicate Unresolved(status: Attribution) {
    status == Pending || status == Provisional
  }

  function Attributed(row: Row, u: Update, target: Speaker): Row {
    row.(participant := Some(u.participant), speaker := target, status := u.status,
         confidence := if u.confidenceSet then u.confidence else row.confidence,
         corrected := Some(Correction("system", u.at)))
  }

  function CorrectAttribution(db: Db, u: Update): (Db, Result<Row, Error>) {
    if u.turn == "" || u.participant == "" || (u.status != Confirmed && u.status != Corrected) then
      (db, Err(InvalidAttribution))
    else if u.turn !in db.turns then (db, Err(NotFound))
    else
      var row := db.turns[u.turn];
      if (row.session, u.participant) !in db.participants then (db, Err(InvalidAttribution))
      else if u.onlyIfUnresolved && !Unresolved(row.status) then (db, Err(StaleAttribution))
      else
        var after := Attributed(row, u, db.participants[(row.session, u.participant)]);
        (db.(turns := db.turns[u.turn := after]), Ok(after))
  }

  // ----- the writer as it works on its tables

  class TurnWriter {
    var turns: map<Id, Row>
    var tasks: map<Id, Task>
    var participants: map<(Id, Id), Speaker>
    var sessions: set<Id>
    var now: Time

    ghost function State(): Db
      reads this
    {
      Db(turns, tasks, participants, sessions, now)
    }

    constructor ()
      ensures turns == map[] && tasks == map[]
    {
      turns, tasks := map[], map[];
    }

    /** Inserts unless a unique key is taken; a taken key must belong to a replay of the same payload. */
    method Store(e: Event) returns (r: Result<(), Error>)
      modifies this
      ensures (State(), r) == StoreFinalTurn(old(State()), e)
    {
      var taken := exists t :: t in turns && Collides(turns[t], t, e);
      assert taken <==> !IsFresh(State(), e);
      if taken {
        r := VerifyReplay(e);
        return;
      }
      if e.participant.Some? && (e.session, e.participant.value) !in participants { return Err(NotFound); }
      var before := turns;
      turns := turns[e.turnId := RowOf(e)];
      if ShouldEnqueue(e) {
        var ok := EnqueueTask(e.turnId, e.session);
        if !ok {
          turns := before;
          return Err(NotFound);
        }
      }
      return Ok(());
    }

    method EnqueueTask(turn: Id, session: Id) returns (ok: bool)
      modifies this
      ensures (State(), ok) == Enqueue(old(State()), turn, session)
    {
      if session !in sessions { return false; }
      if turn in tasks { return tasks[turn].session == session; }
      tasks := tasks[turn := NewTask(session, now)];
      return true;
    }

    /** Compares the payload with every stored row that shares one of its keys. */
    method VerifyReplay(e: Event) returns (r: Result<(), Error>)
      requires !IsFresh(State(), e)
      ensures r == if IsReplay(State(), e) then Ok(()) else Err(Conflict)
    {
      var left := set t | t in turns && Collides(turns[t], t, e);
      while left != {}
        invariant forall t :: t in left ==> t in turns && Collides(turns[t], t, e)
        invariant forall t :: t in turns && Collides(turns[t], t, e) && t !in left ==> HashMatches(e, turns[t].hash)
        decreases left
      {
        var t :| t in left;
        left := left - {t};
        if !HashMatches(e, turns[t].hash) { return Err(Conflict); }
      }
      return Ok(());
    }

    method Correct(u: Update) returns (r: Result<Row, Error>)
      modifies this
      ensures (State(), r) == CorrectAttribution(old(State()), u)
    {
      if u.turn == "" || u.participant == "" { return Err(InvalidAttribution); }
      if u.status != Confirmed && u.status != Corrected { return Err(InvalidAttribution); }
      if u.turn !in turns { return Err(NotFound); }
      var row := turns[u.turn];
      if (row.session, u.participant) !in participants { return Err(InvalidAttribution); }
      if u.onlyIfUnresolved && row.status != Pending && row.status != Provisional { return Err(StaleAttribution); }
      var target := participants[(row.session, u.participant)];
      row := row.(participant := Some(u.participant), speaker := target, status := u.status);
      if u.confidenceSet { row := row.(confidence := u.confidence); }
      row := row.(corrected := Some(Correction("system", u.at)));
      turns := turns[u.turn := row];
      return Ok(row);
    }
  }

  // ----- what always holds

  /** Rows are unique on each of the three keys. */
  ghost predicate KeysUnique(turns: map<Id, Row>) {
    forall t, u :: t in turns && u in turns && t != u ==>
      && turns[t].eventId != turns[u].eventId
      && !(turns[t].session == turns[u].session && turns[t].sequence == turns[u].sequence)
  }

  /** A row still carries the keys and the translation of the payload it was stored from. */
  ghost predicate Genuine(t: Id, row: Row) {
    && t == row.hash.turnId && row.eventId == row.hash.eventId
    && row.session == row.hash.session && row.sequence == row.hash.sequence
    && row.text == row.hash.text
  }

  /** A turn has an attribution task exactly when its event called for one, whatever became of it. */
  ghost predicate TasksMatch(db: Db) {
    && (forall t :: t in db.tasks ==> t in db.turns && db.tasks[t].session == db.turns[t].session)
    && (forall t :: t in db.turns ==> (t in db.tasks <==> ShouldEnqueue(db.turns[t].hash)))
  }

  ghost predicate Inv(db: Db) {
    KeysUnique(db.turns) && (forall t :: t in db.turns ==> Genuine(t, db.turns[t])) && TasksMatch(db)
  }

  lemma LegacyFormsKeepKeys(e: Event, stored: Event)
    requires HashMatches(e, stored)
    ensures stored.eventId == e.eventId && stored.turnId == e.turnId && stored.session == e.session
    ensures stored.sequence == e.sequence && stored.text == e.text
    ensures ShouldEnqueue(stored) == ShouldEnqueue(e)
  {
  }

  ghost predicate RowsKept(db: Db) {
    KeysUnique(db.turns) && forall t :: t in db.turns ==> Genuine(t, db.turns[t])
  }

  lemma FreshIsNew(db: Db, e: Event)
    requires IsFresh(db, e)
    ensures e.turnId !in db.turns
  {
    if e.turnId in db.turns {
      assert Collides(db.turns[e.turnId], e.turnId, e);
    }
  }

  lemma PutTurn(db: Db, e: Event)
    requires RowsKept(db) && IsFresh(db, e)
    ensures RowsKept(db.(turns := db.turns[e.turnId := RowOf(e)]))
  {
    FreshIsNew(db, e);
    forall t | t in db.turns ensures db.turns[t].eventId != e.eventId
      ensures !(db.turns[t].session == e.session && db.turns[t].sequence == e.sequence)
    {
      assert !Collides(db.turns[t], t, e);
    }
  }

  lemma StoreKeepsRows(db: Db, e: Event)
    requires RowsKept(db)
    ensures RowsKept(StoreFinalTurn(db, e).0)
  {
    hide KeysUnique, Genuine, RowOf, IsReplay, ShouldEnqueue;
    if IsFresh(db, e) {
      PutTurn(db, e);
      hide IsFresh;
    }
  }

  lemma StoreKeepsTasks(db: Db, e: Event)
    requires TasksMatch(db)
    ensures TasksMatch(StoreFinalTurn(db, e).0)
  {
    hide IsReplay, ShouldEnqueue;
    if IsFresh(db, e) {
      FreshIsNew(db, e);
      hide IsFresh;
    }
  }

  lemma StoreKeeps(db: Db, e: Event)
    requires Inv(db)
    ensures Inv(StoreFinalTurn(db, e).0)
  {
    hide StoreFinalTurn, KeysUnique, Genuine, TasksMatch;
    StoreKeepsRows(db, e);
    StoreKeepsTasks(db, e);
  }

  lemma CorrectKeeps(db: Db, u: Update)
    requires Inv(db)
    ensures Inv(CorrectAttribution(db, u).0)
  {
  }

  // ----- storing is idempotent

  /** Exactly when storing succeeds: the event is new on all three keys and what it refers to exists, or
      every row that shares a key with it was stored from the same payload. */
  lemma StoreSucceedsIff(db: Db, e: Event)
    requires Inv(db)
    ensures StoreFinalTurn(db, e).1.Ok? <==>
              || (IsFresh(db, e) && ParticipantKnown(db, e) && (ShouldEnqueue(e) ==> e.session in db.sessions))
              || IsReplay(db, e)
    ensures StoreFinalTurn(db, e).0 != db <==> StoreFinalTurn(db, e).1.Ok? && IsFresh(db, e)
  {
    if IsFresh(db, e) {
      assert e.turnId !in db.turns by {
        if e.turnId in db.turns {
          assert Collides(db.turns[e.turnId], e.turnId, e);
        }
      }
    }
  }

  /** A replay shares its keys with one row only, the one stored for it. */
  lemma ReplayIsOneRow(db: Db, e: Event)
    requires Inv(db) && IsReplay(db, e)
    ensures e.turnId in db.turns && HashMatches(e, db.turns[e.turnId].hash)
    ensures forall t :: t in db.turns && Collides(db.turns[t], t, e) ==> t == e.turnId
  {
    var t :| t in db.turns && Collides(db.turns[t], t, e);
    LegacyFormsKeepKeys(e, db.turns[t].hash);
    forall u | u in db.turns && Collides(db.turns[u], u, e) ensures u == e.turnId {
      LegacyFormsKeepKeys(e, db.turns[u].hash);
    }
  }

  /** What a stored turn keeps for ever: its keys, its payload and its translation. Attribution moves from
      unresolved to resolved only, and tasks stay. */
  ghost predicate Evolves(a: Db, b: Db) {
    && (forall t :: t in a.turns ==>
          && t in b.turns && b.turns[t].hash == a.turns[t].hash && b.turns[t].eventId == a.turns[t].eventId
          && b.turns[t].session == a.turns[t].session && b.turns[t].sequence == a.turns[t].sequence
          && b.turns[t].text == a.turns[t].text
          && (!Unresolved(a.turns[t].status) ==> !Unresolved(b.turns[t].status)))
    && (forall t :: t in a.tasks ==> t in b.tasks && b.tasks[t].session == a.tasks[t].session)
  }

  lemma EvolvesTransitive(a: Db, b: Db, c: Db)
    requires Evolves(a, b) && Evolves(b, c)
    ensures Evolves(a, c)
  {
  }

  lemma StoreEvolves(db: Db, e: Event)
    ensures Evolves(db, StoreFinalTurn(db, e).0)
  {
    if IsFresh(db, e) && e.turnId in db.turns {
      assert Collides(db.turns[e.turnId], e.turnId, e);
    }
  }

  lemma CorrectEvolves(db: Db, u: Update)
    ensures Evolves(db, CorrectAttribution(db, u).0)
  {
  }

  /** Once an event was stored, storing it again succeeds and changes nothing, in any state the tables may
      evolve to: replays are still accepted after corrections. */
  lemma StoredStaysReplay(db: Db, e: Event, later: Db)
    requires Inv(db) && StoreFinalTurn(db, e).1.Ok?
    requires Inv(later) && Evolves(StoreFinalTurn(db, e).0, later)
    ensures IsReplay(later, e)
    ensures StoreFinalTurn(later, e) == (later, Ok(()))
  {
    hide StoreFinalTurn, Inv, IsReplay;
    StoredHasRow(db, e);
    StoredIsReplay(later, e);
    ReplayChangesNothing(later, e);
  }

  lemma StoredHasRow(db: Db, e: Event)
    requires Inv(db) && StoreFinalTurn(db, e).1.Ok?
    ensures
      var stored := StoreFinalTurn(db, e).0;
      e.turnId in stored.turns && HashMatches(e, stored.turns[e.turnId].hash)
  {
    hide KeysUnique, TasksMatch, ShouldEnqueue;
    if !IsFresh(db, e) {
      ReplayIsOneRow(db, e);
    }
    hide IsFresh, IsReplay;
  }

  lemma ReplayChangesNothing(db: Db, e: Event)
    requires IsReplay(db, e)
    ensures StoreFinalTurn(db, e) == (db, Ok(()))
  {
  }

  lemma StoredIsReplay(db: Db, e: Event)
    requires Inv(db)
    requires e.turnId in db.turns && HashMatches(e, db.turns[e.turnId].hash)
    ensures IsReplay(db, e)
  {
    LegacyFormsKeepKeys(e, db.turns[e.turnId].hash);
    assert Collides(db.turns[e.turnId], e.turnId, e);
    forall t | t in db.turns && Collides(db.turns[t], t, e) ensures t == e.turnId {
    }
  }
}

/** Per-session delivery queues whose workers retire when idle and are recreated on demand. */
module ResultQueue {
  import opened Wrappers

  type Id = string

  datatype Event = Event(session: Id, body: Id)

  type QueueId = nat

  const CAPACITY: nat := 32

  // A worker belongs to one queue for life: it waits, publishes one event at a time, and retires.
  datatype Worker = Waiting | Publishing(event: Event) | Retired

  datatype Queue = Queue(session: Id, events: seq<Event>, worker: Worker)

  // `queues` says which queue a session uses now; `all` also remembers the queues given up.
  datatype Dispatch = Dispatch(queues: map<Id, QueueId>, all: map<QueueId, Queue>, nextId: QueueId)

  // ----- the sections under the mutex

  function Enqueue(d: Dispatch, event: Event): (Dispatch, bool) {
    var s := event.session;
    if s in d.queues && d.queues[s] in d.all then
      var q := d.queues[s];
      if |d.all[q].events| < CAPACITY then
        (d.(all := d.all[q := d.all[q].(events := d.all[q].events + [event])]), true)
      else (d, false)
    else
      (Dispatch(d.queues[s := d.nextId], d.all[d.nextId := Queue(s, [event], Waiting)], d.nextId + 1), true)
  }

  /** Takes the oldest event, if there is one. */
  function Take(d: Dispatch, q: QueueId): Dispatch
    requires q in d.all && d.all[q].events != []
  {
    var events := d.all[q].events;
    d.(all := d.all[q := d.all[q].(events := events[1..], worker := Publishing(events[0]))])
  }

  /** The idle timer fired: an event that raced with it is taken, otherwise the queue is given up. */
  function Retire(d: Dispatch, q: QueueId): Dispatch
    requires q in d.all
  {
    var s := d.all[q].session;
    if s !in d.queues || d.queues[s] != q then d.(all := d.all[q := d.all[q].(worker := Retired)])
    else if d.all[q].events != [] then Take(d, q)
    else d.(queues := d.queues - {s}, all := d.all[q := d.all[q].(worker := Retired)])
  }

  /** A worker whose timer fired goes on only with an event that raced into the queue its session uses. A
      queue with none is given up, so that the session's next event makes a new one; one that its session does
      not use any more just loses its worker. */
  lemma RetireOutcome(d: Dispatch, q: QueueId)
    requires q in d.all
    ensures
      var after := Retire(d, q);
      var queue := d.all[q];
      var used := queue.session in d.queues && d.queues[queue.session] == q;
      && after.all.Keys == d.all.Keys && after.nextId == d.nextId
      && (forall p :: p in d.all && p != q ==> after.all[p] == d.all[p])
      && after.all[q].session == queue.session
      && (used && queue.events != [] ==>
            && after.queues == d.queues && after.all[q].worker.Publishing?
            && [after.all[q].worker.event] + after.all[q].events == queue.events)
      && (after.all[q].worker == Retired <==> !used || queue.events == [])
      && (after.all[q].worker == Retired ==>
            && after.all[q].events == queue.events
            && after.queues == d.queues - if used then {queue.session} else {})
  {
  }

  /** The dispatcher as it works on its map and channels. */
  class Dispatcher {
    var queues: map<Id, QueueId>
    var all: map<QueueId, Queue>
    var nextId: QueueId

    ghost function State(): Dispatch
      reads this
    {
      Dispatch(queues, all, nextId)
    }

    constructor ()
      ensures State() == Dispatch(map[], map[], 0)
    {
      queues, all, nextId := map[], map[], 0;
    }

    /** Creates the queue and its worker on first use; a full queue drops the event. */
    method Publish(event: Event) returns (accepted: bool)
      requires event.session in queues ==> queues[event.session] in all
      modifies this
      ensures (State(), accepted) == Enqueue(old(State()), event)
    {
      var s := event.session;
      if s !in queues {
        all := all[nextId := Queue(s, [], Waiting)];
        queues := queues[s := nextId];
        nextId := nextId + 1;
      }
      var q := queues[s];
      accepted := |all[q].events| < CAPACITY;
      if accepted {
        all := all[q := all[q].(events := all[q].events + [event])];
      }
      assert [] + [event] == [event];
      assert s !in old(queues) ==> all == old(all)[q := Queue(s, [event], Waiting)];
    }

    method RetireSessionWorker(q: QueueId) returns (pending: Option<Event>, retired: bool)
      requires q in all
      modifies this
      ensures State() == Retire(old(State()), q)
      ensures retired <==> all[q].worker == Retired
      ensures pending == if retired then None else Some(old(all[q].events)[0])
    {
      var s := all[q].session;
      if s !in queues || queues[s] != q {
        all := all[q := all[q].(worker := Retired)];
        return None, true;
      }
      if all[q].events != [] {
        var event := all[q].events[0];
        all := all[q := all[q].(events := all[q].events[1..], worker := Publishing(event))];
        return Some(event), false;
      }
      queues := queues - {s};
      all := all[q := all[q].(worker := Retired)];
      return None, true;
    }
  }

  // ----- the whole sink

  // What each session's callers had accepted, and what its workers published, in order.
  datatype Sink = Sink(dispatch: Dispatch, accepted: map<Id, seq<Event>>, published: map<Id, seq<Event>>)

  datatype Step = Accept(event: Event) | Receive(q: QueueId) | Deliver(q: QueueId) | IdleExpired(q: QueueId)

  function History(m: map<Id, seq<Event>>, s: Id): seq<Event> {
    if s in m then m[s] else []
  }

  predicate WorkerIs(d: Dispatch, q: QueueId, w: Worker) {
    q in d.all && d.all[q].worker == w
  }

  /** Steps that are not enabled change nothing. A worker's idle timer may fire whenever it waits. */
  function Next(x: Sink, step: Step): Sink {
    match step
    case Accept(event) =>
      var (d, ok) := Enqueue(x.dispatch, event);
      Sink(d,
           if ok then x.accepted[event.session := History(x.accepted, event.session) + [event]] else x.accepted,
           x.published)
    case Receive(q) =>
      if WorkerIs(x.dispatch, q, Waiting) && x.dispatch.all[q].events != [] then x.(dispatch := Take(x.dispatch, q))
      else x
    case Deliver(q) =>
      if q in x.dispatch.all && x.dispatch.all[q].worker.Publishing? then
        var queue := x.dispatch.all[q];
        x.(dispatch := x.dispatch.(all := x.dispatch.all[q := queue.(worker := Waiting)]),
           published := x.published[queue.session := History(x.published, queue.session) + [queue.worker.event]])
      else x
    case IdleExpired(q) => if WorkerIs(x.dispatch, q, Waiting) then x.(dispatch := Retire(x.dispatch, q)) else x
  }

  function Run(x: Sink, steps: seq<Step>): Sink
    decreases |steps|
  {
    if steps == [] then x else Run(Next(x, steps[0]), steps[1..])
  }

  const Start := Sink(Dispatch(map[], map[], 0), map[], map[])

  // ----- the invariant

  function InFlight(worker: Worker): seq<Event> {
    if worker.Publishing? then [worker.event] else []
  }

  /** What is accepted but not published yet, in order. */
  function Backlog(d: Dispatch, s: Id): seq<Event> {
    if s in d.queues && d.queues[s] in d.all then InFlight(d.all[d.queues[s]].worker) + d.all[d.queues[s]].events
    else []
  }

  ghost predicate Conserved(x: Sink, s: Id) {
    History(x.accepted, s) == History(x.published, s) + Backlog(x.dispatch, s)
  }

  /** A queue is in the map exactly while its worker has not retired, and a retired queue is empty. */
  ghost predicate OneWorker(d: Dispatch) {
    && (forall s :: s in d.queues ==>
          && d.queues[s] in d.all && d.all[d.queues[s]].session == s && d.all[d.queues[s]].worker != Retired)
    && (forall q :: q in d.all ==>
          && q < d.nextId && |d.all[q].events| <= CAPACITY
          && (d.all[q].worker != Retired ==> d.all[q].session in d.queues && d.queues[d.all[q].session] == q)
          && (d.all[q].worker == Retired ==> d.all[q].events == []))
  }

  ghost predicate Inv(x: Sink) {
    OneWorker(x.dispatch) && forall s :: Conserved(x, s)
  }

  lemma EnqueueKeepsWorkers(d: Dispatch, e: Event)
    requires OneWorker(d)
    ensures OneWorker(Enqueue(d, e).0)
  {
  }

  lemma TakeKeepsWorkers(d: Dispatch, q: QueueId)
    requires OneWorker(d) && q in d.all && d.all[q].events != []
    ensures OneWorker(Take(d, q))
  {
    assert |d.all[q].events[1..]| < |d.all[q].events|;
  }

  lemma RetireKeepsWorkers(d: Dispatch, q: QueueId)
    requires OneWorker(d) && WorkerIs(d, q, Waiting)
    ensures OneWorker(Retire(d, q))
  {
    if d.all[q].events != [] {
      TakeKeepsWorkers(d, q);
    }
    hide Take;
  }

  lemma WorkersKept(x: Sink, step: Step)
    requires OneWorker(x.dispatch)
    ensures OneWorker(Next(x, step).dispatch)
  {
    match step
    case Accept(e) => EnqueueKeepsWorkers(x.dispatch, e);
    case Receive(q) =>
      if WorkerIs(x.dispatch, q, Waiting) && x.dispatch.all[q].events != [] {
        TakeKeepsWorkers(x.dispatch, q);
      }
      hide OneWorker, Take;
    case IdleExpired(q) =>
      if WorkerIs(x.dispatch, q, Waiting) {
        RetireKeepsWorkers(x.dispatch, q);
      }
      hide OneWorker, Retire;
    case Deliver(q) =>
  }

  lemma AcceptConserves(x: Sink, e: Event, s: Id)
    requires OneWorker(x.dispatch) && Conserved(x, s)
    ensures Conserved(Next(x, Accept(e)), s)
  {
    if e.session == s {
      var before := History(x.published, s);
      assert before + (Backlog(x.dispatch, s) + [e]) == (before + Backlog(x.dispatch, s)) + [e];
      if s in x.dispatch.queues {
        var queue := x.dispatch.all[x.dispatch.queues[s]];
        assert InFlight(queue.worker) + (queue.events + [e]) == (InFlight(queue.worker) + queue.events) + [e];
      }
    }
  }

  lemma TakeConserves(d: Dispatch, q: QueueId, s: Id)
    requires q in d.all && d.all[q].events != [] && d.all[q].worker == Waiting
    ensures Backlog(Take(d, q), s) == Backlog(d, s)
  {
    var events := d.all[q].events;
    assert events == [events[0]] + events[1..];
    assert [] + events == events;
  }

  lemma DeliverConserves(x: Sink, q: QueueId, s: Id)
    requires OneWorker(x.dispatch) && Conserved(x, s)
    ensures Conserved(Next(x, Deliver(q)), s)
  {
    if q in x.dispatch.all && x.dispatch.all[q].worker.Publishing? {
      var queue := x.dispatch.all[q];
      var before := History(x.published, queue.session);
      assert before + ([queue.worker.event] + queue.events) == (before + [queue.worker.event]) + queue.events;
      assert [] + queue.events == queue.events;
    }
  }

  lemma StepConserves(x: Sink, step: Step, s: Id)
    requires OneWorker(x.dispatch) && Conserved(x, s)
    ensures Conserved(Next(x, step), s)
  {
    match step
    case Accept(e) => AcceptConserves(x, e, s);
    case Receive(q) =>
      if WorkerIs(x.dispatch, q, Waiting) && x.dispatch.all[q].events != [] {
        TakeConserves(x.dispatch, q, s);
        hide Take, Backlog, OneWorker;
      }
    case Deliver(q) => DeliverConserves(x, q, s);
    case IdleExpired(q) =>
      if WorkerIs(x.dispatch, q, Waiting) {
        if x.dispatch.all[q].events != [] {
          TakeConserves(x.dispatch, q, s);
          hide Take;
        } else {
          assert Backlog(Retire(x.dispatch, q), s) == Backlog(x.dispatch, s);
        }
      }
  }

  lemma StepKeeps(x: Sink, step: Step)
    requires Inv(x)
    ensures Inv(Next(x, step))
  {
    hide OneWorker, Conserved, Next;
    WorkersKept(x, step);
    forall s ensures Conserved(Next(x, step), s) {
      StepConserves(x, step, s);
    }
  }

  lemma {:induction false} RunKeeps(x: Sink, steps: seq<Step>)
    requires Inv(x)
    ensures Inv(Run(x, steps))
    decreases |steps|
  {
    hide Inv, Next;
    if steps != [] {
      StepKeeps(x, steps[0]);
      RunKeeps(Next(x, steps[0]), steps[1..]);
    }
  }

  // ----- the guarantees

  /** Exactly once and in order: in every run a session's publications are a prefix of what it had
      accepted, and everything after that prefix is in flight or queued, in order. */
  lemma PublishedOnceInOrder(steps: seq<Step>, s: Id)
    ensures
      var x := Run(Start, steps);
      && History(x.published, s) <= History(x.accepted, s)
      && History(x.accepted, s)[|History(x.published, s)|..] == Backlog(x.dispatch, s)
      && (s !in x.dispatch.queues ==> History(x.published, s) == History(x.accepted, s))
  {
    RunKeeps(Start, steps);
    assert Conserved(Run(Start, steps), s);
  }

  /** A session has at most one worker that has not retired, and it serves the session's current queue. */
  lemma AtMostOneWorker(steps: seq<Step>, q: QueueId, p: QueueId)
    requires
      var d := Run(Start, steps).dispatch;
      && q in d.all && p in d.all && d.all[q].session == d.all[p].session
      && d.all[q].worker != Retired && d.all[p].worker != Retired
    ensures q == p
  {
    RunKeeps(Start, steps);
  }

  /** A queue that was given up is empty and stays empty, whatever happens later. */
  lemma {:induction false} GivenUpStaysEmpty(x: Sink, steps: seq<Step>, q: QueueId)
    requires Inv(x)
    requires q in x.dispatch.all && x.dispatch.all[q].worker == Retired
    ensures
      var d := Run(x, steps).dispatch;
      q in d.all && d.all[q] == x.dispatch.all[q] && d.all[q].events == [] && q !in d.queues.Values
    decreases |steps|
  {
    if steps != [] {
      hide Inv;
      StepKeeps(x, steps[0]);
      GivenUpStays(x, steps[0], q);
      hide Next;
      GivenUpStaysEmpty(Next(x, steps[0]), steps[1..], q);
    }
  }

  lemma GivenUpStays(x: Sink, step: Step, q: QueueId)
    requires Inv(x)
    requires q in x.dispatch.all && x.dispatch.all[q].worker == Retired
    ensures q in Next(x, step).dispatch.all && Next(x, step).dispatch.all[q] == x.dispatch.all[q]
  {
    hide Conserved, Backlog;
  }

  /** An event is refused exactly when its session's queue already holds 32, and then nothing changes. */
  lemma RefusedIffFull(steps: seq<Step>, event: Event)
    ensures
      var d := Run(Start, steps).dispatch;
      !Enqueue(d, event).1 <==> event.session in d.queues && d.queues[event.session] in d.all
                                && |d.all[d.queues[event.session]].events| == 32
    ensures
      var x := Run(Start, steps);
      !Enqueue(x.dispatch, event).1 ==> Next(x, Accept(event)) == x
  {
    RunKeeps(Start, steps);
  }

  // ----- nothing is left behind

  /** The worker of queue `q` takes and publishes `n` events in a row. */
  function Drain(x: Sink, q: QueueId, n: nat): Sink
    decreases n
  {
    if n == 0 then x else Drain(Next(Next(x, Receive(q)), Deliver(q)), q, n - 1)
  }

  /** From any reachable state a waiting worker can publish all that its session had accepted. */
  lemma {:induction false} DrainPublishesAll(x: Sink, q: QueueId)
    requires Inv(x)
    requires WorkerIs(x.dispatch, q, Waiting)
    ensures
      var s := x.dispatch.all[q].session;
      History(Drain(x, q, |x.dispatch.all[q].events|).published, s) == History(x.accepted, s)
    decreases |x.dispatch.all[q].events|
  {
    var s := x.dispatch.all[q].session;
    var events := x.dispatch.all[q].events;
    assert Conserved(x, s);
    if events != [] {
      var y := Next(x, Receive(q));
      var z := Next(y, Deliver(q));
      StepKeeps(x, Receive(q));
      StepKeeps(y, Deliver(q));
      assert z.dispatch.all[q] == Queue(s, events[1..], Waiting);
      DrainPublishesAll(z, q);
    }
  }

  /** A worker that idles in front of an empty queue goes, and the session's next event finds a new one. */
  lemma IdleSessionStartsAnew(steps: seq<Step>, q: QueueId, event: Event)
    requires
      var d := Run(Start, steps).dispatch;
      WorkerIs(d, q, Waiting) && d.all[q].events == [] && d.all[q].session == event.session
    ensures
      var x := Run(Start, steps);
      var y := Next(x, IdleExpired(q));
      var z := Next(y, Accept(event));
      && WorkerIs(y.dispatch, q, Retired) && event.session !in y.dispatch.queues
      && event.session in z.dispatch.queues && z.dispatch.queues[event.session] != q
      && WorkerIs(z.dispatch, z.dispatch.queues[event.session], Waiting)
      && z.dispatch.all[z.dispatch.queues[event.session]].events == [event]
      && History(z.accepted, event.session) == History(x.accepted, event.session) + [event]
  {
    RunKeeps(Start, steps);
    hide Run;
    RetireOutcome(Run(Start, steps).dispatch, q);
  }
}

/** Switching modes from a client: the device's controller, which fixes the command of an operation once and
    for all, and the mobile client, which gives every switch an operation of its own. Replies, refreshes and
    further switches interleave freely. */
module ModeSwitch {
  import opened Wrappers
  import opened Observers

  // A mode snapshot's identity is its runtime instance, its mark the generation, its body the active mode.

  datatype Command = Command(runtime: Id, operation: Id, trace: Id, generation: int, target: Id)

  datatype Error = InvalidRequest | OperationDiscarded | OperationConflict | Transport

  /** The reported state is what the client shows: same runtime, generation and active mode. */
  predicate Agrees(shown: Snapshot, reported: Snapshot) {
    shown.id == reported.id && shown.mark == reported.mark && shown.body == reported.body
  }

  // ----- the device's controller

  datatype Controller = Controller(mode: Observer, discarded: set<Id>, commands: map<Id, Command>)

  /** Which command an operation sends, if any. */
  function Prepare(c: Controller, op: Id, trace: Id, target: Id): (Controller, Result<Command, Error>) {
    if op == "" || trace == "" || target == "" then (c, Err(InvalidRequest))
    else if op in c.discarded then (c, Err(OperationDiscarded))
    else if op in c.commands then
      (c,
       if c.commands[op].trace != trace || c.commands[op].target != target then Err(OperationConflict)
       else Ok(c.commands[op]))
    else if c.mode.current.None? then (c, Err(InvalidRequest))
    else
      var command := Command(c.mode.current.value.id, op, trace, c.mode.current.value.mark, target);
      (c.(commands := c.commands[op := command]), Ok(command))
  }

  /** A reply is reported only if it is, or already was, what the controller shows. */
  function Conclude(c: Controller, op: Id, reported: Snapshot): (Controller, Result<Snapshot, Error>) {
    var accepted := Accepts(c.mode, MODE, reported);
    var mode := Observe(c.mode, MODE, reported);
    if !accepted && !(mode.current.Some? && Agrees(mode.current.value, reported)) then
      (c.(mode := mode, discarded := c.discarded + {op}), Err(OperationDiscarded))
    else (c.(mode := mode), Ok(reported))
  }

  class ModeController {
    var state: Option<Snapshot>
    var retired: set<Id>
    var discarded: set<Id>
    var commands: map<Id, Command>

    ghost function View(): Controller
      reads this
    {
      Controller(Observer(state, retired), discarded, commands)
    }

    constructor ()
      ensures View() == Controller(Blind, {}, map[])
    {
      state, retired, discarded, commands := None, {}, {}, map[];
    }

    method ApplyMode(next: Snapshot) returns (accepted: bool)
      modifies this
      ensures accepted == Accepts(old(View()).mode, MODE, next)
      ensures View() == old(View()).(mode := Observe(old(View()).mode, MODE, next))
    {
      if state.None? {
        state := Some(next);
        return true;
      }
      var previous := state.value;
      if previous.id != next.id {
        if next.id in retired || next.at <= previous.at { return false; }
        retired := retired + {previous.id};
      } else if !(previous.mark < next.mark || (previous.mark == next.mark && previous.at < next.at)) {
        return false;
      }
      state := Some(next);
      return true;
    }

    method PrepareSwitch(op: Id, trace: Id, target: Id) returns (r: Result<Command, Error>)
      modifies this
      ensures (View(), r) == Prepare(old(View()), op, trace, target)
    {
      if op == "" || trace == "" || target == "" { return Err(InvalidRequest); }
      if op in discarded { return Err(OperationDiscarded); }
      if op in commands {
        var command := commands[op];
        if command.trace != trace || command.target != target { return Err(OperationConflict); }
        return Ok(command);
      }
      if state.None? { return Err(InvalidRequest); }
      var command := Command(state.value.id, op, trace, state.value.mark, target);
      commands := commands[op := command];
      return Ok(command);
    }

    method ConcludeSwitch(op: Id, reported: Snapshot) returns (r: Result<Snapshot, Error>)
      modifies this
      ensures (View(), r) == Conclude(old(View()), op, reported)
    {
      var accepted := ApplyMode(reported);
      var responseIsCurrent := state.Some? && state.value.id == reported.id
                               && state.value.mark == reported.mark && state.value.body == reported.body;
      if !accepted && !responseIsCurrent {
        discarded := discarded + {op};
        return Err(OperationDiscarded);
      }
      return Ok(reported);
    }

    /** A generation conflict or a runtime that is gone gives the operation up. */
    method Discard(op: Id)
      modifies this
      ensures View() == old(View()).(discarded := old(View()).discarded + {op})
    {
      discarded := discarded + {op};
    }
  }

  // ----- calls of the device's controller

  datatype Phase = Sending(command: Command) | Reported(result: Snapshot) | GivenUp

  datatype Call = Call(op: Id, phase: Phase)

  // `sent` logs every command that went out.
  datatype Device = Device(controller: Controller, calls: map<nat, Call>, sent: seq<Command>)

  datatype Step =
    | Begin(c: nat, op: Id, trace: Id, target: Id)
    | Reply(c: nat, reported: Snapshot)
    | Refuse(c: nat, conflict: bool)
    | Refreshed(state: Snapshot)

  /** Steps that are not enabled change nothing. */
  function Next(x: Device, step: Step): Device {
    match step
    case Begin(c, op, trace, target) =>
      if c in x.calls then x
      else
        var (controller, r) := Prepare(x.controller, op, trace, target);
        if r.Ok? then Device(controller, x.calls[c := Call(op, Sending(r.value))], x.sent + [r.value])
        else x.(controller := controller, calls := x.calls[c := Call(op, GivenUp)])
    case Reply(c, reported) =>
      if c in x.calls && x.calls[c].phase.Sending? then
        var (controller, r) := Conclude(x.controller, x.calls[c].op, reported);
        x.(controller := controller,
           calls := x.calls[c := x.calls[c].(phase := if r.Ok? then Reported(r.value) else GivenUp)])
      else x
    case Refuse(c, conflict) =>
      if c in x.calls && x.calls[c].phase.Sending? then
        var discarded := x.controller.discarded + if conflict then {x.calls[c].op} else {};
        x.(controller := x.controller.(discarded := discarded), calls := x.calls[c := x.calls[c].(phase := GivenUp)])
      else x
    case Refreshed(state) => x.(controller := x.controller.(mode := Observe(x.controller.mode, MODE, state)))
  }

  function Run(x: Device, steps: seq<Step>): Device
    decreases |steps|
  {
    if steps == [] then x else Run(Next(x, steps[0]), steps[1..])
  }

  const Start := Device(Controller(Blind, {}, map[]), map[], [])

  ghost predicate Inv(x: Device) {
    && (forall op :: op in x.controller.commands ==> x.controller.commands[op].operation == op)
    && (forall i :: 0 <= i < |x.sent| ==>
          x.sent[i].operation in x.controller.commands && x.controller.commands[x.sent[i].operation] == x.sent[i])
    && (forall c :: c in x.calls && x.calls[c].phase.Sending? ==> x.calls[c].phase.command in x.sent)
  }

  lemma StepKeeps(x: Device, step: Step)
    requires Inv(x)
    ensures Inv(Next(x, step))
    ensures x.sent <= Next(x, step).sent
  {
    hide Observe, Accepts, Agrees;
  }

  lemma {:induction false} RunKeeps(x: Device, steps: seq<Step>)
    requires Inv(x)
    ensures Inv(Run(x, steps))
    decreases |steps|
  {
    hide Inv, Next;
    if steps != [] {
      StepKeeps(x, steps[0]);
      RunKeeps(Next(x, steps[0]), steps[1..]);
    }
  }

  /** However often an operation is retried, it always sends the same command. */
  lemma OneCommandPerOperation(steps: seq<Step>, i: nat, j: nat)
    requires i < |Run(Start, steps).sent| && j < |Run(Start, steps).sent|
    requires Run(Start, steps).sent[i].operation == Run(Start, steps).sent[j].operation
    ensures Run(Start, steps).sent[i] == Run(Start, steps).sent[j]
  {
    RunKeeps(Start, steps);
  }

  /** A success is reported exactly when, at that moment, the controller shows the reported runtime,
      generation and mode; otherwise the operation is discarded. */
  lemma SuccessAgreesWithState(x: Device, c: nat, reported: Snapshot)
    requires c in x.calls && x.calls[c].phase.Sending?
    ensures
      var y := Next(x, Reply(c, reported));
      && (y.calls[c].phase == Reported(reported) <==>
            y.controller.mode.current.Some? && Agrees(y.controller.mode.current.value, reported))
      && (y.calls[c].phase == GivenUp ==> x.calls[c].op in y.controller.discarded)
      && (y.calls[c].phase == Reported(reported) || y.calls[c].phase == GivenUp)
  {
  }

  /** A discarded operation is never sent again. */
  lemma {:induction false} DiscardedIsOver(x: Device, steps: seq<Step>, op: Id)
    requires Inv(x) && op in x.controller.discarded
    ensures op in Run(x, steps).controller.discarded
    ensures x.sent <= Run(x, steps).sent
    ensures forall i :: |x.sent| <= i < |Run(x, steps).sent| ==> Run(x, steps).sent[i].operation != op
    decreases |steps|
  {
    if steps != [] {
      var y := Next(x, steps[0]);
      SentIsNotDiscarded(x, steps[0], op);
      StepKeeps(x, steps[0]);
      DiscardedIsOver(y, steps[1..], op);
      var z := Run(y, steps[1..]);
      forall i | |x.sent| <= i < |z.sent| ensures z.sent[i].operation != op {
        if i < |y.sent| {
          assert z.sent[i] == y.sent[i];
        }
      }
    }
  }

  lemma SentIsNotDiscarded(x: Device, step: Step, op: Id)
    requires Inv(x) && op in x.controller.discarded
    ensures op in Next(x, step).controller.discarded
    ensures x.sent <= Next(x, step).sent
    ensures forall i :: |x.sent| <= i < |Next(x, step).sent| ==> Next(x, step).sent[i].operation != op
  {
    hide Observe, Accepts, Agrees;
  }

  // ----- the mobile client

  /** `pending` are the operations whose reply is awaited, `stale` those given up. `sequence` counts mode reads
      and outside observations, so that a read can tell whether it is still the latest. */
  datatype Mobile = Mobile(mode: Observer, pending: set<Id>, stale: set<Id>, sequence: nat)

  /** Taking a snapshot of a new runtime turns everything still awaited stale. */
  function ObserveMode(m: Mobile, next: Snapshot): Mobile {
    if !Accepts(m.mode, MOBILE_MODE, next) then m
    else
      var moved := m.mode.current.Some? && m.mode.current.value.id != next.id;
      m.(mode := Observe(m.mode, MOBILE_MODE, next),
         pending := if moved then {} else m.pending, stale := if moved then m.stale + m.pending else m.stale)
  }

  function ObserveOutside(m: Mobile, next: Snapshot): Mobile {
    ObserveMode(m.(sequence := m.sequence + 1), next)
  }

  /** The reply must be the one to this command before it is looked at. */
  predicate AnswersTo(reported: Snapshot, command: Command, applied: bool) {
    && reported.id == command.runtime && reported.body == command.target
    && reported.mark == command.generation + if applied then 1 else 0
  }

  function ConcludeMobile(m: Mobile, command: Command, reported: Snapshot, applied: bool)
    : (Mobile, Result<Snapshot, Error>)
  {
    if !AnswersTo(reported, command, applied) then (m.(pending := m.pending - {command.operation}), Err(Transport))
    else
      var settled := m.(pending := m.pending - {command.operation});
      var accepted := Accepts(settled.mode, MOBILE_MODE, reported);
      var after := ObserveOutside(settled, reported);
      if command.operation in after.stale
         || (!accepted && !(after.mode.current.Some? && Agrees(after.mode.current.value, reported))) then
        (after.(stale := after.stale + {command.operation}), Err(OperationDiscarded))
      else (after, Ok(reported))
  }

  class RuntimeClient {
    var current: Option<Snapshot>
    var retiredRuntimeIds: set<Id>
    var pendingOperations: set<Id>
    var staleOperationIds: set<Id>
    var modeReadSequence: nat

    ghost function View(): Mobile
      reads this
    {
      Mobile(Observer(current, retiredRuntimeIds), pendingOperations, staleOperationIds, modeReadSequence)
    }

    constructor ()
      ensures View() == Mobile(Blind, {}, {}, 0)
    {
      current, retiredRuntimeIds, pendingOperations, staleOperationIds, modeReadSequence := None, {}, {}, {}, 0;
    }

    method ObserveModeSnapshot(next: Snapshot) returns (accepted: bool)
      modifies this
      ensures accepted == Accepts(old(View()).mode, MOBILE_MODE, next)
      ensures View() == ObserveMode(old(View()), next)
    {
      if current.Some? {
        var previous := current.value;
        if previous.id == next.id {
          if next.mark < previous.mark || (next.mark == previous.mark && next.at <= previous.at) { return false; }
        } else {
          if next.id in retiredRuntimeIds { return false; }
          retiredRuntimeIds := retiredRuntimeIds + {previous.id};
          staleOperationIds := staleOperationIds + pendingOperations;
          pendingOperations := {};
        }
      }
      current := Some(next);
      return true;
    }

    method ConcludeSwitch(command: Command, reported: Snapshot, applied: bool) returns (r: Result<Snapshot, Error>)
      modifies this
      ensures (View(), r) == ConcludeMobile(old(View()), command, reported, applied)
    {
      pendingOperations := pendingOperations - {command.operation};
      if !AnswersTo(reported, command, applied) { return Err(Transport); }
      modeReadSequence := modeReadSequence + 1;
      var accepted := ObserveModeSnapshot(reported);
      var responseIsCurrent := current.Some? && Agrees(current.value, reported);
      if command.operation in staleOperationIds || (!accepted && !responseIsCurrent) {
        staleOperationIds := staleOperationIds + {command.operation};
        return Err(OperationDiscarded);
      }
      return Ok(reported);
    }
  }

  datatype MobileStep =
    | Switch(operation: Id, trace: Id, target: Id)
    | SwitchReply(operation: Id, reported: Snapshot, applied: bool)
    | SwitchRefused(operation: Id, conflict: bool)
    | Outside(state: Snapshot)
    | ReadStarts(r: nat)
    | ReadReplies(r: nat, state: Snapshot)

  // `commands` are the switches that wait for a reply; `reading` holds the number of each read under way.
  datatype Phone = Phone(
    client: Mobile, commands: map<Id, Command>, reading: map<nat, nat>, reported: seq<(Id, Snapshot)>, used: set<Id>)

  /** Steps that are not enabled change nothing. Every switch draws an operation id that is not in use. */
  function NextMobile(x: Phone, step: MobileStep): Phone {
    var m := x.client;
    match step
    case Switch(op, trace, target) =>
      if op in x.used || m.mode.current.None? then x
      else
        var command := Command(m.mode.current.value.id, op, trace, m.mode.current.value.mark, target);
        x.(client := m.(pending := m.pending + {op}), commands := x.commands[op := command], used := x.used + {op})
    case SwitchReply(op, reported, applied) =>
      if op !in x.commands then x
      else
        var (client, r) := ConcludeMobile(m, x.commands[op], reported, applied);
        x.(client := client, commands := x.commands - {op},
           reported := if r.Ok? then x.reported + [(op, r.value)] else x.reported)
    case SwitchRefused(op, conflict) =>
      if op !in x.commands then x
      else
        x.(client := m.(pending := m.pending - {op}, stale := if conflict then m.stale + {op} else m.stale),
           commands := x.commands - {op})
    case Outside(state) => x.(client := ObserveOutside(m, state))
    case ReadStarts(r) =>
      if r in x.reading then x
      else x.(client := m.(sequence := m.sequence + 1), reading := x.reading[r := m.sequence + 1])
    case ReadReplies(r, state) =>
      if r !in x.reading then x
      else x.(client := if x.reading[r] == m.sequence then ObserveMode(m, state) else m, reading := x.reading - {r})
  }

  function RunMobile(x: Phone, steps: seq<MobileStep>): Phone
    decreases |steps|
  {
    if steps == [] then x else RunMobile(NextMobile(x, steps[0]), steps[1..])
  }

  const Idle := Phone(Mobile(Blind, {}, {}, 0), map[], map[], [], {})

  /** A switch under way was prepared for the runtime shown then; if another runtime is shown now, it is stale. */
  ghost predicate PhoneInv(x: Phone) {
    && (forall op :: op in x.commands ==>
          && op in x.used && x.commands[op].operation == op
          && x.client.mode.current.Some?
          && (|| (x.commands[op].runtime == x.client.mode.current.value.id && op in x.client.pending)
              || op in x.client.stale))
    && (forall i :: 0 <= i < |x.reported| ==>
          x.reported[i].0 in x.used && x.reported[i].0 !in x.commands && x.reported[i].0 !in x.client.stale)
    && (forall op :: op in x.client.pending ==> op in x.commands)
    && (forall op :: op in x.client.stale ==> op in x.used)
    && (forall i, j :: 0 <= i < j < |x.reported| ==> x.reported[i].0 != x.reported[j].0)
    && (forall r :: r in x.reading ==> x.reading[r] <= x.client.sequence)
  }

  lemma MobileStepKeeps(x: Phone, step: MobileStep)
    requires PhoneInv(x)
    ensures PhoneInv(NextMobile(x, step))
  {
    hide Newer;
  }

  lemma {:induction false} MobileRunKeeps(x: Phone, steps: seq<MobileStep>)
    requires PhoneInv(x)
    ensures PhoneInv(RunMobile(x, steps))
    decreases |steps|
  {
    hide PhoneInv, NextMobile;
    if steps != [] {
      MobileStepKeeps(x, steps[0]);
      MobileRunKeeps(NextMobile(x, steps[0]), steps[1..]);
    }
  }

  /** In every run a switch is reported successful at most once, and never one that was given up as stale. */
  lemma ReportedIsNotStale(steps: seq<MobileStep>, i: nat)
    requires i < |RunMobile(Idle, steps).reported|
    ensures
      var x := RunMobile(Idle, steps);
      && x.reported[i].0 !in x.client.stale
      && (forall j :: 0 <= j < |x.reported| && x.reported[j].0 == x.reported[i].0 ==> j == i)
  {
    MobileRunKeeps(Idle, steps);
  }

  /** A success agrees with what the client shows at that moment, and belongs to the runtime the switch was
      prepared for: once another runtime is shown, no switch of the old one succeeds any more. */
  lemma MobileSuccessAgrees(steps: seq<MobileStep>, op: Id, reported: Snapshot, applied: bool)
    requires op in RunMobile(Idle, steps).commands
    ensures
      var x := RunMobile(Idle, steps);
      var y := NextMobile(x, SwitchReply(op, reported, applied));
      && x.client.mode.current.Some?
      && (|y.reported| > |x.reported| ==>
            && y.client.mode.current.Some? && Agrees(y.client.mode.current.value, reported)
            && y.client.mode.current.value.id == x.commands[op].runtime == x.client.mode.current.value.id
            && reported.body == x.commands[op].target)
  {
    MobileRunKeeps(Idle, steps);
  }

  /** A mode read takes effect only if no other read or observation began after it. */
  lemma OnlyTheLatestReadCounts(x: Phone, r: nat, state: Snapshot)
    requires r in x.reading && x.reading[r] != x.client.sequence
    ensures NextMobile(x, ReadReplies(r, state)).client == x.client
  {
  }

  lemma LaterReadOvertakes(steps: seq<MobileStep>, r: nat, step: MobileStep)
    requires r in RunMobile(Idle, steps).reading
    requires step.Outside? || (step.ReadStarts? && step.r !in RunMobile(Idle, steps).reading)
    ensures
      var y := NextMobile(RunMobile(Idle, steps), step);
      r in y.reading && y.reading[r] != y.client.sequence
  {
    MobileRunKeeps(Idle, steps);
  }
}

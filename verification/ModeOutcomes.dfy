/** What preparing and concluding a switch of modes comes to, case by case, on the device and on the phone. */
module ModeOutcomes {
  import opened Wrappers
  import opened Observers
  import opened ModeSwitch

  // ----- the device

  /** The first command of an operation asks the runtime and generation shown for the caller's target, under
      the caller's operation and trace. It is sent exactly if the request is complete, the operation was not
      given up, and a mode is shown. */
  lemma FirstCommandOutcome(c: Controller, op: Id, trace: Id, target: Id)
    requires op !in c.commands
    ensures
      var (after, r) := Prepare(c, op, trace, target);
      && (r.Ok? <==>
            op != "" && trace != "" && target != "" && op !in c.discarded && c.mode.current.Some?)
      && (r == Err(OperationDiscarded) <==> op != "" && trace != "" && target != "" && op in c.discarded)
      && (r.Err? ==> after == c && (r.error == InvalidRequest || r.error == OperationDiscarded))
      && (r.Ok? ==>
            && r.value.operation == op && r.value.trace == trace && r.value.target == target
            && r.value.runtime == c.mode.current.value.id && r.value.generation == c.mode.current.value.mark
            && after.mode == c.mode && after.discarded == c.discarded
            && after.commands == c.commands[op := r.value])
  {
  }

  /** A repeated operation sends its first command again, whatever is shown by then, and only if it is asked
      for the same. */
  lemma RepeatedCommandOutcome(c: Controller, op: Id, trace: Id, target: Id)
    requires op in c.commands && op != "" && trace != "" && target != ""
    ensures
      var (after, r) := Prepare(c, op, trace, target);
      var same := c.commands[op].trace == trace && c.commands[op].target == target;
      && after == c
      && (r == Ok(c.commands[op]) <==> op !in c.discarded && same)
      && (r == Err(OperationConflict) <==> op !in c.discarded && !same)
      && (r == Err(OperationDiscarded) <==> op in c.discarded)
  {
  }

  /** A reply is shown if it is newer, in any case; it is reported if it then is what is shown, and gives the
      operation up otherwise. Nothing else changes. */
  lemma ConcludeOutcome(c: Controller, op: Id, reported: Snapshot)
    ensures
      var (after, r) := Conclude(c, op, reported);
      var shown := after.mode.current.Some? && after.mode.current.value.id == reported.id
                   && after.mode.current.value.mark == reported.mark && after.mode.current.value.body == reported.body;
      && (r == Ok(reported) <==> shown) && (r == Err(OperationDiscarded) <==> !shown)
      && after.mode == Observe(c.mode, MODE, reported) && after.commands == c.commands
      && after.discarded == c.discarded + if shown then {} else {op}
  {
  }

  /** A refusal gives the operation up exactly if it was a conflict; a refresh is shown if it is newer. */
  lemma RefusedOutcome(x: Device, c: nat, conflict: bool, state: Snapshot)
    ensures c in x.calls && x.calls[c].phase.Sending? ==>
              var y := Next(x, Refuse(c, conflict));
              && y.calls[c].phase == GivenUp && y.sent == x.sent
              && y.controller.mode == x.controller.mode && y.controller.commands == x.controller.commands
              && y.controller.discarded == x.controller.discarded + if conflict then {x.calls[c].op} else {}
    ensures
      var y := Next(x, Refreshed(state));
      && y.calls == x.calls && y.sent == x.sent && y.controller.mode == Observe(x.controller.mode, MODE, state)
      && y.controller.commands == x.controller.commands && y.controller.discarded == x.controller.discarded
  {
    hide Observe;
  }

  /** A call sends what the controller prepared, at once, or is given up. */
  lemma BeginOutcome(x: Device, c: nat, op: Id, trace: Id, target: Id)
    requires c !in x.calls
    ensures
      var (controller, r) := Prepare(x.controller, op, trace, target);
      var y := Next(x, Begin(c, op, trace, target));
      && y.controller == controller && y.calls.Keys == x.calls.Keys + {c} && y.calls[c].op == op
      && (r.Ok? ==> y.calls[c].phase == Sending(r.value) && |y.sent| == |x.sent| + 1 && y.sent[|x.sent|] == r.value)
      && (r.Err? ==> y.calls[c].phase == GivenUp && y.sent == x.sent)
  {
    hide Prepare;
  }

  /** A new switch that the server carries out ends with the target shown as the runtime's next generation, and
      reported. */
  lemma UndisturbedSwitch(x: Device, c: nat, op: Id, trace: Id, target: Id, at: Time)
    requires c !in x.calls && op !in x.controller.commands && op !in x.controller.discarded
    requires op != "" && trace != "" && target != "" && x.controller.mode.current.Some?
    ensures
      var shown := x.controller.mode.current.value;
      var reply := Snapshot(shown.id, shown.mark + 1, at, target);
      var y := Next(Next(x, Begin(c, op, trace, target)), Reply(c, reply));
      && y.sent == x.sent + [Command(shown.id, op, trace, shown.mark, target)]
      && y.controller.mode.current == Some(reply) && y.calls[c].phase == Reported(reply)
      && y.controller.discarded == x.controller.discarded
  {
    var shown := x.controller.mode.current.value;
    var reply := Snapshot(shown.id, shown.mark + 1, at, target);
    FirstCommandOutcome(x.controller, op, trace, target);
    ConcludeOutcome(Prepare(x.controller, op, trace, target).0, op, reply);
    hide Prepare, Conclude;
  }

  // ----- the phone

  /** A switch of the phone awaits a reply to the command it sent, which asks the runtime and generation shown
      for the caller's target. */
  lemma SwitchOutcome(x: Phone, op: Id, trace: Id, target: Id)
    ensures
      var y := NextMobile(x, Switch(op, trace, target));
      var shown := x.client.mode.current;
      if op in x.used || shown.None? then y == x
      else
        && y.commands == x.commands[op := Command(shown.value.id, op, trace, shown.value.mark, target)]
        && y.used == x.used + {op} && y.reading == x.reading && y.reported == x.reported
        && y.client.mode == x.client.mode && y.client.sequence == x.client.sequence
        && y.client.stale == x.client.stale && y.client.pending == x.client.pending + {op}
  {
  }

  /** A snapshot of another runtime retires the one shown and turns all that is awaited stale; within a
      runtime nothing is awaited less. What is not newer changes nothing. */
  lemma ObserveOutcome(m: Mobile, next: Snapshot)
    ensures
      var after := ObserveMode(m, next);
      var moves := m.mode.current.Some? && m.mode.current.value.id != next.id;
      && after.sequence == m.sequence && after.mode == Observe(m.mode, MOBILE_MODE, next)
      && (Accepts(m.mode, MOBILE_MODE, next) && moves ==> after.pending == {} && after.stale == m.stale + m.pending)
      && (!Accepts(m.mode, MOBILE_MODE, next) || !moves ==> after.pending == m.pending && after.stale == m.stale)
    ensures
      var outside := ObserveOutside(m, next);
      outside.sequence == m.sequence + 1 && outside.(sequence := m.sequence) == ObserveMode(m, next)
  {
    Ignored(m.mode, MOBILE_MODE, next);
    hide Observe, Accepts;
  }

  /** A reply succeeds exactly if it is from the command's runtime with the target mode, at the command's
      generation or, if the switch was applied now, the next one; the switch was not given up; and the reply is
      what is shown then. A reply to something else is an error of the transport and is not looked at. */
  lemma ReplyOutcome(m: Mobile, command: Command, reported: Snapshot, applied: bool)
    ensures
      var (after, r) := ConcludeMobile(m, command, reported, applied);
      var answers := reported.id == command.runtime && reported.body == command.target
                     && reported.mark == if applied then command.generation + 1 else command.generation;
      && (r == Err(Transport) <==> !answers)
      && (!answers ==> after == m.(pending := m.pending - {command.operation}))
      && (answers ==>
            var shown := after.mode.current;
            var agrees := shown.Some? && shown.value.id == reported.id && shown.value.mark == reported.mark
                          && shown.value.body == reported.body;
            && after.mode == Observe(m.mode, MOBILE_MODE, reported) && after.sequence == m.sequence + 1
            && (r == Ok(reported) <==> command.operation !in m.stale && agrees)
            && (r == Err(OperationDiscarded) <==> command.operation in m.stale || !agrees)
            && (r.Err? ==> command.operation in after.stale)
            && command.operation !in after.pending)
  {
  }

  /** A switch that the server carries out while nothing else is observed ends with the target shown as the next
      generation of its runtime, reported once, and no longer awaited. */
  lemma UndisturbedPhoneSwitch(x: Phone, op: Id, trace: Id, target: Id, at: Time)
    requires PhoneInv(x) && op !in x.used && op !in x.client.stale && x.client.mode.current.Some?
    ensures
      var shown := x.client.mode.current.value;
      var reply := Snapshot(shown.id, shown.mark + 1, at, target);
      var y := NextMobile(NextMobile(x, Switch(op, trace, target)), SwitchReply(op, reply, true));
      && y.reported == x.reported + [(op, reply)] && y.client.mode.current == Some(reply)
      && op !in y.commands && op !in y.client.pending && op !in y.client.stale
      && y.commands == x.commands && y.used == x.used + {op} && y.reading == x.reading
  {
    var shown := x.client.mode.current.value;
    assert op !in x.commands && x.commands[op := Command(shown.id, op, trace, shown.mark, target)] - {op} == x.commands;
  }

  /** A refused switch is no longer awaited, and given up exactly if it was a conflict. */
  lemma RefusalOutcome(x: Phone, op: Id, conflict: bool)
    requires op in x.commands
    ensures
      var y := NextMobile(x, SwitchRefused(op, conflict));
      && y.commands == x.commands - {op} && y.reported == x.reported && y.client.mode == x.client.mode
      && y.client.sequence == x.client.sequence && y.client.pending == x.client.pending - {op}
      && y.client.stale == x.client.stale + if conflict then {op} else {}
  {
  }

  /** A read that is still the latest is observed, any other is not, and either is over; starting one makes it
      the latest. */
  lemma ReadOutcome(x: Phone, r: nat, state: Snapshot)
    ensures r in x.reading ==>
              var y := NextMobile(x, ReadReplies(r, state));
              && y.reading == x.reading - {r} && y.commands == x.commands && y.reported == x.reported
              && y.client == if x.reading[r] == x.client.sequence then ObserveMode(x.client, state) else x.client
    ensures r !in x.reading ==>
              var y := NextMobile(x, ReadStarts(r));
              && y.client.sequence == x.client.sequence + 1 && y.reading == x.reading[r := y.client.sequence]
              && y.client.mode == x.client.mode && y.client.pending == x.client.pending
              && y.client.stale == x.client.stale && y.commands == x.commands
    ensures NextMobile(x, Outside(state)).client == ObserveOutside(x.client, state)
  {
    hide ObserveMode;
  }
}

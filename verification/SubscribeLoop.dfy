/**
 The message loop of a worker's main thread as one sequential program (actors/worker.py, subscribe), proved to take
 only the steps of the delivery system, and the bound on its failures to start containers.
 */
module SubscribeLoop {
  import opened MessageDelivery

  /** What happens to a main thread: a step of its own, keep_running is cleared, or its mailbox connection ends. */
  datatype Event = Own(act: MainAction) | ClearKeepRunning | CloseConnection

  function After(wk: Worker, ev: Event): Worker {
    match ev
    case Own(act) => MainStep(wk, act).0
    case ClearKeepRunning => wk.(keepRunning := false)
    case CloseConnection => wk.(connected := false)
  }

  function EffectOf(wk: Worker, ev: Event): seq<Effect> {
    if ev.Own? && !MainStep(wk, ev.act).1.Nothing? then [MainStep(wk, ev.act).1] else []
  }

  function RunEvents(wk: Worker, events: seq<Event>): Worker
    decreases |events|
  {
    if events == [] then wk else RunEvents(After(wk, events[0]), events[1..])
  }

  /** The calls on the mailbox, the container starts and the status writes of a main thread, in order. */
  function Effects(wk: Worker, events: seq<Event>): seq<Effect>
    decreases |events|
  {
    if events == [] then [] else EffectOf(wk, events[0]) + Effects(After(wk, events[0]), events[1..])
  }

  lemma {:induction false} RunEventsAppend(wk: Worker, events: seq<Event>, ev: Event)
    ensures RunEvents(wk, events + [ev]) == After(RunEvents(wk, events), ev)
    ensures Effects(wk, events + [ev]) == Effects(wk, events) + EffectOf(RunEvents(wk, events), ev)
    decreases |events|
  {
    if events == [] {
      assert Effects(After(wk, ev), []) == [];
    } else {
      assert (events + [ev])[1..] == events[1..] + [ev];
      RunEventsAppend(After(wk, events[0]), events[1..], ev);
    }
  }

  // ---------------------------------------------------------------------------------------------
  // Failures to start a container
  // ---------------------------------------------------------------------------------------------

  predicate StartFailed(wk: Worker, ev: Event) {
    ev == Own(FailStart) && wk.phase.Preparing?
  }

  predicate Completed(wk: Worker, ev: Event) {
    ev == Own(MarkComplete) && wk.phase.Settled?
  }

  /** All failures to start a container, also one whose message could not be given back. */
  function Failures(wk: Worker, events: seq<Event>): nat
    decreases |events|
  {
    if events == [] then 0
    else One(StartFailed(wk, events[0])) + Failures(After(wk, events[0]), events[1..])
  }

  function Successes(wk: Worker, events: seq<Event>): nat
    decreases |events|
  {
    if events == [] then 0
    else One(Completed(wk, events[0])) + Successes(After(wk, events[0]), events[1..])
  }

  /** The sixth consecutive failure has left the loop, for good. */
  predicate GivesUp(wk: Worker) {
    wk.errors <= MAX_WORKER_CONSECUTIVE_ERRORS + 1 &&
    (wk.errors == MAX_WORKER_CONSECUTIVE_ERRORS + 1 ==> wk.phase.Left?)
  }

  /** The failures that are still possible before the next success. */
  function FailuresLeft(wk: Worker): nat
    requires GivesUp(wk)
  {
    if wk.phase.Left? || wk.phase.Died? || wk.phase.Gone? then 0 else MAX_WORKER_CONSECUTIVE_ERRORS + 1 - wk.errors
  }

  lemma EventUsesUp(wk: Worker, ev: Event)
    requires GivesUp(wk)
    ensures GivesUp(After(wk, ev))
    ensures One(StartFailed(wk, ev)) + FailuresLeft(After(wk, ev)) <= FailuresLeft(wk) + 5 * One(Completed(wk, ev))
  {
  }

  lemma {:induction false} FailuresFrom(wk: Worker, events: seq<Event>)
    requires GivesUp(wk)
    ensures Failures(wk, events) <= 5 * Successes(wk, events) + FailuresLeft(wk)
    ensures GivesUp(RunEvents(wk, events))
    decreases |events|
  {
    if events != [] {
      EventUsesUp(wk, events[0]);
      FailuresFrom(After(wk, events[0]), events[1..]);
    }
  }

  /** With s completed executions a worker has at most 5 * s + 6 failed starts, whatever its control thread does. */
  lemma FailedStartsAreBounded(events: seq<Event>)
    ensures Failures(NEW_WORKER, events) <= 5 * Successes(NEW_WORKER, events) + 6
    ensures GivesUp(RunEvents(NEW_WORKER, events))
  {
    FailuresFrom(NEW_WORKER, events);
  }

  lemma {:induction false} CountsAppend(wk: Worker, events: seq<Event>, ev: Event)
    ensures var last := RunEvents(wk, events);
            && Failures(wk, events + [ev]) == Failures(wk, events) + One(StartFailed(last, ev))
            && Successes(wk, events + [ev]) == Successes(wk, events) + One(Completed(last, ev))
    decreases |events|
  {
    if events == [] {
      assert Failures(After(wk, ev), []) == 0 && Successes(After(wk, ev), []) == 0;
    } else {
      assert (events + [ev])[1..] == events[1..] + [ev];
      CountsAppend(After(wk, events[0]), events[1..], ev);
    }
  }

  /** Some sequence of events brings a new worker to this state with these counts. */
  ghost predicate Can(wk: Worker, failures: nat, successes: nat) {
    exists events ::
      && RunEvents(NEW_WORKER, events) == wk
      && Failures(NEW_WORKER, events) == failures && Successes(NEW_WORKER, events) == successes
  }

  lemma Then(wk: Worker, act: MainAction, next: Worker, failures: nat, successes: nat)
    requires Can(wk, failures, successes) && MainStep(wk, act).0 == next && next.connected && wk != next
    ensures Can(next, failures + One(act.FailStart?), successes + One(act.MarkComplete?))
  {
    var events :|
      && RunEvents(NEW_WORKER, events) == wk
      && Failures(NEW_WORKER, events) == failures && Successes(NEW_WORKER, events) == successes;
    RunEventsAppend(NEW_WORKER, events, Own(act));
    CountsAppend(NEW_WORKER, events, Own(act));
    FailuresFrom(NEW_WORKER, events);
    assert RunEvents(NEW_WORKER, events + [Own(act)]) == next;
  }

  const IDLE := NEW_WORKER.(phase := AtTop)

  lemma FailedTurn(errors: nat, failures: nat, successes: nat)
    requires Can(IDLE.(errors := errors), failures, successes)
    ensures Can(IDLE.(errors := errors + 1, phase := if errors < 5 then AtTop else Left), failures + 1, successes)
  {
    var wk := IDLE.(errors := errors);
    Then(wk, TestTop, wk.(phase := Waiting), failures, successes);
    Then(wk.(phase := Waiting), Receive(0), wk.(phase := Received(0)), failures, successes);
    Then(wk.(phase := Received(0)), TestAgain, wk.(phase := Preparing(0)), failures, successes);
    Then(wk.(phase := Preparing(0)), FailStart,
         wk.(errors := errors + 1, phase := if errors < 5 then AtTop else Left), failures, successes);
  }

  lemma StartedTurn(errors: nat, failures: nat, successes: nat)
    requires Can(IDLE.(errors := errors), failures, successes)
    ensures Can(IDLE.(errors := errors, phase := Started(0)), failures, successes)
  {
    var wk := IDLE.(errors := errors);
    Then(wk, TestTop, wk.(phase := Waiting), failures, successes);
    Then(wk.(phase := Waiting), Receive(0), wk.(phase := Received(0)), failures, successes);
    Then(wk.(phase := Received(0)), TestAgain, wk.(phase := Preparing(0)), failures, successes);
    Then(wk.(phase := Preparing(0)), StartContainer, wk.(phase := Started(0)), failures, successes);
  }

  lemma CompletedTurn(errors: nat, failures: nat, successes: nat)
    requires Can(IDLE.(errors := errors), failures, successes)
    ensures Can(IDLE, failures, successes + 1)
  {
    var wk := IDLE.(errors := errors);
    StartedTurn(errors, failures, successes);
    Then(wk.(phase := Started(0)), MarkRunning, wk.(phase := Supervising(0)), failures, successes);
    Then(wk.(phase := Supervising(0)), FinishRun, wk.(phase := Finished(0)), failures, successes);
    Then(wk.(phase := Finished(0)), Ack, wk.(phase := Settled(0)), failures, successes);
    Then(wk.(phase := Settled(0)), MarkComplete, IDLE, failures, successes);
  }

  /** Five failures before each success. */
  lemma {:induction false} FailingRounds(successes: nat, errors: nat)
    requires errors <= 5
    ensures Can(IDLE.(errors := errors), 5 * successes + errors, successes)
    decreases successes, errors
  {
    if errors > 0 {
      FailingRounds(successes, errors - 1);
      FailedTurn(errors - 1, 5 * successes + errors - 1, successes);
    } else if successes > 0 {
      FailingRounds(successes - 1, 5);
      CompletedTurn(5, 5 * successes, successes - 1);
    } else {
      assert RunEvents(NEW_WORKER, []) == NEW_WORKER && Can(NEW_WORKER, 0, 0);
      Then(NEW_WORKER, Begin, IDLE, 0, 0);
    }
  }

  /** The bound is exact for every number of completed executions. */
  lemma FailedStartsBoundIsTight(successes: nat)
    ensures exists events ::
              && Successes(NEW_WORKER, events) == successes
              && Failures(NEW_WORKER, events) == 5 * successes + 6
  {
    FailingRounds(successes, 5);
    FailedTurn(5, 5 * successes + 5, successes);
  }

  // ---------------------------------------------------------------------------------------------
  // The loop
  // ---------------------------------------------------------------------------------------------

  /** How one iteration of the loop turns out, once a message is received and the worker may still run. */
  datatype Outcome =
    | PreparationFails(nacks: bool) | StartFails | CreateFails | MarkFails | RunFails | Completes
    | FinalizeFails(written: bool)

  /**
   One iteration: whether the control thread clears keep_running before the loop test; whether get_one raises, which it
   does on a closed connection; whether keep_running is cleared before the second test; and whether the connection ends
   before the message is settled, in which case settling it raises.
   */
  datatype Turn =
    Turn(stopBefore: bool, receiveFails: bool, m: Eid, stopDuring: bool, closes: bool, outcome: Outcome)

  function Concluding(m: Eid, outcome: Outcome, closes: bool): seq<Effect> {
    if closes then []
    else
      [Acknowledge(m)] +
      if outcome.Completes? || (outcome.FinalizeFails? && outcome.written) then [SetStatus(m, Complete)] else []
  }

  /** What an iteration does with a message once the worker may still run. */
  function Handling(m: Eid, outcome: Outcome, closes: bool): seq<Effect> {
    match outcome
    case PreparationFails(nacks) => if nacks && !closes then [Requeue(m)] else []
    case StartFails => if closes then [] else [Requeue(m)]
    case CreateFails => if closes then [] else [Acknowledge(m)]
    case MarkFails => [Launch(m)] + if closes then [] else [Acknowledge(m)]
    case RunFails => [Launch(m), SetStatus(m, Running)] + if closes then [] else [Acknowledge(m)]
    case _ => [Launch(m), SetStatus(m, Running)] + Concluding(m, outcome, closes)
  }

  /** Whether the loop goes on after it; of its failures only the first five in a row to start a container let it. */
  predicate GoesOn(outcome: Outcome, errors: nat) {
    outcome.Completes? || (outcome.StartFails? && errors < MAX_WORKER_CONSECUTIVE_ERRORS)
  }

  function NextErrors(outcome: Outcome, errors: nat): nat {
    if outcome.Completes? then 0 else errors + 1
  }

  function InTurn(t: Turn): seq<Effect> {
    if t.stopBefore || t.receiveFails then []
    else if t.stopDuring then [Take(t.m)] + if t.closes then [] else [Requeue(t.m)]
    else [Take(t.m)] + Handling(t.m, t.outcome, t.closes)
  }

  predicate TurnGoesOn(t: Turn, errors: nat) {
    !t.stopBefore && !t.receiveFails && !t.stopDuring && !t.closes && GoesOn(t.outcome, errors)
  }

  /** Everything that the loop does, iteration by iteration. */
  function Doings(turns: seq<Turn>, errors: nat): seq<Effect>
    decreases |turns|
  {
    if turns == [] then []
    else InTurn(turns[0]) +
         if TurnGoesOn(turns[0], errors) then Doings(turns[1..], NextErrors(turns[0].outcome, errors)) else []
  }

  lemma FirstTurn(t: Turn, rest: seq<Turn>, errors: nat)
    ensures Doings([t] + rest, errors)
         == InTurn(t) + if TurnGoesOn(t, errors) then Doings(rest, NextErrors(t.outcome, errors)) else []
  {
    assert ([t] + rest)[0] == t && ([t] + rest)[1..] == rest;
  }

  /** A turn that does not get as far as a message that may be processed is the last one. */
  lemma StoppedTurnIsLast(t: Turn, rest: seq<Turn>, errors: nat)
    requires t.stopBefore || t.receiveFails || t.stopDuring
    ensures Doings([t] + rest, errors)
         == if t.stopBefore || t.receiveFails then [] else if t.closes then [Take(t.m)] else [Take(t.m), Requeue(t.m)]
  {
    FirstTurn(t, rest, errors);
  }

  /** After a completed execution the loop goes on with no errors, however many there were. */
  lemma CompletedTurnGoesOn(m: Eid, rest: seq<Turn>, errors: nat)
    ensures Doings([Turn(false, false, m, false, false, Completes)] + rest, errors)
         == [Take(m), Launch(m), SetStatus(m, Running), Acknowledge(m), SetStatus(m, Complete)] + Doings(rest, 0)
  {
    FirstTurn(Turn(false, false, m, false, false, Completes), rest, errors);
  }

  /** The message of a container that does not start goes back; five failures in a row let the loop go on. */
  lemma FailedTurnGoesOnIff(m: Eid, rest: seq<Turn>, errors: nat)
    ensures Doings([Turn(false, false, m, false, false, StartFails)] + rest, errors)
         == [Take(m), Requeue(m)] + if errors < 5 then Doings(rest, errors + 1) else []
  {
    FirstTurn(Turn(false, false, m, false, false, StartFails), rest, errors);
  }

  /**
   Every other failure, and a connection that ends before the message is settled, is the end of the loop.  Only a
   failed preparation may give the message back; after it the message is acknowledged unless the connection has ended.
   */
  lemma OtherTurnIsLast(m: Eid, closes: bool, outcome: Outcome, rest: seq<Turn>, errors: nat)
    requires closes || !(outcome.Completes? || outcome.StartFails?)
    ensures var settled := if closes then [] else [Acknowledge(m)];
            Doings([Turn(false, false, m, false, closes, outcome)] + rest, errors)
              == [Take(m)] + match outcome {
                   case PreparationFails(nacks) => if nacks && !closes then [Requeue(m)] else []
                   case StartFails => []
                   case CreateFails => settled
                   case MarkFails => [Launch(m)] + settled
                   case RunFails => [Launch(m), SetStatus(m, Running)] + settled
                   case FinalizeFails(written) =>
                     [Launch(m), SetStatus(m, Running)] + settled +
                     if written && !closes then [SetStatus(m, Complete)] else []
                   case Completes => [Launch(m), SetStatus(m, Running)]
                 }
  {
    FirstTurn(Turn(false, false, m, false, closes, outcome), rest, errors);
  }

  lemma MovedOn(log: seq<Effect>, done: seq<Effect>, rest: seq<Effect>)
    ensures (log + done) + rest == log + (done + rest)
  {
  }

  lemma DoingsAfter(turns: seq<Turn>, i: nat, errors: nat) returns (rest: seq<Effect>)
    requires i < |turns|
    ensures rest ==
      if TurnGoesOn(turns[i], errors) then Doings(turns[i + 1..], NextErrors(turns[i].outcome, errors)) else []
    ensures Doings(turns[i..], errors) == InTurn(turns[i]) + rest
  {
    assert turns[i..][0] == turns[i] && turns[i..][1..] == turns[i + 1..];
    rest := if TurnGoesOn(turns[i], errors) then Doings(turns[i + 1..], NextErrors(turns[i].outcome, errors)) else [];
  }

  class Subscriber {
    var keepRunning: bool
    var connected: bool
    var log: seq<Effect>           // everything done to the mailbox, the docker daemon and the executions
    ghost var events: seq<Event>   // the steps of the delivery system that were taken

    constructor ()
      ensures keepRunning && connected && log == [] && events == []
    {
      keepRunning, connected, log, events := true, true, [], [];
    }

    ghost function Mirror(): Worker
      reads this
    {
      RunEvents(NEW_WORKER, events)
    }

    /** The log is what the delivery system's steps do, and both agree on keep_running and the connection. */
    ghost predicate Valid()
      reads this
    {
      Mirror().keepRunning == keepRunning && Mirror().connected == connected && log == Effects(NEW_WORKER, events)
    }

    /** A call that takes effect outside, which is one step of the delivery system. */
    method Call(e: Effect, ghost act: MainAction, ghost next: Worker)
      requires Valid() && MainStep(Mirror(), act) == (next, e) && !e.Nothing?
      requires next.keepRunning == keepRunning && next.connected == connected
      modifies this`log, this`events
      ensures Valid() && Mirror() == next && log == old(log) + [e]
    {
      RunEventsAppend(NEW_WORKER, events, Own(act));
      log := log + [e];
      events := events + [Own(act)];
    }

    /** A step of the delivery system without effect outside. */
    ghost method Move(act: MainAction, next: Worker)
      requires Valid() && MainStep(Mirror(), act) == (next, Nothing)
      requires next.keepRunning == keepRunning && next.connected == connected
      modifies this`events
      ensures Valid() && Mirror() == next
    {
      RunEventsAppend(NEW_WORKER, events, Own(act));
      events := events + [Own(act)];
    }

    method ControlThreadStops()
      requires Valid()
      modifies this`keepRunning, this`events
      ensures Valid() && !keepRunning && Mirror() == old(Mirror()).(keepRunning := false)
    {
      RunEventsAppend(NEW_WORKER, events, ClearKeepRunning);
      events := events + [ClearKeepRunning];
      keepRunning := false;
    }

    method ConnectionEnds()
      requires Valid()
      modifies this`connected, this`events
      ensures Valid() && !connected && Mirror() == old(Mirror()).(connected := false)
    {
      RunEventsAppend(NEW_WORKER, events, CloseConnection);
      events := events + [CloseConnection];
      connected := false;
    }

    /** The worker of the delivery system in a phase of the loop. */
    ghost function At(phase: Phase, errors: nat): Worker
      reads this`keepRunning, this`connected
    {
      NEW_WORKER.(phase := phase, keepRunning := keepRunning, connected := connected, errors := errors)
    }

    ghost predicate OutOfLoop()
      reads this
    {
      Mirror().phase.Left? || Mirror().phase.Died?
    }

    /** Acknowledging or requeueing the message.  On a closed connection the call raises and the main thread dies. */
    method Settle(e: Effect, closes: bool, ghost act: MainAction, ghost next: Worker)
      requires Valid() && connected && (e.Acknowledge? || e.Requeue?) && MainStep(Mirror(), act) == (next, e)
      requires next.keepRunning == keepRunning && next.connected
      modifies this`connected, this`log, this`events
      ensures Valid() && connected == !closes
      ensures log == old(log) + if closes then [] else [e]
      ensures if closes then OutOfLoop() else Mirror() == next
    {
      if closes {
        ConnectionEnds();
        Move(act, Mirror().(phase := Died));
      } else {
        Call(e, act, next);
      }
    }

    /** get_one and the second test of keep_running; `prepared` says whether the message will be processed. */
    method ReceiveOne(t: Turn, ghost errors: nat) returns (prepared: bool)
      requires Valid() && connected && keepRunning && Mirror() == At(Waiting, errors)
      modifies this
      ensures Valid() && (if prepared then Mirror() == At(Preparing(t.m), errors) && connected else OutOfLoop())
      ensures prepared == (!t.receiveFails && !t.stopDuring) && keepRunning == (t.receiveFails || !t.stopDuring)
      ensures log == old(log) + if t.receiveFails then [] else if prepared then [Take(t.m)]
                                else [Take(t.m)] + if t.closes then [] else [Requeue(t.m)]
    {
      if t.receiveFails {
        Move(FailReceive, At(Died, errors));
        return false;
      }
      Call(Take(t.m), Receive(t.m), At(Received(t.m), errors));
      prepared := !t.stopDuring;
      if prepared {
        Move(TestAgain, At(Preparing(t.m), errors));
      } else {
        ControlThreadStops();
        Settle(Requeue(t.m), t.closes, TestAgain, At(Died, errors));
      }
    }

    method Finalize(m: Eid, outcome: Outcome, ghost errors: nat)
      requires Valid() && connected && Mirror() == At(Settled(m), errors)
      requires outcome.FinalizeFails? || outcome.Completes?
      modifies this`log, this`events
      ensures Valid() && (if outcome.Completes? then Mirror() == At(AtTop, 0) else OutOfLoop())
      ensures log == old(log) + if outcome.Completes? || outcome.written then [SetStatus(m, Complete)] else []
    {
      if outcome.Completes? {
        Call(SetStatus(m, Complete), MarkComplete, At(AtTop, 0));
      } else if outcome.written {
        Call(SetStatus(m, Complete), FailFinalize(true), At(Died, errors));
      } else {
        Move(FailFinalize(false), At(Died, errors));
      }
    }

    /** The acknowledgement and the completion of the execution. */
    method Conclude(m: Eid, outcome: Outcome, closes: bool, ghost errors: nat) returns (completed: bool)
      requires Valid() && connected && Mirror() == At(Finished(m), errors)
      requires outcome.FinalizeFails? || outcome.Completes?
      modifies this`connected, this`log, this`events
      ensures Valid() && (if completed then Mirror() == At(AtTop, 0) && connected else OutOfLoop())
      ensures completed == (!closes && outcome.Completes?)
      ensures log == old(log) + Concluding(m, outcome, closes)
    {
      completed := false;
      Settle(Acknowledge(m), closes, Ack, At(Settled(m), errors));
      if !closes {
        completed := outcome.Completes?;
        Finalize(m, outcome, errors);
      }
    }

    /** From the status RUNNING to the end of the iteration. */
    method Supervise(m: Eid, outcome: Outcome, closes: bool, ghost errors: nat) returns (completed: bool)
      requires Valid() && connected && Mirror() == At(Started(m), errors)
      requires outcome.RunFails? || outcome.FinalizeFails? || outcome.Completes?
      modifies this`connected, this`log, this`events
      ensures Valid() && (if completed then Mirror() == At(AtTop, 0) && connected else OutOfLoop())
      ensures completed == (!closes && outcome.Completes?)
      ensures log == old(log) + [SetStatus(m, Running)] +
                if !outcome.RunFails? then Concluding(m, outcome, closes) else if closes then [] else [Acknowledge(m)]
    {
      completed := false;
      Call(SetStatus(m, Running), MarkRunning, At(Supervising(m), errors));
      if outcome.RunFails? {
        Settle(Acknowledge(m), closes, FailRun, At(Left, errors));
        return;
      }
      Move(FinishRun, At(Finished(m), errors));
      completed := Conclude(m, outcome, closes, errors);
    }

    method Execute(m: Eid, outcome: Outcome, closes: bool, consecutiveErrors: nat) returns (errors: nat, again: bool)
      requires Valid() && connected && Mirror() == At(Preparing(m), consecutiveErrors)
      requires outcome.MarkFails? || outcome.RunFails? || outcome.FinalizeFails? || outcome.Completes?
      modifies this`connected, this`log, this`events
      ensures Valid() && (if again then Mirror() == At(AtTop, errors) && connected else OutOfLoop())
      ensures log == old(log) + Handling(m, outcome, closes)
      ensures again == (!closes && outcome.Completes?) && (again ==> errors == 0)
    {
      errors, again := consecutiveErrors, false;
      Call(Launch(m), StartContainer, At(Started(m), errors));
      if outcome.MarkFails? {
        Settle(Acknowledge(m), closes, FailMark, At(Left, errors));
      } else {
        again := Supervise(m, outcome, closes, errors);
        errors := if again then 0 else errors;
      }
    }

    /** The rest of an iteration; `again` says whether the loop goes on. */
    method ProcessMessage(m: Eid, outcome: Outcome, closes: bool, consecutiveErrors: nat)
      returns (errors: nat, again: bool)
      requires Valid() && connected && Mirror() == At(Preparing(m), consecutiveErrors)
      modifies this`connected, this`log, this`events
      ensures Valid() && (if again then Mirror() == At(AtTop, errors) && connected else OutOfLoop())
      ensures log == old(log) + Handling(m, outcome, closes)
      ensures again == (!closes && GoesOn(outcome, consecutiveErrors))
      ensures again ==> errors == NextErrors(outcome, consecutiveErrors)
    {
      errors, again := consecutiveErrors, false;
      match outcome
      case PreparationFails(nacks) =>
        if nacks {
          Settle(Requeue(m), closes, FailPreparation(true), At(Died, errors));
        } else {
          Move(FailPreparation(false), At(Died, errors));
        }
      case StartFails =>
        again := !closes && errors + 1 <= MAX_WORKER_CONSECUTIVE_ERRORS;
        Settle(Requeue(m), closes, FailStart,
               At(if errors + 1 <= MAX_WORKER_CONSECUTIVE_ERRORS then AtTop else Left, errors + 1));
        errors := errors + 1;
      case CreateFails =>
        Settle(Acknowledge(m), closes, FailCreate, At(Left, errors));
      case _ =>
        errors, again := Execute(m, outcome, closes, errors);
    }

    /** One iteration of the loop. */
    method TakeTurn(t: Turn, consecutiveErrors: nat) returns (errors: nat, again: bool)
      requires Valid() && Mirror() == At(AtTop, consecutiveErrors) && keepRunning && connected
      modifies this
      ensures Valid() && (if again then Mirror() == At(AtTop, errors) && keepRunning && connected else OutOfLoop())
      ensures log == old(log) + InTurn(t)
      ensures again == TurnGoesOn(t, consecutiveErrors)
      ensures again ==> errors == NextErrors(t.outcome, consecutiveErrors)
    {
      errors := consecutiveErrors;
      if t.stopBefore {
        ControlThreadStops();
      }
      Move(TestTop, At(if keepRunning then Waiting else Left, errors));
      again := keepRunning;
      if again {
        again := ReceiveOne(t, errors);
      }
      if again {
        errors, again := ProcessMessage(t.m, t.outcome, t.closes, errors);
      }
    }

    ghost method WaitForMore(errors: nat)
      requires Valid() && Mirror() == At(AtTop, errors) && keepRunning
      modifies this`events
      ensures Valid() && Mirror().phase.Waiting?
    {
      Move(TestTop, At(Waiting, errors));
    }

    method Loop(turns: seq<Turn>)
      requires Valid() && Mirror() == At(AtTop, 0) && keepRunning && connected
      modifies this
      ensures Valid() && log == old(log) + Doings(turns, 0)
      ensures Mirror().phase.Waiting? || OutOfLoop()
    {
      var consecutiveErrors := 0;
      var again := true;
      var i := 0;
      ghost var rest := Doings(turns, 0);
      ghost var total := log + rest;
      while again && i < |turns|
        invariant 0 <= i <= |turns| && Valid()
        invariant if again then Mirror() == At(AtTop, consecutiveErrors) && keepRunning && connected else OutOfLoop()
        invariant rest == if again then Doings(turns[i..], consecutiveErrors) else []
        invariant log + rest == total
        decreases |turns| - i
      {
        ghost var before := log;
        rest := DoingsAfter(turns, i, consecutiveErrors);
        consecutiveErrors, again := TakeTurn(turns[i], consecutiveErrors);
        MovedOn(before, InTurn(turns[i]), rest);
        i := i + 1;
      }
      assert rest == [] && log == log + rest;
      if again {
        WaitForMore(consecutiveErrors);
      }
    }

    /**
     The whole loop.  `turns` says what the environment does in each iteration; when it ends the loop still waits for
     a message.  The contract says what the loop does in every environment that does not end the process, and that this
     is exactly what a sequence of steps of the delivery system does: every run of the program is a run of that system.
     */
    method Subscribe(turns: seq<Turn>)
      requires log == [] && events == [] && connected
      modifies this
      ensures log == Doings(turns, 0) == Effects(NEW_WORKER, events)
      ensures Failures(NEW_WORKER, events) <= 5 * Successes(NEW_WORKER, events) + 6
      ensures Mirror().phase.Waiting? || OutOfLoop()
    {
      keepRunning := true;
      Move(Begin, At(AtTop, 0));
      Loop(turns);
      FailedStartsAreBounded(events);
    }
  }
}

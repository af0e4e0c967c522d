/**
 Whether a queued stop can still be handled.  The lifecycle protocol keeps the stop of every shutdown request that has
 returned (as far as WorkerLifecycle proves), but a stop is of no use to a thread that has died or never starts.
 */
module ShutdownProgress {
  import opened Options
  import opened WorkerRecords
  import opened WorkerLifecycle

  /** A step of the worker's own threads, or else, when that is asked for, of its spawner. */
  predicate Own(a: Action, spawnerToo: bool) {
    a.ByWorker? || (spawnerToo && a.BySpawner?)
  }

  ghost predicate ReachesBy(s: State, t: State, spawnerToo: bool) {
    exists steps: seq<Action> :: (forall i :: 0 <= i < |steps| ==> Own(steps[i], spawnerToo)) && Run(s, steps) == t
  }

  /** Some continuation by these steps deletes the worker's document. */
  ghost predicate CanGo(s: State, spawnerToo: bool) {
    exists t :: ReachesBy(s, t, spawnerToo) && t.rec.None?
  }

  lemma Stay(s: State, spawnerToo: bool)
    ensures ReachesBy(s, s, spawnerToo)
  {
    assert Run(s, []) == s;
  }

  lemma Extend(s: State, t: State, a: Action, next: State, spawnerToo: bool)
    requires ReachesBy(s, t, spawnerToo) && Own(a, spawnerToo) && Step(t, a) == next
    ensures ReachesBy(s, next, spawnerToo)
  {
    var steps :| (forall i :: 0 <= i < |steps| ==> Own(steps[i], spawnerToo)) && Run(s, steps) == t;
    RunAppend(s, steps, a);
    var more := steps + [a];
    assert forall i :: 0 <= i < |more| ==> Own(more[i], spawnerToo);
  }

  // ---------------------------------------------------------------------------------------------
  // The worker's own threads
  // ---------------------------------------------------------------------------------------------

  /** The control thread runs, or its handshake is already under way. */
  predicate ThreadCanHandle(s: State) {
    s.thread.Listening? || HandlingStop(s.thread) || (s.thread.NotStarted? && s.handshake)
  }

  lemma MarkedDeletes(s: State, t: State, spawnerToo: bool)
    requires ReachesBy(s, t, spawnerToo) && HandlingStop(t.thread)
    ensures CanGo(s, spawnerToo)
  {
    var marked := if t.thread.Marked? then t else WorkerStep(t, MarkShuttingDown(true));
    if !t.thread.Marked? {
      Extend(s, t, ByWorker(MarkShuttingDown(true)), marked, spawnerToo);
    }
    Extend(s, marked, ByWorker(DeleteRecord), WorkerStep(marked, DeleteRecord), spawnerToo);
  }

  /** A listening thread gets to the stop, message by message. */
  lemma {:induction false} ListeningDeletes(s: State, t: State, spawnerToo: bool)
    requires ReachesBy(s, t, spawnerToo) && t.thread.Listening? && StopQueued(t)
    ensures CanGo(s, spawnerToo)
    decreases |t.channel|
  {
    var next := WorkerStep(t, TakeMessage);
    Extend(s, t, ByWorker(TakeMessage), next, spawnerToo);
    if t.channel[0].Stop? {
      MarkedDeletes(s, next, spawnerToo);
    } else {
      assert t.channel == [t.channel[0]] + next.channel;
      ListeningDeletes(s, next, spawnerToo);
    }
  }

  lemma ThreadDeletes(s: State, t: State, spawnerToo: bool)
    requires ReachesBy(s, t, spawnerToo) && StopQueued(t) && ThreadCanHandle(t)
    ensures CanGo(s, spawnerToo)
  {
    if HandlingStop(t.thread) {
      MarkedDeletes(s, t, spawnerToo);
    } else if t.thread.Listening? {
      ListeningDeletes(s, t, spawnerToo);
    } else {
      var next := WorkerStep(t, StartThread);
      Extend(s, t, ByWorker(StartThread), next, spawnerToo);
      ListeningDeletes(s, next, spawnerToo);
    }
  }

  /** The thread has died, or has not started and does not know that it may. */
  predicate ThreadIsOut(s: State) {
    s.rec.Some? &&
    (s.thread.Crashed? || s.thread.Failed? || s.thread.Removed? || (s.thread.NotStarted? && !s.handshake))
  }

  lemma {:induction false} OutStaysOut(s: State, steps: seq<Action>)
    requires ThreadIsOut(s) && forall i :: 0 <= i < |steps| ==> Own(steps[i], false)
    ensures ThreadIsOut(Run(s, steps))
    decreases |steps|
  {
    if steps != [] {
      OutStaysOut(Step(s, steps[0]), steps[1..]);
    }
  }

  /**
   In every reachable state in which a stop is queued for a visible worker: the worker's own steps can still delete the
   document exactly when its control thread runs or its handshake has been sent.
   */
  lemma WorkerHandlesStopIff(actor: string, hasClient: bool, actions: seq<Action>)
    requires var s := Run(Init(actor, hasClient), actions); StopQueued(s) && Visible(s.rec)
    ensures var s := Run(Init(actor, hasClient), actions); CanGo(s, false) <==> ThreadCanHandle(s)
  {
    var s := Run(Init(actor, hasClient), actions);
    RunKeepsInv(Init(actor, hasClient), actions);
    if ThreadCanHandle(s) {
      Stay(s, false);
      ThreadDeletes(s, s, false);
    } else {
      assert ThreadIsOut(s);
      forall t | ReachesBy(s, t, false) ensures t.rec.Some? {
        var steps :| (forall i :: 0 <= i < |steps| ==> Own(steps[i], false)) && Run(s, steps) == t;
        OutStaysOut(s, steps);
      }
    }
  }

  // ---------------------------------------------------------------------------------------------
  // With the spawner
  // ---------------------------------------------------------------------------------------------

  /** Statuses with which error_out_actor may delete a document: unstarted, or running when its stops cannot be sent. */
  predicate ErrorDeletes(status: Option<Status>) {
    RunningStatus(status) || UnstartedStatus(status)
  }

  /**
   The spawner can still send the handshake to a worker whose thread has not been removed, or delete the document itself
   on one of its error paths.
   */
  predicate SpawnerCanFinish(s: State)
    requires s.rec.Some?
  {
    match s.spawner
    case SpawnerDone => false
    case ErrorSeen(status) => ErrorDeletes(status)
    case ErrorOut => ErrorDeletes(s.rec.value.status)
    case Added => s.thread.NotStarted? || ErrorDeletes(s.rec.value.status)
    case _ => true
  }

  predicate AcceptedStatus(status: Option<Status>) {
    status == Some(Requested) || (status.Some? && IsShutdownStatus(status.value))
  }

  /** A spawner that has not decided yet finds the worker requested or its shutdown requested. */
  predicate SpawnerWillAccept(s: State) {
    (s.spawner.Waiting? ==> s.rec.Some? && AcceptedStatus(s.rec.value.status)) &&
    (s.spawner.Checked? ==> AcceptedStatus(s.spawner.seen))
  }

  lemma SpawnerKeepsAcceptance(s: State, a: SpawnerAction)
    requires SpawnerWillAccept(s)
    ensures SpawnerWillAccept(SpawnerStep(s, a))
  {
  }

  lemma WorkerKeepsAcceptance(s: State, a: WorkerAction)
    requires HandshakeOrder(s) && SpawnerWillAccept(s)
    ensures SpawnerWillAccept(WorkerStep(s, a))
  {
  }

  lemma OutsideKeepsAcceptance(s: State, a: OutsideAction)
    requires HandshakeOrder(s) && SpawnerWillAccept(s)
    ensures SpawnerWillAccept(OutsideStep(s, a))
  {
  }

  lemma StepKeepsAcceptance(s: State, a: Action)
    requires Inv(s) && SpawnerWillAccept(s)
    ensures SpawnerWillAccept(Step(s, a))
  {
    match a
    case BySpawner(b) => SpawnerKeepsAcceptance(s, b);
    case ByWorker(b) => WorkerKeepsAcceptance(s, b);
    case FromOutside(b) => OutsideKeepsAcceptance(s, b);
  }

  lemma {:induction false} RunKeepsAcceptance(s: State, actions: seq<Action>)
    requires Inv(s) && SpawnerWillAccept(s)
    ensures SpawnerWillAccept(Run(s, actions))
    decreases |actions|
  {
    if actions != [] {
      StepKeepsInv(s, actions[0]);
      StepKeepsAcceptance(s, actions[0]);
      RunKeepsAcceptance(Step(s, actions[0]), actions[1..]);
    }
  }

  lemma ErrorPathDeletes(s: State, t: State)
    requires ReachesBy(s, t, true) && t.rec.Some?
    requires t.spawner == ErrorOut && ErrorDeletes(t.rec.value.status)
    ensures CanGo(s, true)
  {
    var seen := SpawnerStep(t, ErrorRead);
    Extend(s, t, BySpawner(ErrorRead), seen, true);
    Extend(s, seen, BySpawner(ErrorAct(false)), SpawnerStep(seen, ErrorAct(false)), true);
  }

  lemma AddedFinishes(s: State, t: State)
    requires ReachesBy(s, t, true) && t.spawner.Added? && t.rec.Some? && StopQueued(t) && SpawnerCanFinish(t)
    ensures CanGo(s, true)
  {
    if t.thread.NotStarted? {
      var sent := SpawnerStep(t, SendHandshake(true));
      Extend(s, t, BySpawner(SendHandshake(true)), sent, true);
      ThreadDeletes(s, sent, true);
    } else {
      var lost := SpawnerStep(t, SendHandshake(false));
      Extend(s, t, BySpawner(SendHandshake(false)), lost, true);
      ErrorPathDeletes(s, lost);
    }
  }

  /** From the decision on. */
  lemma StartingFinishes(s: State, t: State)
    requires ReachesBy(s, t, true) && t.rec.Some? && StopQueued(t) && t.thread.NotStarted?
    requires t.spawner.Setup? || t.spawner.Pulling? || t.spawner.Creating? || t.spawner.Launched?
    ensures CanGo(s, true)
  {
    match t.spawner
    case Setup => Extend(s, t, BySpawner(FailClientGeneration), SpawnerStep(t, FailClientGeneration), true);
    case Pulling =>
      var creating := SpawnerStep(t, Create(true));
      Extend(s, t, BySpawner(Create(true)), creating, true);
      Extend(s, creating, BySpawner(RunFails), SpawnerStep(creating, RunFails), true);
    case Creating(_) => Extend(s, t, BySpawner(RunFails), SpawnerStep(t, RunFails), true);
    case Launched =>
      var added := SpawnerStep(t, AddToStore("host"));
      Extend(s, t, BySpawner(AddToStore("host")), added, true);
      AddedFinishes(s, added);
  }

  lemma SpawnerFinishes(s: State)
    requires Inv(s) && SpawnerWillAccept(s) && s.rec.Some? && StopQueued(s) && SpawnerCanFinish(s)
    ensures CanGo(s, true)
  {
    Stay(s, true);
    match s.spawner
    case Waiting =>
      var checked := SpawnerStep(s, ReadDocument);
      Extend(s, s, BySpawner(ReadDocument), checked, true);
      Extend(s, checked, BySpawner(Decide(true, true)), SpawnerStep(checked, Decide(true, true)), true);
    case Checked(_) => Extend(s, s, BySpawner(Decide(true, true)), SpawnerStep(s, Decide(true, true)), true);
    case ErrorSeen(_) => Extend(s, s, BySpawner(ErrorAct(false)), SpawnerStep(s, ErrorAct(false)), true);
    case ErrorOut => ErrorPathDeletes(s, s);
    case Added => AddedFinishes(s, s);
    case _ => StartingFinishes(s, s);
  }

  /** The main thread ends with the container. */
  predicate RemovedIsDone(s: State) {
    s.thread.Removed? ==> s.main.MainDone?
  }

  lemma WorkerKeepsRemovedDone(s: State, a: WorkerAction)
    requires RemovedIsDone(s)
    ensures RemovedIsDone(WorkerStep(s, a))
  {
  }

  lemma OutsideKeepsRemovedDone(s: State, a: OutsideAction)
    requires RemovedIsDone(s)
    ensures RemovedIsDone(OutsideStep(s, a))
  {
  }

  lemma SpawnerKeepsRemovedDone(s: State, a: SpawnerAction)
    requires RemovedIsDone(s)
    ensures RemovedIsDone(SpawnerStep(s, a))
  {
  }

  lemma StepKeepsRemovedDone(s: State, a: Action)
    requires RemovedIsDone(s)
    ensures RemovedIsDone(Step(s, a))
  {
    match a
    case BySpawner(b) => SpawnerKeepsRemovedDone(s, b);
    case ByWorker(b) => WorkerKeepsRemovedDone(s, b);
    case FromOutside(b) => OutsideKeepsRemovedDone(s, b);
  }

  lemma {:induction false} RunKeepsRemovedDone(s: State, actions: seq<Action>)
    requires RemovedIsDone(s)
    ensures RemovedIsDone(Run(s, actions))
    decreases |actions|
  {
    if actions != [] {
      StepKeepsRemovedDone(s, actions[0]);
      RunKeepsRemovedDone(Step(s, actions[0]), actions[1..]);
    }
  }

  /** Neither the worker nor its spawner will delete this document. */
  predicate Abandoned(s: State) {
    HandshakeOrder(s) && RemovedIsDone(s) && ThreadIsOut(s) && !SpawnerCanFinish(s)
  }

  lemma OwnStepKeepsAbandoned(s: State, a: Action)
    requires Abandoned(s) && Own(a, true)
    ensures Abandoned(Step(s, a))
  {
    match a
    case BySpawner(b) => SpawnerKeepsHandshakeOrder(s, b);
    case ByWorker(b) => WorkerKeepsHandshakeOrder(s, b);
  }

  lemma {:induction false} AbandonedForGood(s: State, steps: seq<Action>)
    requires Abandoned(s) && forall i :: 0 <= i < |steps| ==> Own(steps[i], true)
    ensures Run(s, steps).rec.Some?
    decreases |steps|
  {
    if steps != [] {
      OwnStepKeepsAbandoned(s, steps[0]);
      AbandonedForGood(Step(s, steps[0]), steps[1..]);
    }
  }

  /**
   In every reachable state in which a stop is queued for a visible worker: some continuation by the worker and its
   spawner deletes the document exactly when the thread can handle the stop, or the spawner can still send the handshake
   or take an error path that deletes.  In all other states it takes a health agent.
   */
  lemma ShutdownCanFinishIff(actor: string, hasClient: bool, actions: seq<Action>)
    requires var s := Run(Init(actor, hasClient), actions); StopQueued(s) && Visible(s.rec)
    ensures var s := Run(Init(actor, hasClient), actions);
            CanGo(s, true) <==> ThreadCanHandle(s) || SpawnerCanFinish(s)
  {
    var s := Run(Init(actor, hasClient), actions);
    RunKeepsInv(Init(actor, hasClient), actions);
    RunKeepsAcceptance(Init(actor, hasClient), actions);
    RunKeepsRemovedDone(Init(actor, hasClient), actions);
    if ThreadCanHandle(s) {
      Stay(s, true);
      ThreadDeletes(s, s, true);
    } else if SpawnerCanFinish(s) {
      SpawnerFinishes(s);
    } else {
      forall t | ReachesBy(s, t, true) ensures t.rec.Some? {
        var steps :| (forall i :: 0 <= i < |steps| ==> Own(steps[i], true)) && Run(s, steps) == t;
        AbandonedForGood(s, steps);
      }
    }
  }

  /**
   Such a state is reachable, also without a client: a thread that raised while it answered a health check is dead, and
   the stop of a later shutdown request stays in its channel.
   */
  lemma QueuedStopNeverHandled(actor: string) returns (s: State)
    ensures Reachable(Init(actor, false), s)
    ensures Visible(s.rec) && Returned in s.requesters && StopQueued(s) && !CanGo(s, true)
  {
    var init := Init(actor, false);
    s := StartedWorker(actor, false);
    s := Take(init, s, ByWorker(ThreadRaises));
    s := Take(init, s, FromOutside(RequestShutdown(false, true)));
    s := Take(init, s, FromOutside(PutStop(0)));
    assert s.channel == [Stop(false)] && s.requesters == [Returned];
    var actions :| Run(init, actions) == s;
    ShutdownCanFinishIff(actor, false, actions);
  }

  // ---------------------------------------------------------------------------------------------
  // How soon
  // ---------------------------------------------------------------------------------------------

  /** The thread will come to a stop, handles one, or has deleted the document. */
  predicate OnItsWay(s: State) {
    (s.thread.Listening? && StopQueued(s)) || HandlingStop(s.thread) || TornDown(s.thread)
  }

  /** The thread's steps up to the deletion: the messages up to the first stop, the status, the document. */
  function StepsToGo(s: State): nat {
    match s.thread
    case Listening => FirstStop(s.channel) + 3
    case Stopping(_) => 2
    case Marked => 1
    case _ => 0
  }

  /** A step of the thread on that way, taken where it is possible. */
  predicate MovesOn(s: State, a: Action) {
    a.ByWorker? &&
    ((a.wk.TakeMessage? && s.thread.Listening? && s.channel != []) ||
     (a.wk.MarkShuttingDown? && s.thread.Stopping?) ||
     (a.wk.DeleteRecord? && s.thread.Marked?))
  }

  function MovesIn(s: State, actions: seq<Action>): nat
    decreases |actions|
  {
    if actions == [] then 0 else (if MovesOn(s, actions[0]) then 1 else 0) + MovesIn(Step(s, actions[0]), actions[1..])
  }

  /** The thread does not raise, and no health agent removes its container or its channel. */
  predicate Spares(a: Action) {
    match a
    case BySpawner(_) => true
    case ByWorker(b) => !b.ThreadRaises? && !b.DeleteClientFails?
    case FromOutside(b) => !(b.ProbeTimesOut? && b.removed) && !b.DeleteAgentChannel?
  }

  lemma {:induction false} QueuedHasFirst(queue: seq<Msg>)
    ensures Stop(true) in queue || Stop(false) in queue <==> FirstStop(queue) < |queue|
  {
    if queue != [] && !queue[0].Stop? {
      QueuedHasFirst(queue[1..]);
      assert queue == [queue[0]] + queue[1..];
    } else if queue != [] {
      assert queue[0] in queue && queue[0] == Stop(queue[0].deleteMailbox);
    }
  }

  lemma {:induction false} FirstStopStays(queue: seq<Msg>, msg: Msg)
    requires FirstStop(queue) < |queue|
    ensures FirstStop(queue + [msg]) == FirstStop(queue)
  {
    if !queue[0].Stop? {
      FirstStopStays(queue[1..], msg);
      assert (queue + [msg])[1..] == queue[1..] + [msg];
    }
  }

  /** What a step does to the way ahead; messages are only added at the end of the channel. */
  predicate Shortens(s: State, t: State, steps: nat) {
    OnItsWay(t) && StepsToGo(t) + steps <= StepsToGo(s)
  }

  lemma LongerChannelSpares(s: State, t: State, more: seq<Msg>)
    requires OnItsWay(s) && t.thread == s.thread && |more| <= 1 && t.channel == s.channel + more
    ensures Shortens(s, t, 0)
  {
    QueuedHasFirst(s.channel);
    QueuedHasFirst(t.channel);
    if more == [] {
      assert t.channel == s.channel;
    } else if s.thread.Listening? {
      assert more == [more[0]];
      FirstStopStays(s.channel, more[0]);
    }
  }

  lemma SpawnerOnlyAdds(s: State, a: SpawnerAction) returns (more: seq<Msg>)
    ensures SpawnerStep(s, a).thread == s.thread && |more| <= 1 && SpawnerStep(s, a).channel == s.channel + more
  {
    more := SpawnerStep(s, a).channel[|s.channel|..];
  }

  lemma SpawnerSpares(s: State, a: SpawnerAction)
    requires OnItsWay(s)
    ensures Shortens(s, SpawnerStep(s, a), 0)
  {
    var more := SpawnerOnlyAdds(s, a);
    LongerChannelSpares(s, SpawnerStep(s, a), more);
  }

  lemma OutsideSpares(s: State, a: OutsideAction)
    requires OnItsWay(s) && Spares(FromOutside(a))
    ensures Shortens(s, OutsideStep(s, a), 0)
  {
    var t := OutsideStep(s, a);
    var more := t.channel[|s.channel|..];
    assert t.channel == s.channel + more;
    LongerChannelSpares(s, t, more);
  }

  lemma TakingAdvances(s: State)
    requires OnItsWay(s)
    ensures Shortens(s, WorkerStep(s, TakeMessage), if MovesOn(s, ByWorker(TakeMessage)) then 1 else 0)
  {
    if s.thread.Listening? {
      QueuedHasFirst(s.channel);
      QueuedHasFirst(s.channel[1..]);
    }
  }

  lemma WorkerAdvances(s: State, a: WorkerAction)
    requires OnItsWay(s) && Spares(ByWorker(a))
    ensures Shortens(s, WorkerStep(s, a), if MovesOn(s, ByWorker(a)) then 1 else 0)
  {
    if a.TakeMessage? {
      TakingAdvances(s);
    }
  }

  lemma {:induction false} RunAdvances(s: State, actions: seq<Action>)
    requires OnItsWay(s) && forall i :: 0 <= i < |actions| ==> Spares(actions[i])
    ensures OnItsWay(Run(s, actions)) && StepsToGo(Run(s, actions)) + MovesIn(s, actions) <= StepsToGo(s)
    decreases |actions|
  {
    if actions != [] {
      match actions[0] {
        case BySpawner(b) => SpawnerSpares(s, b);
        case ByWorker(b) => WorkerAdvances(s, b);
        case FromOutside(b) => OutsideSpares(s, b);
      }
      RunAdvances(Step(s, actions[0]), actions[1..]);
    }
  }

  /**
   From every reachable state with a stop in the channel of a listening thread: every continuation by all processes in
   which the thread takes as many steps as there are messages up to the first stop, and two more, deletes the document,
   unless the thread raises or a health agent removes its container or its channel.
   */
  lemma EnoughStepsDelete(actor: string, hasClient: bool, before: seq<Action>, actions: seq<Action>)
    requires var s := Run(Init(actor, hasClient), before);
             s.thread.Listening? && StopQueued(s) && MovesIn(s, actions) >= FirstStop(s.channel) + 3
    requires forall i :: 0 <= i < |actions| ==> Spares(actions[i])
    ensures var end := Run(Run(Init(actor, hasClient), before), actions);
            TornDown(end.thread) && !Visible(end.rec)
  {
    var s := Run(Init(actor, hasClient), before);
    RunKeepsInv(Init(actor, hasClient), before);
    RunKeepsInv(s, actions);
    RunAdvances(s, actions);
  }
}

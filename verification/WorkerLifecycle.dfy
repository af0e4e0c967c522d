/**
 One worker from its request to its teardown: a transition system over its stored document, its control
 channel, and one program counter for each process that touches them.

   spawner     actors/spawner.py, process, start_worker and error_out_actor
   thread      actors/worker.py, process_worker_ch, the worker's control thread
   main        actors/worker.py, subscribe, only its writes to the worker document
   requesters  actors/worker.py, shutdown_worker, any number of calls at any time
   agents      actors/health.py, check_workers, any number of health processes

 Each action is one atomic step of one process, and a run is any sequence of actions; an action that is not
 possible where it occurs changes nothing.  Status writes carry a flag that says whether the write reached the
 store, because the writer swallows every failure.
 */
module WorkerLifecycle {
  import opened Options
  import opened WorkerRecords

  datatype Msg = Stop(deleteMailbox: bool) | HealthCheck | ForceQuit

  datatype SpawnerPc =
    | Waiting                        // the command is still on the command channel
    | Checked(seen: Option<Status>)  // document read
    | Setup
    | Pulling
    | Creating(attempts: nat)
    | Launched                       // the worker container runs
    | Added                          // add_worker done, handshake not yet sent
    | ErrorOut                       // error_out_actor, before it reads the document
    | ErrorSeen(status: Option<Status>)
    | SpawnerDone

  datatype ThreadPc =
    | NotStarted
    | Listening
    | Stopping(deleteMailbox: bool)  // stop received and acknowledged
    | Marked                         // SHUTTING_DOWN written
    | RecordDeleted
    | ChannelDeleted
    | Exited
    | Crashed                        // the request to delete the OAuth client raised
    | Failed                         // raised while answering a health check
    | Removed(agent: nat)            // a health agent removed the container

  datatype MainPc = MainNotStarted | Idle(updateStatus: bool) | Working | MainDone

  datatype Requester = StatusWritten(deleteMailbox: bool) | Returned

  datatype Agent = Probing | ContainerRemoved | DocumentDeleted | AgentChannelDeleted | AgentDone

  datatype State = State(
    hasClient: bool,
    rec: Option<Record>,
    channel: seq<Msg>,
    spawner: SpawnerPc,
    handshake: bool,
    thread: ThreadPc,
    main: MainPc,
    requesters: seq<Requester>,
    agents: seq<Agent>)

  datatype SpawnerAction =
    | FindNoActor
    | ReadDocument
    | Decide(actorInError: bool, lands: bool)
    | FailClientGeneration
    | CrashInClientGeneration  // an exception that nothing handles leaves the document as it is
    | Pull(lands: bool)
    | FailPull
    | Create(lands: bool)
    | RunTimesOut(lands: bool)
    | RunFails
    | RunSucceeds
    | LoseActor
    | AddToStore(host: string)
    | SendHandshake(sent: bool)
    | ErrorRead
    | ErrorAct(stopSent: bool)

  datatype WorkerAction =
    | StartThread
    | TakeMessage
    | ThreadRaises
    | MarkShuttingDown(lands: bool)
    | DeleteClientFails
    | DeleteRecord
    | DeleteControlChannel
    | Exit
    | WriteReady(lands: bool)
    | WriteBusy(lands: bool)
    | FinishExecution
    | MainExits

  datatype OutsideAction =
    | RequestShutdown(deleteMailbox: bool, lands: bool)
    | PutStop(caller: nat)
    | PutOtherStop
    | PutForceQuit
    | Probe
    | ProbeAnswered(agent: nat)
    | ProbeTimesOut(agent: nat, removed: bool)
    | DeleteDocument(agent: nat)
    | DeleteAgentChannel(agent: nat)
    | StampHealthTime(agent: nat)

  datatype Action = BySpawner(sp: SpawnerAction) | ByWorker(wk: WorkerAction) | FromOutside(out: OutsideAction)

  const MAX_ATTEMPTS := 20

  function Init(actor: string, hasClient: bool): State {
    State(hasClient, Request(None, actor), [], Waiting, false, NotStarted, MainNotStarted, [], [])
  }

  function WriteStatus(s: State, status: Status, lands: bool): State {
    if lands then s.(rec := UpdateStatus(s.rec, status)) else s
  }

  predicate Alive(t: ThreadPc) {
    !t.Exited? && !t.Removed?
  }

  predicate RunningStatus(status: Option<Status>) {
    status == Some(UpdatingStore) || status == Some(Ready) || status == Some(Busy)
  }

  predicate UnstartedStatus(status: Option<Status>) {
    status == Some(Requested) || status == Some(SpawnerSetup) || status == Some(PullingImage)
  }

  function SpawnerStep(s: State, a: SpawnerAction): State {
    match a
    case FindNoActor =>
      if s.spawner.Waiting? then s.(spawner := SpawnerDone) else s
    case ReadDocument =>
      if !s.spawner.Waiting? then s
      else if s.rec.None? then s.(spawner := SpawnerDone)
      else s.(spawner := Checked(s.rec.value.status))
    case Decide(actorInError, lands) =>
      if !s.spawner.Checked? then s
      else if s.spawner.seen == Some(Requested) then
        if actorInError then s.(rec := None, spawner := SpawnerDone)
        else WriteStatus(s, SpawnerSetup, lands).(spawner := Setup)
      else if s.spawner.seen.Some? && IsShutdownStatus(s.spawner.seen.value) then
        s.(rec := None, spawner := SpawnerDone)
      else s.(spawner := SpawnerDone)
    case FailClientGeneration =>
      if s.spawner.Setup? then s.(rec := None, spawner := SpawnerDone) else s
    case CrashInClientGeneration =>
      if s.spawner.Setup? then s.(spawner := SpawnerDone) else s
    case Pull(lands) =>
      if s.spawner.Setup? then WriteStatus(s, PullingImage, lands).(spawner := Pulling) else s
    case FailPull =>
      if s.spawner.Pulling? then s.(spawner := ErrorOut) else s
    case Create(lands) =>
      if s.spawner.Pulling? then WriteStatus(s, CreatingContainer, lands).(spawner := Creating(0)) else s
    case RunTimesOut(lands) =>
      if !s.spawner.Creating? then s
      else if s.spawner.attempts + 1 > MAX_ATTEMPTS then s.(spawner := ErrorOut)
      else WriteStatus(s, CreatingContainer, lands).(spawner := Creating(s.spawner.attempts + 1))
    case RunFails =>
      if s.spawner.Creating? then s.(rec := None, spawner := ErrorOut) else s
    case RunSucceeds =>
      if s.spawner.Creating? then s.(spawner := Launched) else s
    case LoseActor =>
      if s.spawner.Launched? then s.(spawner := ErrorOut) else s
    case AddToStore(host) =>
      if s.spawner.Launched? then s.(rec := Add(s.rec, host), spawner := Added) else s
    case SendHandshake(sent) =>
      if !s.spawner.Added? then s
      else if sent then s.(spawner := SpawnerDone, handshake := true)
      else s.(spawner := ErrorOut)
    case ErrorRead =>
      if !s.spawner.ErrorOut? then s
      else if s.rec.None? then s.(spawner := SpawnerDone)
      else s.(spawner := ErrorSeen(s.rec.value.status))
    case ErrorAct(stopSent) =>
      if !s.spawner.ErrorSeen? then s
      else if RunningStatus(s.spawner.status) then
        // stop_workers sends a stop to every worker that the actor_id query returns; if it raises, the document goes
        if !stopSent then s.(rec := None, spawner := SpawnerDone)
        else s.(spawner := SpawnerDone, channel := if Visible(s.rec) then s.channel + [Stop(false)] else s.channel)
      else if UnstartedStatus(s.spawner.status) then
        s.(rec := None, spawner := SpawnerDone)
      else s.(spawner := SpawnerDone)
  }

  function WorkerStep(s: State, a: WorkerAction): State {
    match a
    case StartThread =>
      if s.handshake && s.thread.NotStarted? then s.(thread := Listening, main := Idle(true)) else s
    case TakeMessage =>
      if !s.thread.Listening? || s.channel == [] then s
      else
        var msg := s.channel[0];
        s.(channel := s.channel[1..], thread := if msg.Stop? then Stopping(msg.deleteMailbox) else Listening)
    case ThreadRaises =>
      if s.thread.Listening? then s.(thread := Failed) else s
    case MarkShuttingDown(lands) =>
      if s.thread.Stopping? then WriteStatus(s, ShuttingDown, lands).(thread := Marked) else s
    case DeleteClientFails =>
      if s.thread.Marked? && s.hasClient then s.(thread := Crashed) else s
    case DeleteRecord =>
      if s.thread.Marked? then s.(rec := None, thread := RecordDeleted) else s
    case DeleteControlChannel =>
      if s.thread.RecordDeleted? then s.(thread := ChannelDeleted, channel := []) else s
    case Exit =>
      if s.thread.ChannelDeleted? then s.(thread := Exited, main := MainDone) else s
    case WriteReady(lands) =>
      if s.main == Idle(true) then WriteStatus(s, Ready, lands).(main := Idle(false)) else s
    case WriteBusy(lands) =>
      if s.main == Idle(false) then WriteStatus(s, Busy, lands).(main := Working) else s
    case FinishExecution =>
      if s.main == Working then s.(rec := Stamp(s.rec), main := Idle(true)) else s
    case MainExits =>
      if s.main != MainNotStarted then s.(main := MainDone) else s
  }

  function OutsideStep(s: State, a: OutsideAction): State {
    match a
    case RequestShutdown(d, lands) =>
      WriteStatus(s, ShutdownRequested, lands).(requesters := s.requesters + [StatusWritten(d)])
    case PutStop(i) =>
      if i < |s.requesters| && s.requesters[i].StatusWritten? then
        s.(channel := s.channel + [Stop(s.requesters[i].deleteMailbox)], requesters := s.requesters[i := Returned])
      else s
    case PutOtherStop => s.(channel := s.channel + [Stop(false)])
    case PutForceQuit => s.(channel := s.channel + [ForceQuit])
    case Probe =>
      // only documents that the actor_id query returns and that carry a host_id
      if Visible(s.rec) && s.rec.value.hostId.Some? then
        s.(channel := s.channel + [HealthCheck], agents := s.agents + [Probing])
      else s
    case ProbeAnswered(i) =>
      if i < |s.agents| && s.agents[i].Probing? then s.(rec := Stamp(s.rec), agents := s.agents[i := AgentDone]) else s
    case ProbeTimesOut(i, removed) =>
      if i < |s.agents| && s.agents[i].Probing? then
        var s' := s.(agents := s.agents[i := ContainerRemoved]);
        if removed && Alive(s.thread) then s'.(thread := Removed(i), main := MainDone) else s'
      else s
    case DeleteDocument(i) =>
      if i < |s.agents| && s.agents[i].ContainerRemoved? then
        s.(rec := None, agents := s.agents[i := DocumentDeleted])
      else s
    case DeleteAgentChannel(i) =>
      if i < |s.agents| && s.agents[i].DocumentDeleted? then
        s.(channel := [], agents := s.agents[i := AgentChannelDeleted])
      else s
    case StampHealthTime(i) =>
      // the branch after a timeout still records the time of the health check
      if i < |s.agents| && s.agents[i].AgentChannelDeleted? then
        s.(rec := Stamp(s.rec), agents := s.agents[i := AgentDone])
      else s
  }

  function Step(s: State, a: Action): State {
    match a
    case BySpawner(b) => SpawnerStep(s, b)
    case ByWorker(b) => WorkerStep(s, b)
    case FromOutside(b) => OutsideStep(s, b)
  }

  function Run(s: State, actions: seq<Action>): State
    decreases |actions|
  {
    if actions == [] then s else Run(Step(s, actions[0]), actions[1..])
  }

  // ---------------------------------------------------------------------------------------------
  // What every reachable state satisfies
  // ---------------------------------------------------------------------------------------------

  /** The spawner has not yet reached add_worker, and nothing has gone wrong for it. */
  predicate BeforeAdd(p: SpawnerPc) {
    p.Waiting? || p.Checked? || p.Setup? || p.Pulling? || p.Creating? || p.Launched?
  }

  predicate TornDown(t: ThreadPc) {
    t.RecordDeleted? || t.ChannelDeleted? || t.Exited?
  }

  predicate StopQueued(s: State) {
    Stop(true) in s.channel || Stop(false) in s.channel
  }

  /** The place of the first stop in a control channel. */
  function FirstStop(queue: seq<Msg>): (i: nat)
    ensures i <= |queue| && (i < |queue| ==> queue[i].Stop?)
    ensures forall j :: 0 <= j < i ==> !queue[j].Stop?
  {
    if queue == [] || queue[0].Stop? then 0 else 1 + FirstStop(queue[1..])
  }

  predicate HandlingStop(t: ThreadPc) {
    t.Stopping? || t.Marked?
  }

  /** A health agent has removed the container and its next step deletes the document. */
  predicate AgentAboutToDelete(s: State) {
    s.thread.Removed? && s.thread.agent < |s.agents| && s.agents[s.thread.agent].ContainerRemoved?
  }

  /**
   The shutdown asked for by a call that has returned has not been dropped.  Whether a queued stop can still be handled
   is another matter: see ShutdownProgress.
   */
  predicate ShutdownPending(s: State) {
    StopQueued(s) || HandlingStop(s.thread) || AgentAboutToDelete(s)
  }

  predicate ShutdownNotLost(s: State) {
    Visible(s.rec) && Returned in s.requesters ==> ShutdownPending(s)
  }

  /** Before add_worker no health agent knows the worker; before the handshake its thread does not run. */
  predicate HandshakeOrder(s: State) {
    && (s.thread.NotStarted? <==> s.main.MainNotStarted?)
    && (s.handshake ==> s.spawner.SpawnerDone?)
    && (s.handshake || s.thread.NotStarted? || s.thread.Removed?)
    && (BeforeAdd(s.spawner) ==>
          && s.agents == [] && s.thread.NotStarted? && !s.handshake
          && Visible(s.rec) && s.rec.value.hostId.None?)
  }

  /** Deleting a visible document is final, and only visible documents carry a host_id. */
  predicate Teardown(s: State) {
    && (s.rec.Some? && s.rec.value.hostId.Some? ==> Visible(s.rec))
    && (TornDown(s.thread) ==> !Visible(s.rec))
    && (forall i :: 0 <= i < |s.agents| && (s.agents[i].DocumentDeleted? || s.agents[i].AgentChannelDeleted?)
          ==> !Visible(s.rec))
    && (s.thread.Removed? && Visible(s.rec) ==> AgentAboutToDelete(s))
  }

  predicate StopAccountedFor(s: State) {
    && (ShutdownNotLost(s) || s.thread.Crashed?)
    && (s.thread.Crashed? ==> s.hasClient)
  }

  predicate Inv(s: State) {
    HandshakeOrder(s) && Teardown(s) && StopAccountedFor(s)
  }

  lemma SpawnerKeepsHandshakeOrder(s: State, a: SpawnerAction)
    requires HandshakeOrder(s)
    ensures HandshakeOrder(SpawnerStep(s, a)) && SpawnerStep(s, a).hasClient == s.hasClient
  {
  }

  lemma SpawnerKeepsTeardown(s: State, a: SpawnerAction)
    requires HandshakeOrder(s) && Teardown(s)
    ensures Teardown(SpawnerStep(s, a))
  {
  }

  lemma SpawnerKeepsStops(s: State, a: SpawnerAction)
    requires Inv(s)
    ensures StopAccountedFor(SpawnerStep(s, a))
  {
  }

  lemma WorkerKeepsHandshakeOrder(s: State, a: WorkerAction)
    requires HandshakeOrder(s)
    ensures HandshakeOrder(WorkerStep(s, a)) && WorkerStep(s, a).hasClient == s.hasClient
  {
  }

  lemma WorkerKeepsTeardown(s: State, a: WorkerAction)
    requires HandshakeOrder(s) && Teardown(s)
    ensures Teardown(WorkerStep(s, a))
  {
  }

  lemma WorkerKeepsStops(s: State, a: WorkerAction)
    requires Inv(s)
    ensures StopAccountedFor(WorkerStep(s, a))
  {
  }

  lemma OutsideKeepsHandshakeOrder(s: State, a: OutsideAction)
    requires HandshakeOrder(s)
    ensures HandshakeOrder(OutsideStep(s, a)) && OutsideStep(s, a).hasClient == s.hasClient
  {
  }

  lemma OutsideKeepsTeardown(s: State, a: OutsideAction)
    requires HandshakeOrder(s) && Teardown(s)
    ensures Teardown(OutsideStep(s, a))
  {
  }

  lemma OutsideKeepsStops(s: State, a: OutsideAction)
    requires Inv(s)
    ensures StopAccountedFor(OutsideStep(s, a))
  {
  }

  lemma StepKeepsInv(s: State, a: Action)
    requires Inv(s)
    ensures Inv(Step(s, a)) && Step(s, a).hasClient == s.hasClient
  {
    match a
    case BySpawner(b) =>
      SpawnerKeepsHandshakeOrder(s, b);
      SpawnerKeepsTeardown(s, b);
      SpawnerKeepsStops(s, b);
    case ByWorker(b) =>
      WorkerKeepsHandshakeOrder(s, b);
      WorkerKeepsTeardown(s, b);
      WorkerKeepsStops(s, b);
    case FromOutside(b) =>
      OutsideKeepsHandshakeOrder(s, b);
      OutsideKeepsTeardown(s, b);
      OutsideKeepsStops(s, b);
  }

  lemma {:induction false} RunKeepsInv(s: State, actions: seq<Action>)
    requires Inv(s)
    ensures Inv(Run(s, actions)) && Run(s, actions).hasClient == s.hasClient
    decreases |actions|
  {
    if actions != [] {
      StepKeepsInv(s, actions[0]);
      RunKeepsInv(Step(s, actions[0]), actions[1..]);
    }
  }

  lemma {:induction false} RunAppend(s: State, actions: seq<Action>, a: Action)
    ensures Run(s, actions + [a]) == Step(Run(s, actions), a)
    decreases |actions|
  {
    if actions == [] {
      assert Run(Step(s, a), []) == Step(s, a);
    } else {
      assert (actions + [a])[1..] == actions[1..] + [a];
      RunAppend(Step(s, actions[0]), actions[1..], a);
    }
  }

  // ---------------------------------------------------------------------------------------------
  // Shutdown requests
  // ---------------------------------------------------------------------------------------------

  /**
   After every run: if a call of shutdown_worker has returned and the document is still visible, then a stop is
   queued, or the thread is handling one, or a health agent is about to delete the document.  The one exception
   is a thread that crashed on its request to delete the OAuth client.
   */
  lemma ShutdownIsPending(actor: string, hasClient: bool, actions: seq<Action>)
    ensures var s := Run(Init(actor, hasClient), actions);
            ShutdownNotLost(s) || (hasClient && s.thread.Crashed?)
  {
    RunKeepsInv(Init(actor, hasClient), actions);
  }

  ghost predicate Reachable(init: State, s: State) {
    exists actions :: Run(init, actions) == s
  }

  lemma Take(init: State, s: State, a: Action) returns (t: State)
    requires Reachable(init, s)
    ensures Reachable(init, t) && t == Step(s, a)
  {
    t := Step(s, a);
    var actions :| Run(init, actions) == s;
    RunAppend(init, actions, a);
  }

  /** The first steps of a worker that is set up, launched and started without incident. */
  lemma SetUpWorker(actor: string, hasClient: bool) returns (s: State)
    ensures Reachable(Init(actor, hasClient), s)
    ensures s == Init(actor, hasClient).(rec := Some(Record(Some(actor), Some(SpawnerSetup), None)), spawner := Setup)
  {
    var init := Init(actor, hasClient);
    assert Run(init, []) == init;
    s := Take(init, init, BySpawner(ReadDocument));
    s := Take(init, s, BySpawner(Decide(false, true)));
  }

  lemma LaunchedWorker(actor: string, hasClient: bool) returns (s: State)
    ensures Reachable(Init(actor, hasClient), s)
    ensures s == Init(actor, hasClient).(
                   rec := Some(Record(Some(actor), Some(CreatingContainer), None)), spawner := Launched)
  {
    var init := Init(actor, hasClient);
    s := SetUpWorker(actor, hasClient);
    s := Take(init, s, BySpawner(Pull(true)));
    s := Take(init, s, BySpawner(Create(true)));
    s := Take(init, s, BySpawner(RunSucceeds));
  }

  lemma StartedWorker(actor: string, hasClient: bool) returns (s: State)
    ensures Reachable(Init(actor, hasClient), s)
    ensures s == State(hasClient, Some(Record(Some(actor), Some(Ready), Some("host"))), [], SpawnerDone, true,
                       Listening, Idle(true), [], [])
  {
    var init := Init(actor, hasClient);
    s := LaunchedWorker(actor, hasClient);
    s := Take(init, s, BySpawner(AddToStore("host")));
    s := Take(init, s, BySpawner(SendHandshake(true)));
    s := Take(init, s, ByWorker(StartThread));
  }

  /** A worker that did not answer a health agent in time. */
  lemma SilentWorker(actor: string, hasClient: bool, removed: bool) returns (s: State)
    ensures Reachable(Init(actor, hasClient), s) && s.rec.Some? && s.agents == [ContainerRemoved]
    ensures if removed then s.thread == Removed(0) && s.main.MainDone? else s.thread.Listening? && s.main == Idle(true)
  {
    var init := Init(actor, hasClient);
    s := StartedWorker(actor, hasClient);
    s := Take(init, s, FromOutside(Probe));
    s := Take(init, s, FromOutside(ProbeTimesOut(0, removed)));
  }

  /**
   A health agent that gets no answer deletes the document, also when it could not remove the container, and then stamps
   the time of its check all the same: what is left is a document without actor id and status, and an empty channel.
   */
  lemma StubIsLeft(actor: string, hasClient: bool, removed: bool) returns (s: State)
    ensures Reachable(Init(actor, hasClient), s) && s.rec == Some(BLANK) && s.channel == []
    ensures if removed then s.thread == Removed(0) && s.main.MainDone? else s.thread.Listening? && s.main == Idle(true)
  {
    var init := Init(actor, hasClient);
    s := SilentWorker(actor, hasClient, removed);
    s := Take(init, s, FromOutside(DeleteDocument(0)));
    s := Take(init, s, FromOutside(DeleteAgentChannel(0)));
    s := Take(init, s, FromOutside(StampHealthTime(0)));
  }

  /** A worker that was asked to shut down has deleted its document. */
  lemma DeletedWorker(actor: string, hasClient: bool) returns (s: State)
    ensures Reachable(Init(actor, hasClient), s) && s.rec == None && s.thread.RecordDeleted?
  {
    var init := Init(actor, hasClient);
    s := StartedWorker(actor, hasClient);
    s := Take(init, s, FromOutside(RequestShutdown(false, true)));
    s := Take(init, s, FromOutside(PutStop(0)));
    assert s.channel == [Stop(false)];
    s := Take(init, s, ByWorker(TakeMessage));
    s := Take(init, s, ByWorker(MarkShuttingDown(true)));
    s := Take(init, s, ByWorker(DeleteRecord));
  }

  /** A second request comes too late: its status write leaves a stub. */
  lemma LateRequestLeavesStub(actor: string, hasClient: bool) returns (s: State)
    ensures Reachable(Init(actor, hasClient), s)
    ensures s.rec == Some(Record(None, Some(ShutdownRequested), None)) && !Visible(s.rec)
  {
    var init := Init(actor, hasClient);
    s := DeletedWorker(actor, hasClient);
    s := Take(init, s, FromOutside(RequestShutdown(false, true)));
  }

  /** A client deletion that fails: the stop is consumed, the thread is dead and the document stays visible. */
  lemma LostShutdown(actor: string) returns (s: State)
    ensures Reachable(Init(actor, true), s)
    ensures !ShutdownNotLost(s) && s.thread.Crashed?
  {
    var init := Init(actor, true);
    s := StartedWorker(actor, true);
    s := Take(init, s, FromOutside(RequestShutdown(false, true)));
    s := Take(init, s, FromOutside(PutStop(0)));
    assert s.channel == [Stop(false)] && s.requesters == [Returned];
    s := Take(init, s, ByWorker(TakeMessage));
    s := Take(init, s, ByWorker(MarkShuttingDown(true)));
    s := Take(init, s, ByWorker(DeleteClientFails));
  }

  /** No run drops the stop of a returned request exactly when the worker was started without an OAuth client. */
  lemma NoShutdownLostIffNoClient(actor: string, hasClient: bool)
    ensures (forall s :: Reachable(Init(actor, hasClient), s) ==> ShutdownNotLost(s)) <==> !hasClient
  {
    if hasClient {
      var s := LostShutdown(actor);
    } else {
      forall s | Reachable(Init(actor, hasClient), s) ensures ShutdownNotLost(s) {
        var actions :| Run(Init(actor, hasClient), actions) == s;
        ShutdownIsPending(actor, hasClient, actions);
      }
    }
  }

  /**
   In every run add_worker finds the requested document still visible, whatever requesters and health agents did,
   and leaves it visible, Ready and with its host: no process deletes the document before that step.
   */
  lemma AddFindsVisibleDocument(actor: string, hasClient: bool, actions: seq<Action>, host: string)
    ensures var s := Run(Init(actor, hasClient), actions);
            var after := Step(s, BySpawner(AddToStore(host)));
            s.spawner.Launched? ==>
              && Visible(s.rec) && Visible(after.rec)
              && after.rec.value.actorId == s.rec.value.actorId
              && after.rec.value.status == Some(Ready) && after.rec.value.hostId == Some(host)
  {
    RunKeepsInv(Init(actor, hasClient), actions);
  }

  /** Documents left behind by late writes never carry a host_id, so they never count against a host. */
  lemma HostedDocumentsAreVisible(actor: string, hasClient: bool, actions: seq<Action>)
    ensures var s := Run(Init(actor, hasClient), actions);
            s.rec.Some? && s.rec.value.hostId.Some? ==> Visible(s.rec)
  {
    RunKeepsInv(Init(actor, hasClient), actions);
  }

  // ---------------------------------------------------------------------------------------------
  // The status history of an undisturbed worker
  // ---------------------------------------------------------------------------------------------

  /** The status that a step gives the document, if it changes it. */
  function StatusEntry(before: Option<Record>, after: Option<Record>): seq<Status> {
    if after.Some? && after.value.status.Some? && (before.None? || before.value.status != after.value.status)
    then [after.value.status.value] else []
  }

  function History(s: State, actions: seq<Action>): seq<Status>
    decreases |actions|
  {
    if actions == [] then []
    else StatusEntry(s.rec, Step(s, actions[0]).rec) + History(Step(s, actions[0]), actions[1..])
  }

  /** No shutdown, no deletion and no lost status write. */
  predicate Undisturbed(a: Action) {
    match a
    case BySpawner(b) =>
      (match b
       case Decide(actorInError, lands) => !actorInError && lands
       case Pull(lands) => lands
       case Create(lands) => lands
       case RunTimesOut(lands) => lands
       case FailClientGeneration | RunFails | ErrorAct(_) => false
       case _ => true)
    case ByWorker(b) =>
      (match b
       case MarkShuttingDown(_) | DeleteRecord => false
       case WriteReady(lands) => lands
       case WriteBusy(lands) => lands
       case _ => true)
    case FromOutside(b) => !b.RequestShutdown? && !b.DeleteDocument?
  }

  function CanonicalStatus(i: nat): Status {
    if i < 4 then [Requested, SpawnerSetup, PullingImage, CreatingContainer][i]
    else if i % 2 == 0 then Ready else Busy
  }

  /** The document has its n-th canonical status, and the program counters are where that status was written. */
  predicate AtStatus(s: State, n: nat) {
    && s.rec.Some? && s.rec.value.status == Some(CanonicalStatus(n))
    && (s.spawner.Waiting? || s.spawner.Checked? ==> n == 0)
    && (s.spawner.Checked? ==> s.spawner.seen == Some(Requested))
    && (s.spawner.Setup? ==> n == 1)
    && (s.spawner.Pulling? ==> n == 2)
    && (s.spawner.Creating? || s.spawner.Launched? ==> n == 3)
    && (s.spawner.Added? || s.handshake ==> n >= 4)
    && (s.handshake ==> s.spawner.SpawnerDone?)
    && (s.main == Idle(true) || s.main == Working || s.main == Idle(false) ==> s.handshake)
    && (s.main == Idle(false) ==> n % 2 == 0)
    && (s.main == Working ==> n % 2 == 1)
  }

  /** The document stays at its n-th canonical status or moves to the next one. */
  predicate Advances(s: State, n: nat, t: State) {
    var entry := StatusEntry(s.rec, t.rec);
    (entry == [] && AtStatus(t, n)) || (entry == [CanonicalStatus(n + 1)] && AtStatus(t, n + 1))
  }

  lemma UndisturbedSpawner(s: State, a: SpawnerAction, n: nat)
    requires AtStatus(s, n) && Undisturbed(BySpawner(a))
    ensures Advances(s, n, SpawnerStep(s, a))
  {
  }

  lemma UndisturbedWorker(s: State, a: WorkerAction, n: nat)
    requires AtStatus(s, n) && Undisturbed(ByWorker(a))
    ensures Advances(s, n, WorkerStep(s, a))
  {
  }

  lemma UndisturbedOutside(s: State, a: OutsideAction, n: nat)
    requires AtStatus(s, n) && Undisturbed(FromOutside(a))
    ensures Advances(s, n, OutsideStep(s, a))
  {
  }

  lemma UndisturbedStep(s: State, a: Action, n: nat)
    requires AtStatus(s, n) && Undisturbed(a)
    ensures Advances(s, n, Step(s, a))
  {
    match a
    case BySpawner(b) => UndisturbedSpawner(s, b, n);
    case ByWorker(b) => UndisturbedWorker(s, b, n);
    case FromOutside(b) => UndisturbedOutside(s, b, n);
  }

  ghost predicate CanonicalFrom(history: seq<Status>, n: nat) {
    forall i :: 0 <= i < |history| ==> history[i] == CanonicalStatus(n + i)
  }

  lemma CanonicalPrefix(history: seq<Status>, n: nat)
    requires CanonicalFrom(history, n + 1)
    ensures CanonicalFrom([CanonicalStatus(n)] + history, n)
  {
  }

  lemma {:induction false} UndisturbedHistory(s: State, actions: seq<Action>, n: nat)
    requires AtStatus(s, n)
    requires forall i :: 0 <= i < |actions| ==> Undisturbed(actions[i])
    ensures CanonicalFrom(History(s, actions), n + 1)
    decreases |actions|
  {
    if actions != [] {
      UndisturbedStep(s, actions[0], n);
      var t := Step(s, actions[0]);
      if StatusEntry(s.rec, t.rec) == [] {
        UndisturbedHistory(t, actions[1..], n);
      } else {
        UndisturbedHistory(t, actions[1..], n + 1);
        CanonicalPrefix(History(t, actions[1..]), n + 1);
      }
    }
  }

  /** Undisturbed, the document runs through its statuses in the canonical order and then alternates. */
  lemma StatusHistoryIsCanonical(actor: string, hasClient: bool, actions: seq<Action>)
    requires forall i :: 0 <= i < |actions| ==> Undisturbed(actions[i])
    ensures var history := [Requested] + History(Init(actor, hasClient), actions);
            forall i :: 0 <= i < |history| ==> history[i] == CanonicalStatus(i)
  {
    UndisturbedHistory(Init(actor, hasClient), actions, 0);
  }

  // ---------------------------------------------------------------------------------------------
  // Every such history occurs
  // ---------------------------------------------------------------------------------------------

  lemma {:induction false} HistoryAppend(s: State, actions: seq<Action>, a: Action)
    ensures History(s, actions + [a])
         == History(s, actions) + StatusEntry(Run(s, actions).rec, Step(Run(s, actions), a).rec)
    decreases |actions|
  {
    if actions == [] {
      assert History(Step(s, a), []) == [];
    } else {
      assert (actions + [a])[1..] == actions[1..] + [a];
      HistoryAppend(Step(s, actions[0]), actions[1..], a);
    }
  }

  /** Some undisturbed run from `init` to this state changes the status this many times. */
  ghost predicate Passes(init: State, s: State, n: nat) {
    exists actions ::
      && Run(init, actions) == s && |History(init, actions)| == n
      && forall i :: 0 <= i < |actions| ==> Undisturbed(actions[i])
  }

  lemma Pass(init: State, s: State, n: nat, a: Action, next: State)
    requires Passes(init, s, n) && Undisturbed(a) && Step(s, a) == next
    ensures Passes(init, next, n + |StatusEntry(s.rec, next.rec)|)
  {
    var actions :|
      && Run(init, actions) == s && |History(init, actions)| == n
      && forall i :: 0 <= i < |actions| ==> Undisturbed(actions[i]);
    RunAppend(init, actions, a);
    HistoryAppend(init, actions, a);
    assert forall i :: 0 <= i < |actions + [a]| ==> Undisturbed((actions + [a])[i]);
  }

  /** A worker whose spawner has come this far, with the status that it wrote. */
  function InSetUp(actor: string, hasClient: bool, status: Status, spawner: SpawnerPc): State {
    Init(actor, hasClient).(rec := Some(Record(Some(actor), Some(status), None)), spawner := spawner)
  }

  lemma PassesInit(actor: string, hasClient: bool)
    ensures Passes(Init(actor, hasClient), InSetUp(actor, hasClient, Requested, Waiting), 0)
  {
    var init := Init(actor, hasClient);
    assert Run(init, []) == init && History(init, []) == [];
  }

  lemma PassesDecision(actor: string, hasClient: bool)
    ensures Passes(Init(actor, hasClient), InSetUp(actor, hasClient, SpawnerSetup, Setup), 1)
  {
    var init := Init(actor, hasClient);
    PassesInit(actor, hasClient);
    var checked := InSetUp(actor, hasClient, Requested, Checked(Some(Requested)));
    Pass(init, init, 0, BySpawner(ReadDocument), checked);
    Pass(init, checked, 0, BySpawner(Decide(false, true)), InSetUp(actor, hasClient, SpawnerSetup, Setup));
  }

  lemma PassesPull(actor: string, hasClient: bool)
    ensures Passes(Init(actor, hasClient), InSetUp(actor, hasClient, PullingImage, Pulling), 2)
  {
    PassesDecision(actor, hasClient);
    Pass(Init(actor, hasClient), InSetUp(actor, hasClient, SpawnerSetup, Setup), 1, BySpawner(Pull(true)),
         InSetUp(actor, hasClient, PullingImage, Pulling));
  }

  lemma PassesCreation(actor: string, hasClient: bool)
    ensures Passes(Init(actor, hasClient), InSetUp(actor, hasClient, CreatingContainer, Creating(0)), 3)
  {
    PassesPull(actor, hasClient);
    Pass(Init(actor, hasClient), InSetUp(actor, hasClient, PullingImage, Pulling), 2, BySpawner(Create(true)),
         InSetUp(actor, hasClient, CreatingContainer, Creating(0)));
  }

  /** A worker that runs, with its main thread at a place between or in its executions. */
  function AtWork(actor: string, hasClient: bool, status: Status, main: MainPc): State {
    State(hasClient, Some(Record(Some(actor), Some(status), Some("host"))), [], SpawnerDone, true, Listening, main,
          [], [])
  }

  lemma PassesAdd(actor: string, hasClient: bool)
    ensures Passes(Init(actor, hasClient), Init(actor, hasClient).(
                     rec := Some(Record(Some(actor), Some(Ready), Some("host"))), spawner := Added), 4)
  {
    var init := Init(actor, hasClient);
    PassesCreation(actor, hasClient);
    var launched := InSetUp(actor, hasClient, CreatingContainer, Launched);
    Pass(init, InSetUp(actor, hasClient, CreatingContainer, Creating(0)), 3, BySpawner(RunSucceeds), launched);
    Pass(init, launched, 3, BySpawner(AddToStore("host")),
         init.(rec := Some(Record(Some(actor), Some(Ready), Some("host"))), spawner := Added));
  }

  lemma PassesStart(actor: string, hasClient: bool)
    ensures Passes(Init(actor, hasClient), AtWork(actor, hasClient, Ready, Idle(true)), 4)
  {
    var init := Init(actor, hasClient);
    PassesAdd(actor, hasClient);
    var added := init.(rec := Some(Record(Some(actor), Some(Ready), Some("host"))), spawner := Added);
    var sent := added.(spawner := SpawnerDone, handshake := true);
    Pass(init, added, 4, BySpawner(SendHandshake(true)), sent);
    Pass(init, sent, 4, ByWorker(StartThread), AtWork(actor, hasClient, Ready, Idle(true)));
  }

  /** Ready for a message, or at its execution. */
  function Serving(actor: string, hasClient: bool, busy: bool): State {
    if busy then AtWork(actor, hasClient, Busy, Working) else AtWork(actor, hasClient, Ready, Idle(false))
  }

  lemma PassesFirstReady(actor: string, hasClient: bool)
    ensures Passes(Init(actor, hasClient), Serving(actor, hasClient, false), 4)
  {
    PassesStart(actor, hasClient);
    Pass(Init(actor, hasClient), AtWork(actor, hasClient, Ready, Idle(true)), 4, ByWorker(WriteReady(true)),
         Serving(actor, hasClient, false));
  }

  lemma PassesBusy(actor: string, hasClient: bool, n: nat)
    requires Passes(Init(actor, hasClient), Serving(actor, hasClient, false), n)
    ensures Passes(Init(actor, hasClient), Serving(actor, hasClient, true), n + 1)
  {
    Pass(Init(actor, hasClient), Serving(actor, hasClient, false), n, ByWorker(WriteBusy(true)),
         Serving(actor, hasClient, true));
  }

  lemma PassesReady(actor: string, hasClient: bool, n: nat)
    requires Passes(Init(actor, hasClient), Serving(actor, hasClient, true), n)
    ensures Passes(Init(actor, hasClient), Serving(actor, hasClient, false), n + 1)
  {
    var init, finished := Init(actor, hasClient), AtWork(actor, hasClient, Busy, Idle(true));
    Pass(init, Serving(actor, hasClient, true), n, ByWorker(FinishExecution), finished);
    Pass(init, finished, n, ByWorker(WriteReady(true)), Serving(actor, hasClient, false));
  }

  lemma {:induction false} PassesWork(actor: string, hasClient: bool, busy: bool, n: nat)
    requires n >= 4 && (busy <==> n % 2 == 1)
    ensures Passes(Init(actor, hasClient), Serving(actor, hasClient, busy), n)
    decreases n
  {
    if n == 4 {
      PassesFirstReady(actor, hasClient);
    } else {
      PassesWork(actor, hasClient, !busy, n - 1);
      if busy {
        PassesBusy(actor, hasClient, n - 1);
      } else {
        PassesReady(actor, hasClient, n - 1);
      }
    }
  }

  /** Every prefix of the canonical order is the history of some undisturbed run. */
  lemma EveryHistoryOccurs(actor: string, hasClient: bool, n: nat)
    ensures exists s :: Passes(Init(actor, hasClient), s, n)
  {
    match n
    case 0 => PassesInit(actor, hasClient);
    case 1 => PassesDecision(actor, hasClient);
    case 2 => PassesPull(actor, hasClient);
    case 3 => PassesCreation(actor, hasClient);
    case _ => PassesWork(actor, hasClient, n % 2 == 1, n);
  }

  // ---------------------------------------------------------------------------------------------
  // The control channel
  // ---------------------------------------------------------------------------------------------

  /** Anybody may put another stop or a force-quit into the channel at any time, which changes nothing else. */
  lemma OthersMayPut(s: State, msg: Msg)
    requires msg == Stop(false) || msg == ForceQuit
    ensures exists a :: OutsideStep(s, a) == s.(channel := s.channel + [msg])
  {
    assert OutsideStep(s, if msg.Stop? then PutOtherStop else PutForceQuit) == s.(channel := s.channel + [msg]);
  }

  /** The channel is as before, or has one more message. */
  predicate Appends(before: seq<Msg>, after: seq<Msg>) {
    before <= after && |after| <= |before| + 1
  }

  lemma SpawnerAppends(s: State, a: SpawnerAction)
    ensures Appends(s.channel, SpawnerStep(s, a).channel)
  {
  }

  lemma OutsideAppends(s: State, a: OutsideAction)
    ensures Appends(s.channel, OutsideStep(s, a).channel) || (a.DeleteAgentChannel? && OutsideStep(s, a).channel == [])
  {
  }

  /** Messages are taken in order and by the thread only, or lost with the channel when a process deletes it. */
  lemma ChannelIsAQueue(s: State, a: Action)
    ensures var after := Step(s, a).channel;
            || Appends(s.channel, after)
            || (a == ByWorker(TakeMessage) && s.thread.Listening? && s.channel != [] && after == s.channel[1..])
            || (a == ByWorker(DeleteControlChannel) && s.thread.RecordDeleted? && after == [])
            || (a.FromOutside? && a.out.DeleteAgentChannel? && after == [])
  {
    match a
    case BySpawner(b) => SpawnerAppends(s, b);
    case ByWorker(_) =>
    case FromOutside(b) => OutsideAppends(s, b);
  }
}

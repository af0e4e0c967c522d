/**
 The delivery of one actor's messages to its workers (actors/worker.py, subscribe; actors/queues.py), and the
 executions that belong to them (actors/models.py, class Execution).

 Every message carries the id of an execution created for it, so messages and executions share their ids.  A
 worker's main thread moves through the phases of its message loop; its control thread may stop it, close its
 mailbox connection or end the process at any point.  The broker takes an unsettled message back whenever the
 connection it was delivered on ends.
 */
module MessageDelivery {
  import opened Options

  type Eid = nat  // an execution, and the message that asks for it
  type Wid = nat  // a worker

  datatype ExecutionStatus = Submitted | Running | Complete

  datatype Phase =
    | Boot                    // the control thread runs, keep_running is not yet set
    | AtTop                   // about to test keep_running
    | Waiting                 // in get_one
    | Received(m: Eid)        // about to test keep_running again
    | Preparing(m: Eid)       // between that test and the start of the container
    | Started(m: Eid)         // the container runs, the execution is not yet RUNNING
    | Supervising(m: Eid)
    | Finished(m: Eid)        // execute_actor has returned
    | Settled(m: Eid)         // acknowledged, the execution is not yet COMPLETE
    | Left                    // out of the loop
    | Died                    // the main thread raised; the process lives on in its control thread
    | Gone                    // the process has ended

  datatype Worker = Worker(
    phase: Phase,
    keepRunning: bool,
    errors: nat,                // consecutive failures to start a container
    connected: bool,            // the mailbox connection is open
    stopping: Option<bool>,     // the control thread handles a stop; whether it deletes the mailbox
    stoppedIn: Option<Phase>,   // where the main thread was when that stop came
    lateStarts: nat)            // containers that this worker started since

  const MAX_WORKER_CONSECUTIVE_ERRORS := 5

  const NEW_WORKER := Worker(Boot, true, 0, true, None, None, 0)

  datatype MainAction =
    | Begin
    | TestTop
    | Receive(m: Eid)
    | FailReceive
    | TestAgain
    | FailPreparation(nacks: bool)
    | FailStart              // DockerStartContainerError
    | FailCreate             // any other error before the container starts
    | StartContainer
    | MarkRunning
    | FailMark
    | FailRun                // the container could not be stopped, or an unexpected error
    | FinishRun
    | Ack
    | MarkComplete
    | FailFinalize(written: bool)

  /** What a step of a main thread does to the broker and to the executions store. */
  datatype Effect =
    | Nothing
    | Take(m: Eid)
    | Acknowledge(m: Eid)
    | Requeue(m: Eid)
    | Launch(m: Eid)
    | SetStatus(m: Eid, status: ExecutionStatus)

  /** Settling a message; on a closed connection the call raises. */
  function Settling(wk: Worker, next: Worker, effect: Effect): (Worker, Effect) {
    if wk.connected then (next, effect) else (wk.(phase := Died), Nothing)
  }

  function One(b: bool): nat { if b then 1 else 0 }

  /** A container start after the stop is counted. */
  function CountStart(wk: Worker): Worker {
    wk.(lateStarts := wk.lateStarts + One(wk.stoppedIn.Some?))
  }

  /** One step of the message loop.  A step that is not possible in the current phase changes nothing. */
  function MainStep(wk: Worker, a: MainAction): (Worker, Effect) {
    match (a, wk.phase)
    case (Begin, Boot) => (wk.(phase := AtTop, keepRunning := true), Nothing)
    case (TestTop, AtTop) => (wk.(phase := if wk.keepRunning then Waiting else Left), Nothing)
    case (Receive(m), Waiting) => if wk.connected then (wk.(phase := Received(m)), Take(m)) else (wk, Nothing)
    case (FailReceive, Waiting) => (wk.(phase := Died), Nothing)
    case (TestAgain, Received(m)) =>
      if wk.keepRunning then (wk.(phase := Preparing(m)), Nothing)
      else Settling(wk, wk.(phase := Died), Requeue(m))
    case (FailPreparation(nacks), Preparing(m)) =>
      if nacks then Settling(wk, wk.(phase := Died), Requeue(m)) else (wk.(phase := Died), Nothing)
    case (FailStart, Preparing(m)) =>
      Settling(wk,
               wk.(errors := wk.errors + 1,
                   phase := if wk.errors + 1 > MAX_WORKER_CONSECUTIVE_ERRORS then Left else AtTop),
               Requeue(m))
    case (FailCreate, Preparing(m)) => Settling(wk, wk.(phase := Left), Acknowledge(m))
    case (StartContainer, Preparing(m)) =>
      (CountStart(wk).(phase := Started(m)), Launch(m))
    case (MarkRunning, Started(m)) => (wk.(phase := Supervising(m)), SetStatus(m, Running))
    case (FailMark, Started(m)) => Settling(wk, wk.(phase := Left), Acknowledge(m))
    case (FailRun, Supervising(m)) => Settling(wk, wk.(phase := Left), Acknowledge(m))
    case (FinishRun, Supervising(m)) => (wk.(phase := Finished(m)), Nothing)
    case (Ack, Finished(m)) => Settling(wk, wk.(phase := Settled(m)), Acknowledge(m))
    case (MarkComplete, Settled(m)) => (wk.(phase := AtTop, errors := 0), SetStatus(m, Complete))
    case (FailFinalize(written), Settled(m)) =>
      (wk.(phase := Died), if written then SetStatus(m, Complete) else Nothing)
    case _ => (wk, Nothing)
  }

  datatype State = State(
    status: map<Eid, ExecutionStatus>,
    posted: set<Eid>,
    queue: multiset<Eid>,
    unsettled: map<Eid, Wid>,       // messages out for delivery, with the worker they went to
    acked: map<Eid, Wid>,           // acknowledged messages, with the worker that did it
    workers: map<Wid, Worker>,
    starts: multiset<(Eid, Wid)>,   // every container start
    returned: set<(Eid, Wid)>,      // deliveries taken back because the worker's connection ended
    faults: nat)                    // settlements of something that is not out for delivery to the worker

  datatype Action =
    | AddExecution(m: Eid)
    | Put(m: Eid)
    | NewWorker(w: Wid)
    | Main(w: Wid, act: MainAction)
    | HandleStop(w: Wid, deleteMailbox: bool)
    | HandleForceQuit(w: Wid)
    | CloseMailbox(w: Wid)
    | Kill(w: Wid)

  const INIT := State(map[], {}, multiset{}, map[], map[], map[], multiset{}, {}, 0)

  function Perform(s: State, w: Wid, e: Effect): State {
    match e
    case Nothing => s
    case Take(m) => s.(queue := s.queue - multiset{m}, unsettled := s.unsettled[m := w])
    case Acknowledge(m) =>
      if m in s.unsettled && s.unsettled[m] == w then
        s.(unsettled := s.unsettled - {m}, acked := s.acked[m := w])
      else s.(faults := s.faults + 1)
    case Requeue(m) =>
      if m in s.unsettled && s.unsettled[m] == w then
        s.(unsettled := s.unsettled - {m}, queue := s.queue + multiset{m})
      else s.(faults := s.faults + 1)
    case Launch(m) => s.(starts := s.starts + multiset{(m, w)})
    case SetStatus(m, status) => s.(status := s.status[m := status])
  }

  /** The messages out for delivery to a worker. */
  function HeldBy(s: State, w: Wid): set<Eid> {
    set m | m in s.unsettled && s.unsettled[m] == w
  }

  /** The end of a worker's mailbox connection. */
  function Disconnect(s: State, w: Wid): State {
    var held := HeldBy(s, w);
    s.(queue := s.queue + multiset(held),
       unsettled := s.unsettled - held,
       returned := s.returned + (set m | m in held :: (m, w)))
  }

  function AfterMain(s: State, w: Wid, e: Effect, next: Worker): State {
    Perform(s, w, e).(workers := s.workers[w := next])
  }

  function Step(s: State, a: Action): State {
    match a
    case AddExecution(m) => if m in s.status then s else s.(status := s.status[m := Submitted])
    case Put(m) =>
      if m in s.status && m !in s.posted then s.(posted := s.posted + {m}, queue := s.queue + multiset{m}) else s
    case NewWorker(w) => if w in s.workers then s else s.(workers := s.workers[w := NEW_WORKER])
    case Main(w, act) =>
      if w !in s.workers || (act.Receive? && act.m !in s.queue) then s
      else
        var (next, effect) := MainStep(s.workers[w], act);
        AfterMain(s, w, effect, next)
    case HandleStop(w, deleteMailbox) =>
      if w !in s.workers || s.workers[w].phase.Gone? || s.workers[w].stopping.Some? then s
      else
        var wk := s.workers[w];
        s.(workers := s.workers[w := wk.(keepRunning := false, stopping := Some(deleteMailbox),
                                         stoppedIn := Some(wk.phase))])
    case HandleForceQuit(w) =>
      if w !in s.workers || s.workers[w].stopping.Some? then s
      else s.(workers := s.workers[w := s.workers[w].(keepRunning := false)])
    case CloseMailbox(w) =>
      if w !in s.workers || s.workers[w].stopping != Some(true) then s
      else Disconnect(s, w).(workers := s.workers[w := s.workers[w].(connected := false)])
    case Kill(w) =>
      if w !in s.workers then s
      else Disconnect(s, w).(workers := s.workers[w := s.workers[w].(phase := Gone, connected := false)])
  }

  function Run(s: State, actions: seq<Action>): State
    decreases |actions|
  {
    if actions == [] then s else Run(Step(s, actions[0]), actions[1..])
  }

  // ---------------------------------------------------------------------------------------------
  // What every reachable state satisfies
  // ---------------------------------------------------------------------------------------------

  /** The message a main thread has received and not yet settled. */
  function Holding(p: Phase): Option<Eid> {
    match p
    case Received(m) => Some(m)
    case Preparing(m) => Some(m)
    case Started(m) => Some(m)
    case Supervising(m) => Some(m)
    case Finished(m) => Some(m)
    case _ => None
  }

  /** The container for the received message has not been started. */
  predicate BeforeStart(p: Phase) {
    p.Received? || p.Preparing?
  }

  /** Posted messages are the disjoint union of the queued, the unsettled and the acknowledged ones. */
  ghost predicate Conserved(s: State) {
    && s.faults == 0
    && forall m :: s.queue[m] + One(m in s.unsettled) + One(m in s.acked) == One(m in s.posted)
  }

  /** A message is out only to a connected worker, which works on it or has died with it. */
  predicate HasOut(s: State, m: Eid, w: Wid) {
    && w in s.workers && s.workers[w].connected
    && (s.workers[w].phase.Died? || Holding(s.workers[w].phase) == Some(m))
  }

  predicate Delivered(s: State) {
    forall m :: m in s.unsettled ==> HasOut(s, m, s.unsettled[m])
  }

  /** The message a worker works on is out to it, unless the broker has taken it back. */
  predicate WorksOn(s: State, w: Wid, m: Eid)
    requires w in s.workers
  {
    if s.workers[w].connected then m in s.unsettled && s.unsettled[m] == w else (m, w) in s.returned
  }

  predicate Held(s: State) {
    forall w :: w in s.workers && Holding(s.workers[w].phase).Some? ==> WorksOn(s, w, Holding(s.workers[w].phase).value)
  }

  predicate OnePerWorker(s: State) {
    forall m, m' :: m in s.unsettled && m' in s.unsettled && m != m' ==> s.unsettled[m] != s.unsettled[m']
  }

  predicate ReturnsAreClosed(s: State) {
    forall p :: p in s.returned ==> p.1 in s.workers && !s.workers[p.1].connected
  }

  predicate Holdings(s: State) {
    Delivered(s) && Held(s) && OnePerWorker(s) && ReturnsAreClosed(s)
  }

  ghost predicate Inv(s: State) {
    Conserved(s) && Holdings(s)
  }

  /** How each effect is tied to the phases around it.  Only a connected worker takes or settles a message. */
  predicate StepShape(wk: Worker, e: Effect, next: Worker) {
    && next.connected == wk.connected && next.stopping == wk.stopping && next.stoppedIn == wk.stoppedIn
    && match e
       case Nothing =>
         || next.phase.Died?
         || (!wk.phase.Died? && Holding(next.phase) == Holding(wk.phase)
             && BeforeStart(next.phase) == BeforeStart(wk.phase))
       case Take(m) => wk.connected && wk.phase.Waiting? && next.phase == Received(m)
       case Acknowledge(m) =>
         && wk.connected && Holding(wk.phase) == Some(m) && (next.phase == Settled(m) || next.phase.Left?)
       case Requeue(m) =>
         && wk.connected && (wk.phase == Received(m) || wk.phase == Preparing(m))
         && (next.phase.Died? || next.phase.AtTop? || next.phase.Left?)
       case Launch(m) => wk.phase == Preparing(m) && next.phase == Started(m)
       case SetStatus(m, status) =>
         || (status.Running? && wk.phase == Started(m) && next.phase == Supervising(m))
         || (status.Complete? && wk.phase == Settled(m) && (next.phase.AtTop? || next.phase.Died?))
  }

  lemma MainStepHasShape(wk: Worker, a: MainAction)
    ensures var (next, e) := MainStep(wk, a); StepShape(wk, e, next)
  {
  }

  lemma TakeConserves(s: State, w: Wid, m: Eid)
    requires Conserved(s) && m in s.queue
    ensures Conserved(Perform(s, w, Take(m)))
  {
    var t := Perform(s, w, Take(m));
    forall k ensures t.queue[k] + One(k in t.unsettled) + One(k in t.acked) == One(k in t.posted) {
      assert s.queue[k] + One(k in s.unsettled) + One(k in s.acked) == One(k in s.posted);
    }
  }

  lemma SettleConserves(s: State, w: Wid, e: Effect)
    requires Conserved(s) && (e.Acknowledge? || e.Requeue?) && e.m in s.unsettled && s.unsettled[e.m] == w
    ensures Conserved(Perform(s, w, e))
  {
    var t := Perform(s, w, e);
    forall k ensures t.queue[k] + One(k in t.unsettled) + One(k in t.acked) == One(k in t.posted) {
      assert s.queue[k] + One(k in s.unsettled) + One(k in s.acked) == One(k in s.posted);
    }
  }

  lemma MainConserves(s: State, w: Wid, e: Effect, next: Worker)
    requires Inv(s) && w in s.workers && StepShape(s.workers[w], e, next)
    requires e.Take? ==> e.m in s.queue
    ensures Conserved(AfterMain(s, w, e, next))
  {
    match e
    case Take(m) => TakeConserves(s, w, m);
    case Acknowledge(m) =>
      assert WorksOn(s, w, m);
      SettleConserves(s, w, e);
    case Requeue(m) =>
      assert WorksOn(s, w, m);
      SettleConserves(s, w, e);
    case _ =>
  }

  lemma TakeKeepsHoldings(s: State, w: Wid, m: Eid, next: Worker)
    requires Holdings(s) && w in s.workers && m !in s.unsettled && StepShape(s.workers[w], Take(m), next)
    ensures Holdings(AfterMain(s, w, Take(m), next))
  {
    forall m' | m' in s.unsettled ensures s.unsettled[m'] != w {
      assert HasOut(s, m', s.unsettled[m']);
    }
  }

  lemma SettleKeepsHoldings(s: State, w: Wid, e: Effect, next: Worker)
    requires Holdings(s) && w in s.workers && StepShape(s.workers[w], e, next)
    requires e.Acknowledge? || e.Requeue?
    ensures Holdings(AfterMain(s, w, e, next))
  {
    assert WorksOn(s, w, e.m);
    forall m | m in s.unsettled && m != e.m ensures s.unsettled[m] != w {
    }
  }

  lemma OtherKeepsHoldings(s: State, w: Wid, e: Effect, next: Worker)
    requires Holdings(s) && w in s.workers && StepShape(s.workers[w], e, next)
    requires e.Nothing? || e.Launch? || e.SetStatus?
    ensures Holdings(AfterMain(s, w, e, next))
  {
    var t := AfterMain(s, w, e, next);
    forall m | m in t.unsettled ensures HasOut(t, m, t.unsettled[m]) {
      assert HasOut(s, m, s.unsettled[m]);
    }
    forall v | v in t.workers && Holding(t.workers[v].phase).Some?
      ensures WorksOn(t, v, Holding(t.workers[v].phase).value)
    {
      assert WorksOn(s, v, Holding(s.workers[v].phase).value);
    }
  }

  lemma MainKeepsInv(s: State, w: Wid, act: MainAction)
    requires Inv(s) && w in s.workers && (act.Receive? ==> act.m in s.queue)
    ensures var (next, e) := MainStep(s.workers[w], act); Inv(AfterMain(s, w, e, next))
  {
    var (next, e) := MainStep(s.workers[w], act);
    MainStepHasShape(s.workers[w], act);
    assert e.Take? ==> e.m in s.queue && e.m !in s.unsettled by {
      if e.Take? {
        assert s.queue[e.m] + One(e.m in s.unsettled) + One(e.m in s.acked) == One(e.m in s.posted);
      }
    }
    MainConserves(s, w, e, next);
    if e.Take? {
      TakeKeepsHoldings(s, w, e.m, next);
    } else if e.Acknowledge? || e.Requeue? {
      SettleKeepsHoldings(s, w, e, next);
    } else {
      OtherKeepsHoldings(s, w, e, next);
    }
  }

  lemma DisconnectConserves(s: State, w: Wid)
    requires Conserved(s)
    ensures Conserved(Disconnect(s, w))
  {
    var t := Disconnect(s, w);
    forall m ensures t.queue[m] + One(m in t.unsettled) + One(m in t.acked) == One(m in t.posted) {
      assert s.queue[m] + One(m in s.unsettled) + One(m in s.acked) == One(m in s.posted);
    }
  }

  lemma DisconnectKeepsHoldings(s: State, w: Wid, next: Worker)
    requires Holdings(s) && w in s.workers && !next.connected
    requires next.phase == s.workers[w].phase || next.phase.Gone?
    ensures Holdings(Disconnect(s, w).(workers := s.workers[w := next]))
  {
    var t := Disconnect(s, w).(workers := s.workers[w := next]);
    forall v | v in t.workers && Holding(t.workers[v].phase).Some?
      ensures WorksOn(t, v, Holding(t.workers[v].phase).value)
    {
      assert WorksOn(s, v, Holding(s.workers[v].phase).value);
    }
  }

  /** Steps that leave the deliveries, the phases and the connections alone. */
  predicate Quiet(s: State, t: State) {
    && t.unsettled == s.unsettled && t.returned == s.returned && t.starts == s.starts && t.acked == s.acked
    && (forall w :: w in s.workers ==>
          w in t.workers && t.workers[w].phase == s.workers[w].phase &&
          t.workers[w].connected == s.workers[w].connected)
    && (forall w :: w in t.workers && w !in s.workers ==> t.workers[w].phase.Boot?)
  }

  lemma QuietKeepsHoldings(s: State, t: State)
    requires Holdings(s) && Quiet(s, t)
    ensures Holdings(t)
  {
    forall m | m in t.unsettled ensures HasOut(t, m, t.unsettled[m]) {
      assert HasOut(s, m, s.unsettled[m]);
    }
    forall v | v in t.workers && Holding(t.workers[v].phase).Some?
      ensures WorksOn(t, v, Holding(t.workers[v].phase).value)
    {
      assert v in s.workers && WorksOn(s, v, Holding(s.workers[v].phase).value);
    }
  }

  lemma QuietStepIsQuiet(s: State, a: Action)
    requires !a.Main? && !a.CloseMailbox? && !a.Kill?
    ensures Quiet(s, Step(s, a))
  {
  }

  lemma QuietStepConserves(s: State, a: Action)
    requires Conserved(s) && !a.Main? && !a.CloseMailbox? && !a.Kill?
    ensures Conserved(Step(s, a))
  {
    var t := Step(s, a);
    forall m ensures t.queue[m] + One(m in t.unsettled) + One(m in t.acked) == One(m in t.posted) {
      assert s.queue[m] + One(m in s.unsettled) + One(m in s.acked) == One(m in s.posted);
    }
  }

  lemma StepKeepsInv(s: State, a: Action)
    requires Inv(s)
    ensures Inv(Step(s, a))
  {
    match a
    case Main(w, act) =>
      if w in s.workers && (act.Receive? ==> act.m in s.queue) {
        MainKeepsInv(s, w, act);
      }
    case CloseMailbox(w) =>
      if w in s.workers {
        DisconnectConserves(s, w);
        DisconnectKeepsHoldings(s, w, s.workers[w].(connected := false));
      }
    case Kill(w) =>
      if w in s.workers {
        DisconnectConserves(s, w);
        DisconnectKeepsHoldings(s, w, s.workers[w].(phase := Gone, connected := false));
      }
    case _ =>
      QuietStepConserves(s, a);
      QuietStepIsQuiet(s, a);
      QuietKeepsHoldings(s, Step(s, a));
  }

  lemma {:induction false} RunKeepsInv(s: State, actions: seq<Action>)
    requires Inv(s)
    ensures Inv(Run(s, actions))
    decreases |actions|
  {
    if actions != [] {
      StepKeepsInv(s, actions[0]);
      RunKeepsInv(Step(s, actions[0]), actions[1..]);
    }
  }

  lemma {:induction false} RunConcat(s: State, first: seq<Action>, more: seq<Action>)
    ensures Run(s, first + more) == Run(Run(s, first), more)
    decreases |first|
  {
    if first == [] {
      assert first + more == more;
    } else {
      assert (first + more)[1..] == first[1..] + more;
      RunConcat(Step(s, first[0]), first[1..], more);
    }
  }

  /**
   After every run of posts, workers, failures, stops and kills: the posted messages are the disjoint union of the
   queued, the unsettled and the acknowledged ones, none is queued twice, no settlement ever hits a delivery that
   is already settled, and no worker has two unsettled messages.
   */
  lemma PostedMessagesArePartitioned(actions: seq<Action>)
    ensures var s := Run(INIT, actions);
            && s.posted == (set m | m in s.queue) + s.unsettled.Keys + s.acked.Keys
            && (set m | m in s.queue) !! s.unsettled.Keys !! s.acked.Keys
            && (forall m :: s.queue[m] <= 1)
            && s.faults == 0
            && (forall m, m' :: m in s.unsettled && m' in s.unsettled && s.unsettled[m] == s.unsettled[m'] ==> m == m')
  {
    RunKeepsInv(INIT, actions);
    var s := Run(INIT, actions);
    forall m ensures s.queue[m] <= 1 && (m in s.posted <==> m in s.queue || m in s.unsettled || m in s.acked)
      ensures (m in s.queue ==> m !in s.unsettled) && (m in s.queue || m in s.unsettled ==> m !in s.acked)
    {
      assert s.queue[m] + One(m in s.unsettled) + One(m in s.acked) == One(m in s.posted);
    }
  }

  // ---------------------------------------------------------------------------------------------
  // Building runs
  // ---------------------------------------------------------------------------------------------

  ghost predicate Reaches(s: State, t: State) {
    exists actions :: Run(s, actions) == t
  }

  lemma Stay(s: State)
    ensures Reaches(s, s)
  {
    assert Run(s, []) == s;
  }

  lemma Go(init: State, s: State, a: Action) returns (t: State)
    requires Reaches(init, s)
    ensures Reaches(init, t) && t == Step(s, a)
  {
    t := Step(s, a);
    var actions :| Run(init, actions) == s;
    RunConcat(init, actions, [a]);
    assert Run(s, [a]) == Run(t, []);
  }

  lemma Post(init: State, s: State, m: Eid) returns (t: State)
    requires Reaches(init, s) && m !in s.status && m !in s.posted
    ensures Reaches(init, t)
    ensures t == s.(status := s.status[m := Submitted], posted := s.posted + {m}, queue := s.queue + multiset{m})
  {
    t := Go(init, s, AddExecution(m));
    t := Go(init, t, Put(m));
  }

  /** A state in which one worker is given apart from the rest. */
  function With(rest: State, w: Wid, wk: Worker): State {
    rest.(workers := rest.workers[w := wk])
  }

  lemma MainTouchesOneWorker(rest: State, w: Wid, wk: Worker, e: Effect, next: Worker)
    ensures AfterMain(With(rest, w, wk), w, e, next) == With(Perform(rest, w, e), w, next)
  {
    assert rest.workers[w := wk][w := next] == rest.workers[w := next];
  }

  lemma GoMain(init: State, rest: State, w: Wid, wk: Worker, act: MainAction, e: Effect, next: Worker)
    requires Reaches(init, With(rest, w, wk)) && MainStep(wk, act) == (next, e)
    requires act.Receive? ==> act.m in rest.queue
    ensures Reaches(init, With(Perform(rest, w, e), w, next))
  {
    var s := With(rest, w, wk);
    var t := Go(init, s, Main(w, act));
    MainTouchesOneWorker(rest, w, wk, e, next);
    assert s.workers[w] == wk && s.queue == rest.queue;
    assert t == AfterMain(s, w, e, next);
  }

  lemma StartWorker(init: State, s: State, w: Wid)
    requires Reaches(init, s) && w !in s.workers
    ensures Reaches(init, With(s, w, NEW_WORKER.(phase := AtTop)))
  {
    var t := Go(init, s, NewWorker(w));
    GoMain(init, s, w, NEW_WORKER, Begin, Nothing, NEW_WORKER.(phase := AtTop));
  }

  /** A worker that may run takes a message from the queue and is about to start its container. */
  lemma ReceiveMessage(init: State, rest: State, w: Wid, wk: Worker, m: Eid) returns (t: State)
    requires Reaches(init, With(rest, w, wk)) && m in rest.queue
    requires wk.phase.AtTop? && wk.keepRunning && wk.connected
    ensures t == rest.(queue := rest.queue - multiset{m}, unsettled := rest.unsettled[m := w])
    ensures Reaches(init, With(t, w, wk.(phase := Preparing(m))))
  {
    GoMain(init, rest, w, wk, TestTop, Nothing, wk.(phase := Waiting));
    GoMain(init, rest, w, wk.(phase := Waiting), Receive(m), Take(m), wk.(phase := Received(m)));
    t := Perform(rest, w, Take(m));
    GoMain(init, t, w, wk.(phase := Received(m)), TestAgain, Nothing, wk.(phase := Preparing(m)));
  }

  /** It runs the container. */
  lemma RunContainer(init: State, rest: State, w: Wid, wk: Worker, m: Eid) returns (t: State)
    requires Reaches(init, With(rest, w, wk)) && wk.phase == Preparing(m)
    ensures t == rest.(starts := rest.starts + multiset{(m, w)}, status := rest.status[m := Running])
    ensures Reaches(init, With(t, w, CountStart(wk).(phase := Supervising(m))))
    ensures wk.stoppedIn.None? ==> Reaches(init, With(t, w, wk.(phase := Supervising(m))))
  {
    var started := CountStart(wk);
    assert wk.stoppedIn.None? ==> started == wk;
    GoMain(init, rest, w, wk, StartContainer, Launch(m), started.(phase := Started(m)));
    t := Perform(rest, w, Launch(m));
    GoMain(init, t, w, started.(phase := Started(m)), MarkRunning, SetStatus(m, Running),
           started.(phase := Supervising(m)));
    t := Perform(t, w, SetStatus(m, Running));
  }

  /** The container finishes and the message is acknowledged. */
  lemma FinishContainer(init: State, rest: State, w: Wid, wk: Worker, m: Eid) returns (t: State)
    requires Reaches(init, With(rest, w, wk)) && m in rest.unsettled && rest.unsettled[m] == w
    requires wk.phase == Supervising(m) && wk.connected
    ensures t == rest.(unsettled := rest.unsettled - {m}, acked := rest.acked[m := w])
    ensures Reaches(init, With(t, w, wk.(phase := Settled(m))))
  {
    GoMain(init, rest, w, wk, FinishRun, Nothing, wk.(phase := Finished(m)));
    GoMain(init, rest, w, wk.(phase := Finished(m)), Ack, Acknowledge(m), wk.(phase := Settled(m)));
    t := Perform(rest, w, Acknowledge(m));
  }

  /** It runs the container to the end and completes the execution. */
  lemma ExecuteMessage(init: State, rest: State, w: Wid, wk: Worker, m: Eid) returns (t: State)
    requires Reaches(init, With(rest, w, wk)) && m in rest.unsettled && rest.unsettled[m] == w
    requires wk.phase == Preparing(m) && wk.connected
    ensures t == rest.(unsettled := rest.unsettled - {m}, acked := rest.acked[m := w],
                       starts := rest.starts + multiset{(m, w)}, status := rest.status[m := Running][m := Complete])
    ensures Reaches(init, With(t, w, CountStart(wk).(phase := AtTop, errors := 0)))
    ensures wk.stoppedIn.None? ==> Reaches(init, With(t, w, wk.(phase := AtTop, errors := 0)))
  {
    var started := CountStart(wk);
    assert wk.stoppedIn.None? ==> started == wk;
    t := RunContainer(init, rest, w, wk, m);
    t := FinishContainer(init, t, w, started.(phase := Supervising(m)), m);
    var top := started.(phase := AtTop, errors := 0);
    GoMain(init, t, w, started.(phase := Settled(m)), MarkComplete, SetStatus(m, Complete), top);
    t := Perform(t, w, SetStatus(m, Complete));
  }
}

/**
 How often the container of one execution is started, over every run of the delivery system: which workers start
 it, and what became of their deliveries.
 */
module ContainerStarts {
  import opened Options
  import opened MessageDelivery
  import Sets

  /** A worker that started a container for a message was later cut off from it, still has it, or acknowledged it. */
  predicate Accounted(s: State, m: Eid, w: Wid) {
    && w in s.workers
    && ((m, w) in s.returned || (m in s.unsettled && s.unsettled[m] == w) || (m in s.acked && s.acked[m] == w))
  }

  /** No container is started twice by one delivery, and none before the message is prepared. */
  ghost predicate StartsOnce(s: State) {
    && (forall m, w :: s.starts[(m, w)] <= 1)
    && (forall w :: w in s.workers && BeforeStart(s.workers[w].phase) ==> s.starts[(s.workers[w].phase.m, w)] == 0)
  }

  ghost predicate StartsAccounted(s: State) {
    forall m, w :: s.starts[(m, w)] > 0 ==> Accounted(s, m, w)
  }

  lemma SettleKeepsAccounts(s: State, w: Wid, e: Effect, next: Worker)
    requires Inv(s) && StartsAccounted(s) && StartsOnce(s) && w in s.workers && StepShape(s.workers[w], e, next)
    requires e.Acknowledge? || e.Requeue?
    ensures StartsAccounted(AfterMain(s, w, e, next))
  {
    var t := AfterMain(s, w, e, next);
    assert WorksOn(s, w, e.m);
    assert s.queue[e.m] + One(e.m in s.unsettled) + One(e.m in s.acked) == One(e.m in s.posted);
    assert e.Requeue? ==> s.starts[(e.m, w)] == 0;
    forall m, v | t.starts[(m, v)] > 0 ensures Accounted(t, m, v) {
      assert Accounted(s, m, v);
    }
  }

  lemma OtherKeepsAccounts(s: State, w: Wid, e: Effect, next: Worker)
    requires Inv(s) && StartsAccounted(s) && w in s.workers && StepShape(s.workers[w], e, next)
    requires !e.Acknowledge? && !e.Requeue? && (e.Take? ==> e.m in s.queue)
    ensures StartsAccounted(AfterMain(s, w, e, next))
  {
    var t := AfterMain(s, w, e, next);
    if e.Take? {
      assert s.queue[e.m] + One(e.m in s.unsettled) + One(e.m in s.acked) == One(e.m in s.posted);
    }
    forall m, v | t.starts[(m, v)] > 0 ensures Accounted(t, m, v) {
      assert s.starts[(m, v)] > 0 ==> Accounted(s, m, v);
      assert e.Launch? ==> WorksOn(s, w, e.m);
    }
  }

  /** A message in the queue has not been started by a connected worker. */
  lemma QueuedIsUnstarted(s: State, w: Wid, m: Eid)
    requires Inv(s) && StartsAccounted(s) && m in s.queue && w in s.workers && s.workers[w].connected
    ensures s.starts[(m, w)] == 0
  {
    assert s.queue[m] + One(m in s.unsettled) + One(m in s.acked) == One(m in s.posted);
    assert !Accounted(s, m, w);
  }

  lemma LaunchStartsOnce(s: State, w: Wid, m: Eid, next: Worker)
    requires StartsOnce(s) && w in s.workers && StepShape(s.workers[w], Launch(m), next)
    ensures StartsOnce(AfterMain(s, w, Launch(m), next))
  {
    var t := AfterMain(s, w, Launch(m), next);
    assert s.starts[(m, w)] == 0;
    forall v | v in t.workers && BeforeStart(t.workers[v].phase) ensures t.starts[(t.workers[v].phase.m, v)] == 0 {
      assert v != w;
    }
  }

  lemma OtherStartsOnce(s: State, w: Wid, e: Effect, next: Worker)
    requires StartsOnce(s) && w in s.workers && StepShape(s.workers[w], e, next) && !e.Launch?
    requires e.Take? ==> s.starts[(e.m, w)] == 0
    ensures StartsOnce(AfterMain(s, w, e, next))
  {
    var t := AfterMain(s, w, e, next);
    assert t.starts == s.starts && t.workers == s.workers[w := next];
    forall v | v in t.workers && BeforeStart(t.workers[v].phase) ensures t.starts[(t.workers[v].phase.m, v)] == 0 {
      assert v != w ==> BeforeStart(s.workers[v].phase);
      assert v == w && !e.Take? ==> BeforeStart(s.workers[w].phase);
    }
  }

  lemma QuietKeepsStarts(s: State, t: State)
    requires StartsAccounted(s) && StartsOnce(s) && Quiet(s, t)
    ensures StartsAccounted(t) && StartsOnce(t)
  {
    forall m, v | t.starts[(m, v)] > 0 ensures Accounted(t, m, v) {
      assert Accounted(s, m, v);
    }
  }

  lemma DisconnectKeepsStarts(s: State, w: Wid, next: Worker)
    requires StartsAccounted(s) && StartsOnce(s) && w in s.workers
    requires next.phase == s.workers[w].phase || next.phase.Gone?
    ensures var t := Disconnect(s, w).(workers := s.workers[w := next]); StartsAccounted(t) && StartsOnce(t)
  {
    var t := Disconnect(s, w).(workers := s.workers[w := next]);
    forall m, v | t.starts[(m, v)] > 0 ensures Accounted(t, m, v) {
      assert Accounted(s, m, v);
    }
  }

  lemma MainKeepsStarts(s: State, w: Wid, act: MainAction)
    requires Inv(s) && StartsAccounted(s) && StartsOnce(s)
    requires w in s.workers && (act.Receive? ==> act.m in s.queue)
    ensures var (next, e) := MainStep(s.workers[w], act);
            var t := AfterMain(s, w, e, next);
            StartsAccounted(t) && StartsOnce(t)
  {
    var (next, e) := MainStep(s.workers[w], act);
    MainStepHasShape(s.workers[w], act);
    if e.Acknowledge? || e.Requeue? {
      SettleKeepsAccounts(s, w, e, next);
    } else {
      OtherKeepsAccounts(s, w, e, next);
    }
    if e.Launch? {
      LaunchStartsOnce(s, w, e.m, next);
    } else {
      if e.Take? { QueuedIsUnstarted(s, w, e.m); }
      OtherStartsOnce(s, w, e, next);
    }
  }

  ghost predicate StartsInOrder(s: State) {
    StartsAccounted(s) && StartsOnce(s)
  }

  lemma MainActionKeepsStarts(s: State, w: Wid, act: MainAction)
    requires Inv(s) && StartsInOrder(s)
    ensures StartsInOrder(Step(s, Main(w, act)))
  {
    if w in s.workers && (act.Receive? ==> act.m in s.queue) {
      MainKeepsStarts(s, w, act);
    }
  }

  lemma CloseKeepsStarts(s: State, w: Wid)
    requires StartsInOrder(s)
    ensures StartsInOrder(Step(s, CloseMailbox(w)))
  {
    if w in s.workers {
      DisconnectKeepsStarts(s, w, s.workers[w].(connected := false));
    }
  }

  lemma KillKeepsStarts(s: State, w: Wid)
    requires StartsInOrder(s)
    ensures StartsInOrder(Step(s, Kill(w)))
  {
    if w in s.workers {
      DisconnectKeepsStarts(s, w, s.workers[w].(phase := Gone, connected := false));
    }
  }

  lemma StepKeepsStarts(s: State, a: Action)
    requires Inv(s) && StartsInOrder(s)
    ensures StartsInOrder(Step(s, a))
  {
    match a
    case Main(w, act) => MainActionKeepsStarts(s, w, act);
    case CloseMailbox(w) => CloseKeepsStarts(s, w);
    case Kill(w) => KillKeepsStarts(s, w);
    case _ =>
      QuietStepIsQuiet(s, a);
      QuietKeepsStarts(s, Step(s, a));
  }

  lemma {:induction false} RunKeepsStarts(s: State, actions: seq<Action>)
    requires Inv(s) && StartsInOrder(s)
    ensures var t := Run(s, actions); Inv(t) && StartsInOrder(t)
    decreases |actions|
  {
    if actions != [] {
      StepKeepsInv(s, actions[0]);
      StepKeepsStarts(s, actions[0]);
      RunKeepsStarts(Step(s, actions[0]), actions[1..]);
    }
  }

  /** The workers that have started a container for a message. */
  function Starters(s: State, m: Eid): set<Wid> {
    set w | w in s.workers && s.starts[(m, w)] > 0
  }

  /** The workers that lost a message to the broker when their connection ended. */
  function Losers(s: State, m: Eid): set<Wid> {
    set w | w in s.workers && (m, w) in s.returned
  }

  lemma RequeuedIsUnstarted(s: State, w: Wid, act: MainAction, m: Eid)
    requires StartsOnce(s) && w in s.workers && MainStep(s.workers[w], act).1 == Requeue(m)
    ensures s.starts[(m, w)] == 0
  {
    MainStepHasShape(s.workers[w], act);
    assert BeforeStart(s.workers[w].phase);
  }

  lemma StartersAndLosers(s: State, m: Eid)
    requires Conserved(s) && StartsAccounted(s)
    ensures |Starters(s, m)| <= 1 + |Starters(s, m) * Losers(s, m)|
  {
    assert s.queue[m] + One(m in s.unsettled) + One(m in s.acked) == One(m in s.posted);
    var last := if m in s.unsettled then {s.unsettled[m]} else if m in s.acked then {s.acked[m]} else {};
    var lost := Starters(s, m) * Losers(s, m);
    forall w | w in Starters(s, m) ensures w in lost + last {
      assert Accounted(s, m, w);
    }
    Sets.SubsetIsSmaller(Starters(s, m), lost + last);
  }

  lemma StartedByStarters(s: State, m: Eid, w: Wid)
    requires StartsInOrder(s)
    ensures s.starts[(m, w)] == One(w in Starters(s, m))
  {
    assert s.starts[(m, w)] > 0 ==> Accounted(s, m, w);
  }

  /**
   A message is requeued by its worker only if that worker has not started its container.  And over every run the
   workers that started the container of one execution, each once, outnumber by at most one those among them that lost
   it by being killed or cut off.
   */
  lemma StartsAreBounded(actions: seq<Action>, m: Eid)
    ensures var s := Run(INIT, actions);
            && (forall w, act ::
                  w in s.workers && MainStep(s.workers[w], act).1 == Requeue(m) ==> s.starts[(m, w)] == 0)
            && (forall w :: s.starts[(m, w)] == One(w in Starters(s, m)))
            && |Starters(s, m)| <= 1 + |Starters(s, m) * Losers(s, m)|
  {
    var s := Run(INIT, actions);
    RunKeepsStarts(INIT, actions);
    forall w, act | w in s.workers && MainStep(s.workers[w], act).1 == Requeue(m) ensures s.starts[(m, w)] == 0 {
      RequeuedIsUnstarted(s, w, act, m);
    }
    forall w ensures s.starts[(m, w)] == One(w in Starters(s, m)) {
      StartedByStarters(s, m, w);
    }
    StartersAndLosers(s, m);
  }

  predicate Undisturbed(a: Action) {
    !a.Kill? && !a.CloseMailbox?
  }

  lemma UndisturbedStepReturnsNothing(s: State, a: Action)
    requires Undisturbed(a)
    ensures Step(s, a).returned == s.returned
  {
  }

  lemma {:induction false} UndisturbedRunReturnsNothing(s: State, actions: seq<Action>)
    requires forall i :: 0 <= i < |actions| ==> Undisturbed(actions[i])
    ensures Run(s, actions).returned == s.returned
    decreases |actions|
  {
    if actions != [] {
      UndisturbedStepReturnsNothing(s, actions[0]);
      UndisturbedRunReturnsNothing(Step(s, actions[0]), actions[1..]);
    }
  }

  lemma SameStarter(s: State, m: Eid, v: Wid, w: Wid)
    requires StartsInOrder(s) && s.returned == {} && Conserved(s)
    requires s.starts[(m, v)] > 0 && s.starts[(m, w)] > 0
    ensures v == w
  {
    assert s.queue[m] + One(m in s.unsettled) + One(m in s.acked) == One(m in s.posted);
    assert Accounted(s, m, v) && Accounted(s, m, w);
  }

  /** In every run without kills and cut-offs each execution has at most one container start, across all workers. */
  lemma AtMostOneStart(actions: seq<Action>, m: Eid)
    requires forall i :: 0 <= i < |actions| ==> Undisturbed(actions[i])
    ensures var starts := Run(INIT, actions).starts;
            && (forall w :: starts[(m, w)] <= 1)
            && (forall v, w :: starts[(m, v)] > 0 && starts[(m, w)] > 0 ==> v == w)
  {
    var s := Run(INIT, actions);
    RunKeepsStarts(INIT, actions);
    UndisturbedRunReturnsNothing(INIT, actions);
    forall v, w | s.starts[(m, v)] > 0 && s.starts[(m, w)] > 0 ensures v == w {
      SameStarter(s, m, v, w);
    }
  }

  // ---------------------------------------------------------------------------------------------
  // Acknowledged, but started?
  // ---------------------------------------------------------------------------------------------

  predicate WasStarted(s: State, m: Eid, w: Wid) {
    s.starts[(m, w)] > 0
  }

  predicate AckedWereStarted(s: State) {
    forall m :: m in s.acked ==> WasStarted(s, m, s.acked[m])
  }

  predicate PastStart(p: Phase) {
    Holding(p).Some? && !BeforeStart(p)
  }

  predicate WorkedOnWereStarted(s: State) {
    forall w :: w in s.workers && PastStart(s.workers[w].phase) ==> WasStarted(s, Holding(s.workers[w].phase).value, w)
  }

  predicate AcksStarted(s: State) {
    AckedWereStarted(s) && WorkedOnWereStarted(s)
  }

  lemma StartsOnlyGrow(s: State, w: Wid, e: Effect, next: Worker)
    ensures forall m, v :: WasStarted(s, m, v) ==> WasStarted(AfterMain(s, w, e, next), m, v)
    ensures e.Launch? ==> WasStarted(AfterMain(s, w, e, next), e.m, w)
  {
  }

  lemma MainKeepsAcked(s: State, w: Wid, e: Effect, next: Worker)
    requires AckedWereStarted(s) && (e.Acknowledge? ==> WasStarted(s, e.m, w))
    ensures AckedWereStarted(AfterMain(s, w, e, next))
  {
    StartsOnlyGrow(s, w, e, next);
    var t := AfterMain(s, w, e, next);
    forall m | m in t.acked ensures WasStarted(t, m, t.acked[m]) {
      assert (m in s.acked && t.acked[m] == s.acked[m]) || (e == Acknowledge(m) && t.acked[m] == w);
    }
  }

  lemma MainKeepsWorkedOn(s: State, w: Wid, e: Effect, next: Worker)
    requires WorkedOnWereStarted(s) && w in s.workers && StepShape(s.workers[w], e, next)
    ensures WorkedOnWereStarted(AfterMain(s, w, e, next))
  {
    StartsOnlyGrow(s, w, e, next);
    var phase := s.workers[w].phase;
    assert PastStart(next.phase) && !e.Launch? ==> PastStart(phase) && Holding(phase) == Holding(next.phase);
  }

  lemma MainKeepsAcksStarted(s: State, w: Wid, e: Effect, next: Worker)
    requires AcksStarted(s) && w in s.workers && StepShape(s.workers[w], e, next)
    requires e.Acknowledge? ==> !BeforeStart(s.workers[w].phase)
    ensures AcksStarted(AfterMain(s, w, e, next))
  {
    assert e.Acknowledge? ==> PastStart(s.workers[w].phase);
    MainKeepsAcked(s, w, e, next);
    MainKeepsWorkedOn(s, w, e, next);
  }

  lemma StepKeepsAcksStarted(s: State, a: Action)
    requires AcksStarted(s) && !(a.Main? && a.act.FailCreate?)
    ensures AcksStarted(Step(s, a))
  {
    if a.Main? && a.w in s.workers {
      var (next, e) := MainStep(s.workers[a.w], a.act);
      MainStepHasShape(s.workers[a.w], a.act);
      MainKeepsAcksStarted(s, a.w, e, next);
    }
  }

  /** When the container could always be created, every acknowledged message had its container started by its worker. */
  lemma {:induction false} AcknowledgedMessagesWereStarted(s: State, actions: seq<Action>)
    requires AcksStarted(s)
    requires forall i :: 0 <= i < |actions| ==> !(actions[i].Main? && actions[i].act.FailCreate?)
    ensures AcksStarted(Run(s, actions))
    decreases |actions|
  {
    if actions != [] {
      StepKeepsAcksStarted(s, actions[0]);
      AcknowledgedMessagesWereStarted(Step(s, actions[0]), actions[1..]);
    }
  }

  // ---------------------------------------------------------------------------------------------
  // Exactly which acknowledged messages were not
  // ---------------------------------------------------------------------------------------------

  /** The step in which a connected worker gives up a message because its container could not be created. */
  predicate CreationFails(s: State, a: Action, m: Eid) {
    a.Main? && a.act.FailCreate? && a.w in s.workers && s.workers[a.w].connected && s.workers[a.w].phase == Preparing(m)
  }

  predicate CreationFailsIn(s: State, actions: seq<Action>, m: Eid)
    decreases |actions|
  {
    actions != [] && (CreationFails(s, actions[0], m) || CreationFailsIn(Step(s, actions[0]), actions[1..], m))
  }

  /** Acknowledged by a worker that never started the container. */
  predicate AckedUnstarted(s: State, m: Eid) {
    m in s.acked && !WasStarted(s, m, s.acked[m])
  }

  predicate DoesNotHold(s: State, w: Wid, m: Eid) {
    w in s.workers && Holding(s.workers[w].phase) != Some(m)
  }

  /** Nobody works again on a message that it has acknowledged. */
  predicate NoneRevisited(s: State) {
    forall m :: m in s.acked ==> DoesNotHold(s, s.acked[m], m)
  }

  ghost predicate AcksInOrder(s: State) {
    Inv(s) && StartsInOrder(s) && WorkedOnWereStarted(s) && NoneRevisited(s)
  }

  lemma QueuedIsNotAcked(s: State, m: Eid)
    requires Conserved(s) && (m in s.queue || m in s.unsettled)
    ensures m !in s.acked
  {
    assert s.queue[m] + One(m in s.unsettled) + One(m in s.acked) == One(m in s.posted);
  }

  lemma HoldingComesFromTaking(wk: Worker, e: Effect, next: Worker, m: Eid)
    requires StepShape(wk, e, next) && Holding(next.phase) == Some(m)
    ensures e == Take(m) || Holding(wk.phase) == Some(m)
    ensures e != Acknowledge(m)
  {
  }

  lemma MainRevisitsNone(s: State, w: Wid, e: Effect, next: Worker, m: Eid)
    requires NoneRevisited(s) && w in s.workers && StepShape(s.workers[w], e, next)
    requires e.Take? ==> e.m !in s.acked
    requires m in AfterMain(s, w, e, next).acked
    ensures DoesNotHold(AfterMain(s, w, e, next), AfterMain(s, w, e, next).acked[m], m)
  {
    if Holding(next.phase) == Some(m) {
      HoldingComesFromTaking(s.workers[w], e, next, m);
    }
    assert m in s.acked ==> DoesNotHold(s, s.acked[m], m);
  }

  lemma QuietRevisitsNone(s: State, a: Action)
    requires NoneRevisited(s) && !a.Main?
    ensures NoneRevisited(Step(s, a))
  {
    var t := Step(s, a);
    assert t.acked == s.acked;
    assert forall w, m :: DoesNotHold(s, w, m) ==> DoesNotHold(t, w, m);
  }

  lemma StepRevisitsNone(s: State, a: Action)
    requires AcksInOrder(s)
    ensures NoneRevisited(Step(s, a))
  {
    if !a.Main? {
      QuietRevisitsNone(s, a);
    } else if a.w in s.workers && (a.act.Receive? ==> a.act.m in s.queue) {
      var (next, e) := MainStep(s.workers[a.w], a.act);
      MainStepHasShape(s.workers[a.w], a.act);
      if e.Take? { QueuedIsNotAcked(s, e.m); }
      forall m | m in AfterMain(s, a.w, e, next).acked
        ensures DoesNotHold(AfterMain(s, a.w, e, next), AfterMain(s, a.w, e, next).acked[m], m)
      {
        MainRevisitsNone(s, a.w, e, next, m);
      }
    }
  }

  lemma StepKeepsWorkedOn(s: State, a: Action)
    requires WorkedOnWereStarted(s)
    ensures WorkedOnWereStarted(Step(s, a))
  {
    if a.Main? && a.w in s.workers {
      var (next, e) := MainStep(s.workers[a.w], a.act);
      MainStepHasShape(s.workers[a.w], a.act);
      MainKeepsWorkedOn(s, a.w, e, next);
    }
  }

  lemma StepKeepsAcksInOrder(s: State, a: Action)
    requires AcksInOrder(s)
    ensures AcksInOrder(Step(s, a))
  {
    StepKeepsInv(s, a);
    StepKeepsStarts(s, a);
    StepKeepsWorkedOn(s, a);
    StepRevisitsNone(s, a);
  }

  /** A main thread that acknowledges before its container was started does so because it could not be created. */
  lemma EarlyAckIsCreationFailure(wk: Worker, act: MainAction, m: Eid)
    ensures MainStep(wk, act).1 == Acknowledge(m) && BeforeStart(wk.phase)
       <==> act.FailCreate? && wk.connected && wk.phase == Preparing(m)
  {
  }

  lemma AckedStaysAfterMain(s: State, w: Wid, e: Effect, next: Worker, m: Eid)
    requires AcksInOrder(s) && m in s.acked && w in s.workers && StepShape(s.workers[w], e, next)
    ensures var t := AfterMain(s, w, e, next);
            m in t.acked && t.acked[m] == s.acked[m] && (WasStarted(t, m, t.acked[m]) <==> WasStarted(s, m, s.acked[m]))
  {
    if m in s.unsettled { QueuedIsNotAcked(s, m); assert false; }
    if e.Launch? {
      assert e.m == m ==> s.acked[m] != w;
    }
  }

  /** What is acknowledged stays so, by the same worker, and what that worker did before stays done or undone. */
  lemma AckedStays(s: State, a: Action, m: Eid)
    requires AcksInOrder(s) && m in s.acked
    ensures m in Step(s, a).acked && Step(s, a).acked[m] == s.acked[m]
    ensures AckedUnstarted(Step(s, a), m) <==> AckedUnstarted(s, m)
  {
    if a.Main? && a.w in s.workers && (a.act.Receive? ==> a.act.m in s.queue) {
      var (next, e) := MainStep(s.workers[a.w], a.act);
      MainStepHasShape(s.workers[a.w], a.act);
      AckedStaysAfterMain(s, a.w, e, next, m);
    }
  }

  lemma FirstAckAfterMain(s: State, w: Wid, e: Effect, next: Worker, m: Eid)
    requires AcksInOrder(s) && m !in s.acked && w in s.workers && StepShape(s.workers[w], e, next)
    ensures AckedUnstarted(AfterMain(s, w, e, next), m) <==> e == Acknowledge(m) && BeforeStart(s.workers[w].phase)
  {
    if e == Acknowledge(m) {
      assert WorksOn(s, w, m);
      assert BeforeStart(s.workers[w].phase) || PastStart(s.workers[w].phase);
    }
  }

  lemma FirstAck(s: State, a: Action, m: Eid)
    requires AcksInOrder(s) && m !in s.acked
    ensures AckedUnstarted(Step(s, a), m) <==> CreationFails(s, a, m)
  {
    if a.Main? && a.w in s.workers && (a.act.Receive? ==> a.act.m in s.queue) {
      var (next, e) := MainStep(s.workers[a.w], a.act);
      MainStepHasShape(s.workers[a.w], a.act);
      EarlyAckIsCreationFailure(s.workers[a.w], a.act, m);
      FirstAckAfterMain(s, a.w, e, next, m);
    }
  }

  lemma AckedIsNotFailing(s: State, a: Action, m: Eid)
    requires AcksInOrder(s) && m in s.acked
    ensures !CreationFails(s, a, m)
  {
    if CreationFails(s, a, m) {
      assert WorksOn(s, a.w, m);
      QueuedIsNotAcked(s, m);
    }
  }

  lemma {:induction false} NoLaterFailure(s: State, actions: seq<Action>, m: Eid)
    requires AcksInOrder(s) && m in s.acked
    ensures !CreationFailsIn(s, actions, m)
    decreases |actions|
  {
    if actions != [] {
      AckedIsNotFailing(s, actions[0], m);
      AckedStays(s, actions[0], m);
      StepKeepsAcksInOrder(s, actions[0]);
      NoLaterFailure(Step(s, actions[0]), actions[1..], m);
    }
  }

  lemma {:induction false} AckedUnstartedFrom(s: State, actions: seq<Action>, m: Eid)
    requires AcksInOrder(s)
    ensures AckedUnstarted(Run(s, actions), m) <==> AckedUnstarted(s, m) || CreationFailsIn(s, actions, m)
    decreases |actions|
  {
    if actions != [] {
      if m in s.acked {
        AckedStays(s, actions[0], m);
        AckedIsNotFailing(s, actions[0], m);
        NoLaterFailure(s, actions, m);
      } else {
        FirstAck(s, actions[0], m);
      }
      StepKeepsAcksInOrder(s, actions[0]);
      AckedUnstartedFrom(Step(s, actions[0]), actions[1..], m);
    }
  }

  /**
   Over every run: a message is acknowledged without its container having been started by the worker that acknowledged
   it, if and only if in some step of the run a connected worker failed to create that container.
   */
  lemma AcknowledgedUnstartedIff(actions: seq<Action>, m: Eid)
    ensures AckedUnstarted(Run(INIT, actions), m) <==> CreationFailsIn(INIT, actions, m)
  {
    AckedUnstartedFrom(INIT, actions, m);
  }

  /** An error while the container is created acknowledges a message that was never executed. */
  lemma AcknowledgedWithoutStart() returns (s: State)
    ensures Reaches(INIT, s) && 0 in s.acked && !WasStarted(s, 0, s.acked[0]) && s.starts == multiset{}
  {
    var ready := NEW_WORKER.(phase := AtTop);
    Stay(INIT);
    var rest := Post(INIT, INIT, 0);
    StartWorker(INIT, rest, 0);
    rest := ReceiveMessage(INIT, rest, 0, ready, 0);
    GoMain(INIT, rest, 0, ready.(phase := Preparing(0)), FailCreate, Acknowledge(0), ready.(phase := Left));
    s := With(Perform(rest, 0, Acknowledge(0)), 0, ready.(phase := Left));
  }
}

/**
 Whether the status COMPLETE of an execution is final (actors/models.py, Execution.update_status and
 finalize_execution).  Both write the status unconditionally, so this rests on who can still reach those calls.
 */
module ExecutionPermanence {
  import opened Options
  import opened MessageDelivery

  predicate IsComplete(s: State, m: Eid) {
    m in s.status && s.status[m].Complete?
  }

  /** COMPLETE is written only for acknowledged messages. */
  predicate CompletesAreAcked(s: State) {
    && (forall m :: m in s.status ==> (IsComplete(s, m) ==> m in s.acked))
    && (forall w :: w in s.workers && s.workers[w].phase.Settled? ==> s.workers[w].phase.m in s.acked)
  }

  /** A worker that was cut off from its mailbox, yet lives and is on its way to write RUNNING. */
  predicate CanStillMark(wk: Worker, m: Eid) {
    && !wk.connected
    && (wk.phase == Preparing(m) || wk.phase == Started(m) || (wk.phase == Received(m) && wk.keepRunning))
  }

  predicate Stale(s: State, m: Eid) {
    exists w :: w in s.workers && CanStillMark(s.workers[w], m)
  }

  predicate Sound(s: State) {
    (forall m :: m in s.acked ==> m !in s.unsettled) && Held(s) && CompletesAreAcked(s)
  }

  lemma AckedIsSettled(s: State)
    requires Inv(s)
    ensures forall m :: m in s.acked ==> m !in s.unsettled
  {
    forall m | m in s.acked ensures m !in s.unsettled {
      assert s.queue[m] + One(m in s.unsettled) + One(m in s.acked) == One(m in s.posted);
    }
  }

  lemma MainKeepsCompletes(s: State, w: Wid, e: Effect, next: Worker)
    requires Sound(s) && w in s.workers && StepShape(s.workers[w], e, next)
    requires next.phase.Settled? ==> e == Acknowledge(next.phase.m) || next.phase == s.workers[w].phase
    ensures CompletesAreAcked(AfterMain(s, w, e, next))
  {
    if e.Acknowledge? {
      assert WorksOn(s, w, e.m);
    }
  }

  lemma StepKeepsCompletes(s: State, a: Action)
    requires Sound(s)
    ensures CompletesAreAcked(Step(s, a))
  {
    if a.Main? && a.w in s.workers {
      MainStepHasShape(s.workers[a.w], a.act);
      var (next, e) := MainStep(s.workers[a.w], a.act);
      MainKeepsCompletes(s, a.w, e, next);
    }
  }

  lemma {:induction false} RunKeepsCompletes(s: State, actions: seq<Action>)
    requires Inv(s) && CompletesAreAcked(s)
    ensures Inv(Run(s, actions)) && CompletesAreAcked(Run(s, actions))
    decreases |actions|
  {
    if actions != [] {
      AckedIsSettled(s);
      StepKeepsInv(s, actions[0]);
      StepKeepsCompletes(s, actions[0]);
      RunKeepsCompletes(Step(s, actions[0]), actions[1..]);
    }
  }

  lemma MainNeedsStaleness(wk: Worker, a: MainAction, m: Eid)
    ensures var (next, e) := MainStep(wk, a);
            && (CanStillMark(next, m) ==> CanStillMark(wk, m))
            && (e == SetStatus(m, Running) ==> wk.phase == Started(m))
  {
  }

  /** While no worker is stale for it, a completed execution stays completed and no worker becomes stale for it. */
  lemma StepKeepsComplete(s: State, a: Action, m: Eid)
    requires Sound(s) && IsComplete(s, m) && !Stale(s, m)
    ensures IsComplete(Step(s, a), m) && !Stale(Step(s, a), m)
  {
    forall w | w in s.workers ensures s.workers[w].connected ==> Holding(s.workers[w].phase) != Some(m) {
      assert s.workers[w].connected && Holding(s.workers[w].phase) == Some(m) ==> WorksOn(s, w, m);
    }
    if a.Main? && a.w in s.workers {
      MainNeedsStaleness(s.workers[a.w], a.act, m);
      MainStepHasShape(s.workers[a.w], a.act);
    }
  }

  lemma {:induction false} RunKeepsComplete(s: State, actions: seq<Action>, m: Eid)
    requires Inv(s) && CompletesAreAcked(s) && IsComplete(s, m) && !Stale(s, m)
    ensures IsComplete(Run(s, actions), m)
    decreases |actions|
  {
    if actions != [] {
      AckedIsSettled(s);
      StepKeepsInv(s, actions[0]);
      StepKeepsCompletes(s, actions[0]);
      StepKeepsComplete(s, actions[0], m);
      RunKeepsComplete(Step(s, actions[0]), actions[1..], m);
    }
  }

  /** A stale worker's next steps take the execution back to RUNNING. */
  lemma StaleWorkerReopens(s: State, w: Wid, m: Eid) returns (more: seq<Action>)
    requires w in s.workers && CanStillMark(s.workers[w], m)
    ensures m in Run(s, more).status && Run(s, more).status[m].Running?
    decreases if s.workers[w].phase.Received? then 2 else if s.workers[w].phase.Preparing? then 1 else 0
  {
    var act := if s.workers[w].phase.Received? then TestAgain
               else if s.workers[w].phase.Preparing? then StartContainer else MarkRunning;
    var t := Step(s, Main(w, act));
    if act == MarkRunning {
      more := [Main(w, act)];
      assert Run(t, []) == t;
    } else {
      var rest := StaleWorkerReopens(t, w, m);
      more := [Main(w, act)] + rest;
    }
  }

  /**
   In any reachable state, a completed execution is completed for good exactly when no worker that lost its mailbox
   connection is still on its way to mark that execution RUNNING.
   */
  lemma CompleteIsFinalIffNotStale(actions: seq<Action>, m: Eid)
    requires IsComplete(Run(INIT, actions), m)
    ensures var s := Run(INIT, actions);
            (forall more :: IsComplete(Run(s, more), m)) <==> !Stale(s, m)
  {
    var s := Run(INIT, actions);
    RunKeepsCompletes(INIT, actions);
    if Stale(s, m) {
      var w :| w in s.workers && CanStillMark(s.workers[w], m);
      var more := StaleWorkerReopens(s, w, m);
      assert !IsComplete(Run(s, more), m);
    } else {
      forall more ensures IsComplete(Run(s, more), m) {
        RunKeepsComplete(s, more, m);
      }
    }
  }

  lemma CloseReturns(s: State, w: Wid, m: Eid)
    requires w in s.workers && s.workers[w].stopping == Some(true) && s.workers[w].phase == Preparing(m)
    requires s.unsettled == map[m := w]
    ensures var t := Step(s, CloseMailbox(w));
            && t.unsettled == map[] && t.queue == s.queue + multiset{m}
            && t.workers.Keys == s.workers.Keys && CanStillMark(t.workers[w], m)
  {
    assert HeldBy(s, w) == {m};
  }

  lemma CutOff(init: State, rest: State, w: Wid, wk: Worker, m: Eid) returns (t: State)
    requires Reaches(init, With(rest, w, wk)) && wk.phase == Preparing(m) && wk.stopping.None?
    requires rest.unsettled == map[m := w]
    ensures Reaches(init, t) && t.unsettled == map[] && t.queue == rest.queue + multiset{m}
    ensures t.workers.Keys == rest.workers.Keys + {w} && CanStillMark(t.workers[w], m)
  {
    var s := Go(init, With(rest, w, wk), HandleStop(w, true));
    t := Go(init, s, CloseMailbox(w));
    CloseReturns(s, w, m);
  }

  /**
   Such a state is reachable: a worker preparing message 0 handles a stop that deletes the mailbox and closes its
   connection; the broker gives the message to another worker, which completes it while the first one still lives.
   */
  lemma StaleAfterComplete() returns (s: State)
    ensures Reaches(INIT, s) && IsComplete(s, 0) && Stale(s, 0)
  {
    var ready := NEW_WORKER.(phase := AtTop);
    Stay(INIT);
    var rest := Post(INIT, INIT, 0);
    StartWorker(INIT, rest, 0);
    rest := ReceiveMessage(INIT, rest, 0, ready, 0);
    rest := CutOff(INIT, rest, 0, ready.(phase := Preparing(0)), 0);
    StartWorker(INIT, rest, 1);
    rest := ReceiveMessage(INIT, rest, 1, ready, 0);
    rest := ExecuteMessage(INIT, rest, 1, ready.(phase := Preparing(0)), 0);
    s := With(rest, 1, ready);
    assert CanStillMark(s.workers[0], 0);
  }

  /** Only a stop that deletes the mailbox cuts off a worker that lives on. */
  predicate Graceful(a: Action) {
    !(a.HandleStop? && a.deleteMailbox)
  }

  predicate NoneCutOff(s: State) {
    forall w :: w in s.workers ==>
      s.workers[w].stopping != Some(true) && (s.workers[w].connected || s.workers[w].phase.Gone?)
  }

  lemma GracefulStep(s: State, a: Action)
    requires NoneCutOff(s) && Graceful(a)
    ensures NoneCutOff(Step(s, a))
  {
    if a.Main? && a.w in s.workers {
      MainStepHasShape(s.workers[a.w], a.act);
      var (next, e) := MainStep(s.workers[a.w], a.act);
      assert s.workers[a.w].phase.Gone? ==> next == s.workers[a.w];
    }
  }

  lemma {:induction false} GracefulRun(s: State, actions: seq<Action>)
    requires NoneCutOff(s) && forall i :: 0 <= i < |actions| ==> Graceful(actions[i])
    ensures NoneCutOff(Run(s, actions))
    decreases |actions|
  {
    if actions != [] {
      GracefulStep(s, actions[0]);
      GracefulRun(Step(s, actions[0]), actions[1..]);
    }
  }

  /**
   Workers may be killed at any point and stopped for an update: as long as no stop deletes the mailbox, COMPLETE is
   permanent, and the message of a completed execution is acknowledged, so it is neither queued nor out for delivery.
   */
  lemma CompleteIsPermanent(actions: seq<Action>, more: seq<Action>, m: Eid)
    requires forall i :: 0 <= i < |actions| ==> Graceful(actions[i])
    requires IsComplete(Run(INIT, actions), m)
    ensures var s := Run(INIT, actions);
            && m in s.acked && m !in s.queue && m !in s.unsettled
            && IsComplete(Run(INIT, actions + more), m)
  {
    var s := Run(INIT, actions);
    GracefulRun(INIT, actions);
    RunKeepsCompletes(INIT, actions);
    assert s.queue[m] + One(m in s.unsettled) + One(m in s.acked) == One(m in s.posted);
    assert !Stale(s, m);
    RunKeepsComplete(s, more, m);
    RunConcat(INIT, actions, more);
  }
}

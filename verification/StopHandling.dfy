/**
 What a worker's main thread still does after its control thread has handled a stop (actors/worker.py,
 process_worker_ch and subscribe).
 */
module StopHandling {
  import opened Options
  import opened MessageDelivery

  /** A stop that came after Boot is never undone, and lets through no more than the container being prepared. */
  predicate StopObeyed(wk: Worker) {
    && (wk.stoppedIn.None? ==> wk.lateStarts == 0)
    && (wk.stoppedIn.Some? ==> wk.stopping.Some?)
    && (wk.stoppedIn.Some? && !wk.stoppedIn.value.Boot? ==>
          && !wk.keepRunning && !wk.phase.Boot?
          && (if wk.lateStarts == 0 then wk.phase.Preparing? ==> wk.stoppedIn == Some(wk.phase)
              else wk.lateStarts == 1 && wk.stoppedIn.value.Preparing? && !wk.phase.Waiting? && !BeforeStart(wk.phase)))
  }

  predicate StopsObeyed(s: State) {
    forall w :: w in s.workers ==> StopObeyed(s.workers[w])
  }

  lemma MainObeysStop(wk: Worker, a: MainAction)
    requires StopObeyed(wk)
    ensures StopObeyed(MainStep(wk, a).0)
  {
  }

  lemma StepObeysStops(s: State, a: Action)
    requires StopsObeyed(s)
    ensures StopsObeyed(Step(s, a))
  {
    if a.Main? && a.w in s.workers {
      MainObeysStop(s.workers[a.w], a.act);
    }
  }

  lemma {:induction false} RunObeysStops(s: State, actions: seq<Action>)
    requires StopsObeyed(s)
    ensures StopsObeyed(Run(s, actions))
    decreases |actions|
  {
    if actions != [] {
      StepObeysStops(s, actions[0]);
      RunObeysStops(Step(s, actions[0]), actions[1..]);
    }
  }

  /**
   After every run: a worker whose stop was handled past Boot has started at most one container since, and only if it
   was already preparing that one; a message it receives is given back to the queue and not executed.
   */
  lemma AtMostOneLateStart(actions: seq<Action>, w: Wid)
    requires w in Run(INIT, actions).workers && Run(INIT, actions).workers[w].stoppedIn.Some?
    requires !Run(INIT, actions).workers[w].stoppedIn.value.Boot?
    ensures var wk := Run(INIT, actions).workers[w];
            && wk.lateStarts <= 1
            && (wk.lateStarts == 1 ==> wk.stoppedIn.value.Preparing?)
            && (forall m :: wk.phase == Received(m) && wk.connected ==>
                  MainStep(wk, TestAgain) == (wk.(phase := Died), Requeue(m)))
  {
    RunObeysStops(INIT, actions);
  }

  // ---------------------------------------------------------------------------------------------
  // What is counted
  // ---------------------------------------------------------------------------------------------

  predicate Launches(s: State, a: Action, w: Wid) {
    a.Main? && a.w == w && w in s.workers && (a.act.Receive? ==> a.act.m in s.queue) &&
    MainStep(s.workers[w], a.act).1.Launch?
  }

  /** The executions whose containers one worker starts in a run, in order. */
  function LaunchedIn(s: State, actions: seq<Action>, w: Wid): seq<Eid>
    decreases |actions|
  {
    if actions == [] then []
    else
      (if Launches(s, actions[0], w) then [MainStep(s.workers[w], actions[0].act).1.m] else []) +
      LaunchedIn(Step(s, actions[0]), actions[1..], w)
  }

  predicate Stopped(s: State, w: Wid) {
    w in s.workers && s.workers[w].stopping.Some? && s.workers[w].stoppedIn.Some?
  }

  lemma MainCountsStarts(s: State, act: MainAction, w: Wid)
    requires Stopped(s, w) && (act.Receive? ==> act.m in s.queue)
    ensures var t := Step(s, Main(w, act));
            && Stopped(t, w) && t.workers[w].stoppedIn == s.workers[w].stoppedIn
            && t.workers[w].lateStarts == s.workers[w].lateStarts + One(Launches(s, Main(w, act), w))
  {
    MainStepHasShape(s.workers[w], act);
  }

  lemma OtherCountsNothing(s: State, a: Action, w: Wid)
    requires Stopped(s, w) && !Launches(s, a, w) && !(a.Main? && a.w == w)
    ensures var t := Step(s, a);
            && Stopped(t, w) && t.workers[w].stoppedIn == s.workers[w].stoppedIn
            && t.workers[w].lateStarts == s.workers[w].lateStarts
  {
  }

  lemma StepCountsStarts(s: State, a: Action, w: Wid)
    requires Stopped(s, w)
    ensures var t := Step(s, a);
            && Stopped(t, w) && t.workers[w].stoppedIn == s.workers[w].stoppedIn
            && t.workers[w].lateStarts == s.workers[w].lateStarts + One(Launches(s, a, w))
  {
    if a.Main? && a.w == w {
      if a.act.Receive? ==> a.act.m in s.queue {
        MainCountsStarts(s, a.act, w);
      }
    } else {
      OtherCountsNothing(s, a, w);
    }
  }

  /** A launch is a container start by this worker, and nothing else is. */
  lemma LaunchIsStart(s: State, a: Action, w: Wid, m: Eid)
    ensures Step(s, a).starts[(m, w)]
         == s.starts[(m, w)] + One(Launches(s, a, w) && MainStep(s.workers[w], a.act).1.m == m)
  {
  }

  /**
   Once a worker's stop has been handled, its late starts are its container starts in the rest of the run: so many, and
   of these executions.
   */
  lemma {:induction false} LateStartsAreCounted(s: State, actions: seq<Action>, w: Wid)
    requires Stopped(s, w)
    ensures var t := Run(s, actions);
            var launched := LaunchedIn(s, actions, w);
            && w in t.workers && t.workers[w].stoppedIn == s.workers[w].stoppedIn
            && t.workers[w].lateStarts == s.workers[w].lateStarts + |launched|
            && forall m :: t.starts[(m, w)] == s.starts[(m, w)] + multiset(launched)[m]
    decreases |actions|
  {
    if actions != [] {
      var a, next := actions[0], Step(s, actions[0]);
      var first := if Launches(s, a, w) then [MainStep(s.workers[w], a.act).1.m] else [];
      var rest := LaunchedIn(next, actions[1..], w);
      StepCountsStarts(s, a, w);
      LateStartsAreCounted(next, actions[1..], w);
      assert multiset(first + rest) == multiset(first) + multiset(rest);
      forall m ensures next.starts[(m, w)] == s.starts[(m, w)] + multiset(first)[m] {
        LaunchIsStart(s, a, w, m);
      }
    }
  }

  /** Out of Boot and with keep_running cleared: what is still started is what is being prepared. */
  predicate WindsDown(s: State, w: Wid) {
    w in s.workers && !s.workers[w].keepRunning && !s.workers[w].phase.Boot?
  }

  lemma MainWindsDown(s: State, act: MainAction, w: Wid)
    requires WindsDown(s, w)
    ensures var t := Step(s, Main(w, act));
            WindsDown(t, w) &&
            One(Launches(s, Main(w, act), w)) + One(t.workers[w].phase.Preparing?) <= One(s.workers[w].phase.Preparing?)
  {
  }

  lemma StepWindsDown(s: State, a: Action, w: Wid)
    requires WindsDown(s, w)
    ensures var t := Step(s, a);
            WindsDown(t, w) &&
            One(Launches(s, a, w)) + One(t.workers[w].phase.Preparing?) <= One(s.workers[w].phase.Preparing?)
  {
    if a.Main? && a.w == w {
      MainWindsDown(s, a.act, w);
    }
  }

  lemma {:induction false} ClearedLoopStartsAtMostOne(s: State, actions: seq<Action>, w: Wid)
    requires WindsDown(s, w)
    ensures |LaunchedIn(s, actions, w)| <= One(s.workers[w].phase.Preparing?)
    decreases |actions|
  {
    if actions != [] {
      StepWindsDown(s, actions[0], w);
      ClearedLoopStartsAtMostOne(Step(s, actions[0]), actions[1..], w);
    }
  }

  /** A force-quit ends the loop too: past Boot, unless a stop came first, only what is being prepared starts. */
  lemma ForceQuitEndsLoop(s: State, w: Wid, actions: seq<Action>)
    requires w in s.workers && !s.workers[w].phase.Boot? && s.workers[w].stopping.None?
    ensures |LaunchedIn(Step(s, HandleForceQuit(w)), actions, w)| <= One(s.workers[w].phase.Preparing?)
  {
    ClearedLoopStartsAtMostOne(Step(s, HandleForceQuit(w)), actions, w);
  }

  // ---------------------------------------------------------------------------------------------
  // A stop handled in Boot
  // ---------------------------------------------------------------------------------------------

  /** At the top of the loop again, after a stop handled in Boot and so many starts since. */
  function Overwritten(starts: nat): Worker {
    NEW_WORKER.(phase := AtTop, stopping := Some(false), stoppedIn := Some(Boot), lateStarts := starts)
  }

  lemma StopInBoot()
    ensures Reaches(INIT, With(INIT, 0, Overwritten(0)))
  {
    Stay(INIT);
    var s := Go(INIT, INIT, NewWorker(0));
    s := Go(INIT, s, HandleStop(0, false));
    var inBoot := NEW_WORKER.(keepRunning := false, stopping := Some(false), stoppedIn := Some(Boot));
    assert s == With(INIT, 0, inBoot);
    GoMain(INIT, INIT, 0, inBoot, Begin, Nothing, Overwritten(0));
  }

  lemma MessagePosted(before: State, m: Eid) returns (rest: State)
    requires Reaches(INIT, With(before, 0, Overwritten(m))) && m !in before.status && m !in before.posted
    ensures Reaches(INIT, With(rest, 0, Overwritten(m)))
    ensures rest == before.(status := before.status[m := Submitted], posted := before.posted + {m},
                            queue := before.queue + multiset{m})
  {
    var posted := Post(INIT, With(before, 0, Overwritten(m)), m);
    rest := posted.(workers := before.workers);
    assert posted == With(rest, 0, Overwritten(m));
  }

  lemma MessageReceived(before: State, m: Eid) returns (rest: State)
    requires Reaches(INIT, With(before, 0, Overwritten(m))) && m !in before.status && m !in before.posted
    requires before.queue == multiset{} && before.unsettled == map[]
    ensures Reaches(INIT, With(rest, 0, Overwritten(m).(phase := Preparing(m))))
    ensures rest == before.(status := before.status[m := Submitted], posted := before.posted + {m},
                            unsettled := map[m := 0])
  {
    rest := MessagePosted(before, m);
    rest := ReceiveMessage(INIT, rest, 0, Overwritten(m), m);
  }

  lemma OneMoreStart(before: State, m: Eid) returns (rest: State)
    requires Reaches(INIT, With(before, 0, Overwritten(m)))
    requires before.queue == multiset{} && before.unsettled == map[]
    requires forall k: Eid :: k >= m ==> k !in before.status && k !in before.posted
    ensures Reaches(INIT, With(rest, 0, Overwritten(m + 1)))
    ensures rest.queue == multiset{} && rest.unsettled == map[]
    ensures forall k: Eid :: k > m ==> k !in rest.status && k !in rest.posted
    ensures rest.starts == before.starts + multiset{(m, 0)}
  {
    rest := MessageReceived(before, m);
    rest := ExecuteMessage(INIT, rest, 0, Overwritten(m).(phase := Preparing(m)), m);
  }

  /**
   A stop handled in Boot is different: the main thread then sets keep_running itself.  For every n some run leads to a
   state in which that worker has started n containers since its stop, of the executions 0 to n - 1, and goes on.
   */
  lemma {:induction false} BootOverwritesStop(n: nat) returns (rest: State)
    ensures Reaches(INIT, With(rest, 0, Overwritten(n)))
    ensures rest.queue == multiset{} && rest.unsettled == map[]
    ensures forall m: Eid :: m >= n ==> m !in rest.status && m !in rest.posted
    ensures forall m: Eid :: rest.starts[(m, 0)] == One(m < n)
  {
    if n == 0 {
      StopInBoot();
      rest := INIT;
    } else {
      rest := BootOverwritesStop(n - 1);
      rest := OneMoreStart(rest, n - 1);
    }
  }

  /** In every run whose stop found the main thread in this phase, the worker has started at most so many since. */
  ghost predicate LateStartsWithin(p: Phase, bound: nat) {
    forall s, w :: Reaches(INIT, s) && w in s.workers && s.workers[w].stoppedIn == Some(p) ==>
                     s.workers[w].lateStarts <= bound
  }

  /** Late starts are bounded, and then by one, exactly when the stop did not find the main thread in Boot. */
  lemma LateStartsBoundedIff(p: Phase)
    ensures LateStartsWithin(p, 1) <==> p != Boot
    ensures (exists bound: nat :: LateStartsWithin(p, bound)) <==> p != Boot
  {
    if p == Boot {
      forall bound: nat ensures !LateStartsWithin(p, bound) {
        var rest := BootOverwritesStop(bound + 1);
        var s := With(rest, 0, Overwritten(bound + 1));
        assert s.workers[0].stoppedIn == Some(p) && s.workers[0].lateStarts == bound + 1;
      }
    } else {
      forall s, w | Reaches(INIT, s) && w in s.workers && s.workers[w].stoppedIn == Some(p)
        ensures s.workers[w].lateStarts <= 1
      {
        var actions :| Run(INIT, actions) == s;
        AtMostOneLateStart(actions, w);
      }
      assert LateStartsWithin(p, 1);
    }
  }

  // ---------------------------------------------------------------------------------------------
  // A stop while a container runs
  // ---------------------------------------------------------------------------------------------

  /** Wherever its main thread is, the end of a worker's process gives the message that it has back to the queue. */
  lemma KillReturnsMessage(s: State, w: Wid, m: Eid)
    requires w in s.workers && m in s.unsettled && s.unsettled[m] == w
    ensures var t := Step(s, Kill(w));
            && m in t.queue && m !in t.unsettled && (m, w) in t.returned && t.workers[w].phase.Gone?
            && t.acked == s.acked && t.status == s.status && t.starts == s.starts
  {
    assert m in HeldBy(s, w);
    assert (m, w) in (set k | k in HeldBy(s, w) :: (k, w));
  }

  lemma OneMessageReceived() returns (rest: State)
    ensures Reaches(INIT, With(rest, 0, NEW_WORKER.(phase := Preparing(0))))
    ensures rest == INIT.(status := map[0 := Submitted], posted := {0}, unsettled := map[0 := 0])
  {
    Stay(INIT);
    rest := Post(INIT, INIT, 0);
    StartWorker(INIT, rest, 0);
    rest := ReceiveMessage(INIT, rest, 0, NEW_WORKER.(phase := AtTop), 0);
  }

  lemma ContainerRuns(rest: State, wk: Worker) returns (s: State)
    requires Reaches(INIT, With(rest, 0, wk)) && wk.phase == Preparing(0) && wk.stoppedIn.None?
    ensures Reaches(INIT, s) && 0 in s.workers && s.workers[0] == wk.(phase := Supervising(0))
    ensures s.unsettled == rest.unsettled && s.acked == rest.acked
    ensures s.starts == rest.starts + multiset{(0, 0)} && s.status == rest.status[0 := Running]
  {
    var t := RunContainer(INIT, rest, 0, wk, 0);
    s := With(t, 0, wk.(phase := Supervising(0)));
  }

  lemma StopWhileRunning() returns (s: State)
    ensures Reaches(INIT, s) && 0 in s.workers && s.workers[0].stoppedIn == Some(Supervising(0))
    ensures s.starts == multiset{(0, 0)} && s.status == map[0 := Running]
    ensures s.unsettled == map[0 := 0] && s.acked == map[]
  {
    var rest := OneMessageReceived();
    s := ContainerRuns(rest, NEW_WORKER.(phase := Preparing(0)));
    s := Go(INIT, s, HandleStop(0, false));
  }

  /** So a stop may end the process while a container runs: the execution stays RUNNING, its message is queued again. */
  lemma ExecutionIsCutShort() returns (s: State)
    ensures Reaches(INIT, s) && 0 in s.workers && s.workers[0].stoppedIn == Some(Supervising(0))
    ensures s.workers[0].phase.Gone? && s.starts == multiset{(0, 0)} && s.status == map[0 := Running]
    ensures 0 in s.queue && 0 !in s.acked
  {
    s := StopWhileRunning();
    KillReturnsMessage(s, 0, 0);
    s := Go(INIT, s, Kill(0));
  }
}

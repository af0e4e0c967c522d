/**
 The two sequential programs that drive one worker's document (actors/spawner.py, process, start_worker and
 error_out_actor; actors/worker.py, process_worker_ch), run over the stored documents and the control channels.  What
 each leaves behind when nothing interferes is stated outright, and shown to be what steps of the protocol leave.
 */
module WorkerPrograms {
  import opened Options
  import opened WorkerRecords
  import opened WorkerLifecycle
  import opened WorkerControl

  datatype RunResult = TimedOut | RunFailed | RunSucceeded

  /** What a request to the client generator gives; a final refusal must not be retried. */
  datatype ClientReply = Granted | Refused(final: bool) | Raised

  datatype ClientResult = GotClient | GaveUp | Unhandled

  /** What the surroundings of one command do: the actor, the client generator, the docker daemon, the handshake. */
  datatype Fate = Fate(
    actorFound: bool, actorInError: bool, needsClient: bool, replies: nat -> ClientReply, pulled: bool,
    runs: nat -> RunResult, actorThere: bool, host: string, handshakeSent: bool, stopExisting: bool)

  const MAX_CLIENT_ATTEMPTS := 10

  /**
   The result of the attempts to generate an OAuth client, from one of them on.  A refusal that may be retried and a
   request that raises are tried again, up to 10 attempts; but when the first request raises, the code looks at a reply
   that it never had.
   */
  function Generation(replies: nat -> ClientReply, n: nat): ClientResult
    decreases MAX_CLIENT_ATTEMPTS - n
  {
    if n >= MAX_CLIENT_ATTEMPTS then GaveUp
    else match replies(n)
         case Granted => GotClient
         case Refused(final) => if final then GaveUp else Generation(replies, n + 1)
         case Raised => if n == 0 then Unhandled else Generation(replies, n + 1)
  }

  function ClientOf(f: Fate): ClientResult {
    if f.needsClient then Generation(f.replies, 0) else GotClient
  }

  /** The result of the attempts to run the worker container: only time-outs are tried again, up to 20 times. */
  function Attempt(runs: nat -> RunResult, n: nat): RunResult
    decreases MAX_ATTEMPTS + 1 - n
  {
    if n > MAX_ATTEMPTS || !runs(n).TimedOut? then (if n > MAX_ATTEMPTS then TimedOut else runs(n))
    else Attempt(runs, n + 1)
  }

  /** The document that a command leaves when no other process comes in between. */
  function Leaves(rec: Option<Record>, f: Fate): Option<Record> {
    if !f.actorFound || rec.None? then rec
    else if rec.value.status.Some? && IsShutdownStatus(rec.value.status.value) then None
    else if rec.value.status != Some(Requested) then rec
    else if f.actorInError || ClientOf(f).GaveUp? then None
    else if ClientOf(f).Unhandled? then Some(rec.value.(status := Some(SpawnerSetup)))
    else if !f.pulled || Attempt(f.runs, 0).RunFailed? then None
    else if Attempt(f.runs, 0).TimedOut? || !f.actorThere then Some(rec.value.(status := Some(CreatingContainer)))
    else Add(rec, f.host)
  }

  /** Whether the worker is added to the store as a running one. */
  predicate Adds(rec: Option<Record>, f: Fate) {
    f.actorFound && rec.Some? && rec.value.status == Some(Requested) && !f.actorInError && ClientOf(f).GotClient? &&
    f.pulled && Attempt(f.runs, 0).RunSucceeded? && f.actorThere
  }

  /** Whether its control thread gets started: the handshake went out as well. */
  predicate Starts(rec: Option<Record>, f: Fate) {
    Adds(rec, f) && f.handshakeSent
  }

  /**
   The workers that a command stops: after an update all others of the actor, and after a handshake that could not be
   sent all workers of the actor, the new one with them.
   */
  function Stopped(rec: Option<Record>, f: Fate, key: string, workers: set<string>): set<string> {
    if !Adds(rec, f) then {}
    else if !f.handshakeSent then workers
    else if f.stopExisting then workers - {key}
    else {}
  }

  // ---------------------------------------------------------------------------------------------
  // The spawner
  // ---------------------------------------------------------------------------------------------

  class SpawnerProgram {
    const store: WorkersStore
    const channels: ControlChannels
    const actor: string
    const key: string

    constructor (store: WorkersStore, channels: ControlChannels, actor: string, key: string)
      ensures this.store == store && this.channels == channels && this.actor == actor && this.key == key
    {
      this.store, this.channels, this.actor, this.key := store, channels, actor, key;
    }

    ghost function OtherDocs(): map<string, Record>
      reads store
    {
      store.docs - {key}
    }

    /** Exactly these workers got one stop each that keeps the mailbox; all other queues are as before. */
    twostate predicate Told(workers: set<string>)
      reads channels
    {
      forall k ::
        channels.Queue(k) == if k in workers then old(channels.Queue(k)) + [Stop(false)] else old(channels.Queue(k))
    }

    /** stop_workers: a stop for every worker of the actor that is not spared. */
    method StopWorkers(spared: set<string>)
      modifies channels
      ensures Told(store.WorkersOf(actor) - spared)
    {
      var left := store.WorkersOf(actor) - spared;
      while left != {}
        invariant left <= store.WorkersOf(actor) - spared
        invariant Told(store.WorkersOf(actor) - spared - left)
        decreases left
      {
        var k :| k in left;
        channels.Put(k, Stop(false));
        left := left - {k};
      }
    }

    method KillWorker()
      modifies store
      ensures store.Get(key) == None && OtherDocs() == old(OtherDocs())
    {
      var _ := store.DeleteWorker(key);
    }

    /** The loop that runs the worker container: a time-out is tried again, any other error is final. */
    method RunWorker(runs: nat -> RunResult) returns (result: RunResult)
      requires store.Get(key).Some? && store.Get(key).value.status == Some(PullingImage)
      modifies store
      ensures result == Attempt(runs, 0) && OtherDocs() == old(OtherDocs())
      ensures store.Get(key) ==
        if result.RunFailed? then None else Some(old(store.Get(key)).value.(status := Some(CreatingContainer)))
    {
      ghost var created := Some(store.Get(key).value.(status := Some(CreatingContainer)));
      var attempts := 0;
      while true
        invariant attempts <= MAX_ATTEMPTS && Attempt(runs, 0) == Attempt(runs, attempts)
        invariant store.Get(key) == if attempts == 0 then old(store.Get(key)) else created
        invariant OtherDocs() == old(OtherDocs())
        decreases MAX_ATTEMPTS - attempts
      {
        store.UpdateWorkerStatus(key, CreatingContainer);
        match runs(attempts) {
          case TimedOut =>
            attempts := attempts + 1;
            if attempts > MAX_ATTEMPTS {
              return TimedOut;
            }
          case RunFailed =>
            KillWorker();
            return RunFailed;
          case RunSucceeded =>
            return RunSucceeded;
        }
      }
    }

    /**
     error_out_actor, when its stop messages can be sent: for a running worker all workers of the actor are stopped, and
     the document of an unstarted one is deleted.
     */
    method ErrorOutActor()
      modifies store, channels
      ensures var rec := old(store.Get(key));
              store.Get(key) == if rec.Some? && UnstartedStatus(rec.value.status) then None else rec
      ensures OtherDocs() == old(OtherDocs())
      ensures var rec := old(store.Get(key));
              Told(if rec.Some? && RunningStatus(rec.value.status) then old(store.WorkersOf(actor)) else {})
      ensures var rec := old(store.Get(key));
              store.Get(key).None? <==>
                rec.None? || rec.value.status == Some(Requested) || rec.value.status == Some(SpawnerSetup) ||
                rec.value.status == Some(PullingImage)
      ensures var rec := old(store.Get(key));
              var running := rec.Some? && (rec.value.status == Some(UpdatingStore) || rec.value.status == Some(Ready) ||
                                           rec.value.status == Some(Busy));
              forall k ::
                channels.Queue(k)
                  == old(channels.Queue(k)) + if running && k in old(store.WorkersOf(actor)) then [Stop(false)] else []
    {
      var doc := store.Get(key);
      if doc.None? {
        return;
      }
      if RunningStatus(doc.value.status) {
        StopWorkers({});
      } else if UnstartedStatus(doc.value.status) {
        KillWorker();
      }
    }

    /** Runs the worker container and adds the worker to the store; any error ends in error_out_actor. */
    method StartWorker(f: Fate) returns (started: bool)
      requires store.Get(key).Some? && store.Get(key).value.status == Some(PullingImage)
      modifies store, channels
      ensures started <==> Attempt(f.runs, 0).RunSucceeded? && f.actorThere && f.handshakeSent
      ensures var rec := old(store.Get(key));
              store.Get(key) == if Attempt(f.runs, 0).RunFailed? then None
                                else if Attempt(f.runs, 0).RunSucceeded? && f.actorThere then Add(rec, f.host)
                                else Some(rec.value.(status := Some(CreatingContainer)))
      ensures OtherDocs() == old(OtherDocs())
      ensures Told(if Attempt(f.runs, 0).RunSucceeded? && f.actorThere && !f.handshakeSent
                   then old(store.WorkersOf(actor)) else {})
    {
      ghost var before := store.docs;
      var result := RunWorker(f.runs);
      if result.RunSucceeded? && f.actorThere {
        store.AddWorker(key, f.host);
        SameWorkers(before, store.docs, key, actor);
        if f.handshakeSent {
          return true;
        }
      }
      ErrorOutActor();
      started := false;
    }

    /** The attempts to generate an OAuth client. */
    method ClientGeneration(replies: nat -> ClientReply) returns (result: ClientResult)
      modifies store
      ensures result == Generation(replies, 0) && OtherDocs() == old(OtherDocs())
      ensures store.Get(key) == if result.GaveUp? then None else old(store.Get(key))
    {
      var attempts := 0;
      var replied := false;   // whether there is a reply to look at
      while true
        invariant attempts < MAX_CLIENT_ATTEMPTS && (replied <==> attempts > 0)
        invariant Generation(replies, 0) == Generation(replies, attempts)
        invariant store.docs == old(store.docs)
        decreases MAX_CLIENT_ATTEMPTS - attempts
      {
        var reply := replies(attempts);
        attempts := attempts + 1;
        if reply.Raised? {
          if attempts == MAX_CLIENT_ATTEMPTS {
            KillWorker();
            return GaveUp;
          }
          if !replied {
            return Unhandled;
          }
        } else if reply.Refused? {
          replied := true;
          if reply.final || attempts == MAX_CLIENT_ATTEMPTS {
            KillWorker();
            return GaveUp;
          }
        } else {
          return GotClient;
        }
      }
    }

    method PullAndStart(f: Fate) returns (started: bool)
      requires store.Get(key).Some? && store.Get(key).value.status == Some(SpawnerSetup)
      modifies store, channels
      ensures var result := Attempt(f.runs, 0);
              var rec := old(store.Get(key));
              (started <==> f.pulled && result.RunSucceeded? && f.actorThere && f.handshakeSent) &&
              store.Get(key) == if !f.pulled || result.RunFailed? then None
                                else if result.RunSucceeded? && f.actorThere then Add(rec, f.host)
                                else Some(rec.value.(status := Some(CreatingContainer)))
      ensures OtherDocs() == old(OtherDocs())
      ensures Told(if f.pulled && Attempt(f.runs, 0).RunSucceeded? && f.actorThere && !f.handshakeSent
                   then old(store.WorkersOf(actor)) else {})
    {
      ghost var before := store.docs;
      store.UpdateWorkerStatus(key, PullingImage);
      SameWorkers(before, store.docs, key, actor);
      if !f.pulled {
        ErrorOutActor();
        return false;
      }
      started := StartWorker(f);
    }

    /** A requested worker: the client, the image, and then the container. */
    method SetUp(f: Fate) returns (started: bool)
      requires store.Get(key).Some? && store.Get(key).value.status == Some(Requested) && f.actorFound && !f.actorInError
      modifies store, channels
      ensures store.Get(key) == Leaves(old(store.Get(key)), f)
      ensures started <==> Starts(old(store.Get(key)), f)
      ensures OtherDocs() == old(OtherDocs())
      ensures Told(Stopped(old(store.Get(key)), f, key, old(store.WorkersOf(actor))))
    {
      ghost var before := store.docs;
      store.UpdateWorkerStatus(key, SpawnerSetup);
      if f.needsClient {
        var client := ClientGeneration(f.replies);
        if !client.GotClient? {
          return false;
        }
      }
      SameWorkers(before, store.docs, key, actor);
      started := PullAndStart(f);
      if started && f.stopExisting {
        SameWorkers(before, store.docs, key, actor);
        StopWorkers({key});
      }
    }

    /** Processing one command from the command channel. */
    method Process(f: Fate) returns (started: bool)
      modifies store, channels
      ensures store.Get(key) == Leaves(old(store.Get(key)), f)
      ensures started <==> Starts(old(store.Get(key)), f)
      ensures OtherDocs() == old(OtherDocs())
      ensures Told(Stopped(old(store.Get(key)), f, key, old(store.WorkersOf(actor))))
      // In detail: the document goes exactly when shutdown was requested before, the actor is in error, no client can
      // be had, or the image cannot be pulled or the container cannot be run.
      ensures var rec := old(store.Get(key));
              store.Get(key).None? <==>
                rec.None? ||
                (f.actorFound &&
                 (rec.value.status == Some(ShutdownRequested) || rec.value.status == Some(ShuttingDown) ||
                  (rec.value.status == Some(Requested) &&
                   (f.actorInError || ClientOf(f).GaveUp? ||
                    (ClientOf(f).GotClient? && (!f.pulled || Attempt(f.runs, 0).RunFailed?))))))
      // What is left keeps its actor, and its status says how far the spawner came.
      ensures var rec := old(store.Get(key));
              store.Get(key).Some? ==>
                store.Get(key).value.actorId == rec.value.actorId &&
                (if !f.actorFound || rec.value.status != Some(Requested) then store.Get(key) == rec
                 else if ClientOf(f).Unhandled? then
                   store.Get(key).value.status == Some(SpawnerSetup) && store.Get(key).value.hostId == rec.value.hostId
                 else if !f.actorThere || Attempt(f.runs, 0).TimedOut? then
                   store.Get(key).value.status == Some(CreatingContainer) &&
                   store.Get(key).value.hostId == rec.value.hostId
                 else store.Get(key).value.status == Some(Ready) && store.Get(key).value.hostId == Some(f.host))
      // Workers are stopped only when this one was added: all of the actor's when its handshake could not be sent, all
      // others after an update.
      ensures var rec := old(store.Get(key));
              var added := f.actorFound && rec.Some? && rec.value.status == Some(Requested) && !f.actorInError &&
                           ClientOf(f).GotClient? && f.pulled && Attempt(f.runs, 0).RunSucceeded? && f.actorThere;
              (started <==> added && f.handshakeSent) &&
              forall k ::
                channels.Queue(k) == old(channels.Queue(k)) +
                  if added && k in old(store.WorkersOf(actor)) && (!f.handshakeSent || (f.stopExisting && k != key))
                  then [Stop(false)] else []
    {
      started := false;
      var doc := store.Get(key);
      if !f.actorFound || doc.None? {
        return;
      }
      var status := doc.value.status;
      if status != Some(Requested) {
        if status == Some(ShutdownRequested) || status == Some(ShuttingDown) {
          KillWorker();
        }
        return;
      }
      if f.actorInError {
        KillWorker();
        return;
      }
      started := SetUp(f);
    }
  }

  // ---------------------------------------------------------------------------------------------
  // The spawner's steps in the protocol
  // ---------------------------------------------------------------------------------------------

  function SpawnerRun(s: State, steps: seq<SpawnerAction>): State
    decreases |steps|
  {
    if steps == [] then s else SpawnerRun(SpawnerStep(s, steps[0]), steps[1..])
  }

  ghost predicate SpawnerReaches(s: State, t: State) {
    exists steps :: SpawnerRun(s, steps) == t
  }

  lemma {:induction false} SpawnerRunExtends(s: State, steps: seq<SpawnerAction>, a: SpawnerAction)
    ensures SpawnerRun(s, steps + [a]) == SpawnerStep(SpawnerRun(s, steps), a)
    decreases |steps|
  {
    if steps == [] {
      assert SpawnerRun(SpawnerStep(s, a), []) == SpawnerStep(s, a);
    } else {
      assert (steps + [a])[1..] == steps[1..] + [a];
      SpawnerRunExtends(SpawnerStep(s, steps[0]), steps[1..], a);
    }
  }

  lemma Next(s: State, t: State, a: SpawnerAction, next: State)
    requires SpawnerReaches(s, t) && SpawnerStep(t, a) == next
    ensures SpawnerReaches(s, next)
  {
    var steps :| SpawnerRun(s, steps) == t;
    SpawnerRunExtends(s, steps, a);
  }

  /** error_out_actor takes two steps, or one when the document is gone. */
  lemma ErrorOutSteps(s: State, t: State) returns (end: State)
    requires SpawnerReaches(s, t) && t.spawner.ErrorOut?
    ensures SpawnerReaches(s, end) && end.spawner.SpawnerDone? && end.handshake == t.handshake
    ensures end.rec == if t.rec.Some? && UnstartedStatus(t.rec.value.status) then None else t.rec
    ensures end.channel == t.channel +
              if Visible(t.rec) && RunningStatus(t.rec.value.status) then [Stop(false)] else []
  {
    var read := SpawnerStep(t, ErrorRead);
    Next(s, t, ErrorRead, read);
    end := SpawnerStep(read, ErrorAct(true));
    Next(s, read, ErrorAct(true), end);
  }

  /** The attempts from one of them on. */
  lemma {:induction false} AttemptSteps(s: State, t: State, runs: nat -> RunResult, n: nat) returns (end: State)
    requires SpawnerReaches(s, t) && t.spawner == Creating(n) && n <= MAX_ATTEMPTS
    requires t.rec.Some? && t.rec.value.status == Some(CreatingContainer)
    ensures SpawnerReaches(s, end)
    ensures end == match Attempt(runs, n)
                   case TimedOut => t.(spawner := ErrorOut)
                   case RunFailed => t.(rec := None, spawner := ErrorOut)
                   case RunSucceeded => t.(spawner := Launched)
    decreases MAX_ATTEMPTS - n
  {
    if runs(n).TimedOut? {
      var next := if n == MAX_ATTEMPTS then t.(spawner := ErrorOut) else t.(spawner := Creating(n + 1));
      Next(s, t, RunTimesOut(true), next);
      if n == MAX_ATTEMPTS {
        end := next;
      } else {
        end := AttemptSteps(s, next, runs, n + 1);
      }
    } else if runs(n).RunFailed? {
      end := t.(rec := None, spawner := ErrorOut);
      Next(s, t, RunFails, end);
    } else {
      end := t.(spawner := Launched);
      Next(s, t, RunSucceeds, end);
    }
  }

  /** From a running container on: the worker is added, and then the handshake goes out or not. */
  lemma AddSteps(s: State, t: State, f: Fate) returns (end: State)
    requires SpawnerReaches(s, t) && t.spawner.Launched? && !t.handshake && f.actorThere
    ensures SpawnerReaches(s, end) && end.spawner.SpawnerDone?
    ensures end.handshake == f.handshakeSent && end.rec == Add(t.rec, f.host)
    ensures end.channel == t.channel + if !f.handshakeSent && Visible(t.rec) then [Stop(false)] else []
  {
    var added := t.(rec := Add(t.rec, f.host), spawner := Added);
    Next(s, t, AddToStore(f.host), added);
    if f.handshakeSent {
      end := added.(spawner := SpawnerDone, handshake := true);
      Next(s, added, SendHandshake(true), end);
    } else {
      var lost := added.(spawner := ErrorOut);
      Next(s, added, SendHandshake(false), lost);
      end := ErrorOutSteps(s, lost);
    }
  }

  lemma StartSteps(s: State, t: State, f: Fate) returns (end: State)
    requires SpawnerReaches(s, t) && t.spawner == Creating(0) && !t.handshake
    requires t.rec.Some? && t.rec.value.status == Some(CreatingContainer)
    ensures SpawnerReaches(s, end) && end.spawner.SpawnerDone?
    ensures end.handshake <==> Attempt(f.runs, 0).RunSucceeded? && f.actorThere && f.handshakeSent
    ensures end.rec == if Attempt(f.runs, 0).RunFailed? then None
                       else if Attempt(f.runs, 0).RunSucceeded? && f.actorThere then Add(t.rec, f.host)
                       else t.rec
    ensures end.channel == t.channel +
              if Attempt(f.runs, 0).RunSucceeded? && f.actorThere && !f.handshakeSent && Visible(t.rec)
              then [Stop(false)] else []
  {
    var tried := AttemptSteps(s, t, f.runs, 0);
    if tried.spawner.Launched? {
      if f.actorThere {
        end := AddSteps(s, tried, f);
      } else {
        var lost := tried.(spawner := ErrorOut);
        Next(s, tried, LoseActor, lost);
        end := ErrorOutSteps(s, lost);
      }
    } else {
      end := ErrorOutSteps(s, tried);
    }
  }

  lemma PullSteps(s: State, t: State, f: Fate) returns (end: State)
    requires SpawnerReaches(s, t) && t.spawner.Pulling? && !t.handshake
    requires t.rec.Some? && t.rec.value.status == Some(PullingImage)
    ensures SpawnerReaches(s, end) && end.spawner.SpawnerDone?
    ensures var result := Attempt(f.runs, 0);
            (end.handshake <==> f.pulled && result.RunSucceeded? && f.actorThere && f.handshakeSent) &&
            end.rec == if !f.pulled || result.RunFailed? then None
                       else if result.RunSucceeded? && f.actorThere then Add(t.rec, f.host)
                       else Some(t.rec.value.(status := Some(CreatingContainer)))
    ensures end.channel == t.channel +
              if f.pulled && Attempt(f.runs, 0).RunSucceeded? && f.actorThere && !f.handshakeSent && Visible(t.rec)
              then [Stop(false)] else []
  {
    if f.pulled {
      var creating := t.(rec := Some(t.rec.value.(status := Some(CreatingContainer))), spawner := Creating(0));
      Next(s, t, Create(true), creating);
      end := StartSteps(s, creating, f);
    } else {
      Next(s, t, FailPull, t.(spawner := ErrorOut));
      end := ErrorOutSteps(s, t.(spawner := ErrorOut));
    }
  }

  lemma SetUpSteps(s: State, t: State, f: Fate) returns (end: State)
    requires SpawnerReaches(s, t) && t.spawner == Checked(Some(Requested)) && !t.handshake
    requires t.rec.Some? && t.rec.value.status == Some(Requested) && f.actorFound && !f.actorInError
    ensures SpawnerReaches(s, end) && end.spawner.SpawnerDone?
    ensures end.rec == Leaves(t.rec, f) && (end.handshake <==> Starts(t.rec, f))
    ensures end.channel == t.channel +
              if Adds(t.rec, f) && !f.handshakeSent && Visible(t.rec) then [Stop(false)] else []
  {
    var rec := t.rec.value;
    var setUp := t.(rec := Some(rec.(status := Some(SpawnerSetup))), spawner := Setup);
    Next(s, t, Decide(false, true), setUp);
    if ClientOf(f).GaveUp? {
      end := setUp.(rec := None, spawner := SpawnerDone);
      Next(s, setUp, FailClientGeneration, end);
    } else if ClientOf(f).Unhandled? {
      end := setUp.(spawner := SpawnerDone);
      Next(s, setUp, CrashInClientGeneration, end);
    } else {
      var pulling := t.(rec := Some(rec.(status := Some(PullingImage))), spawner := Pulling);
      Next(s, setUp, Pull(true), pulling);
      end := PullSteps(s, pulling, f);
    }
  }

  /** What the program leaves is what steps of the protocol's spawner leave, wherever the command still waits. */
  lemma ProcessIsARun(s: State, f: Fate) returns (end: State)
    requires s.spawner.Waiting? && !s.handshake
    ensures SpawnerReaches(s, end) && end.spawner.SpawnerDone?
    ensures end.rec == Leaves(s.rec, f) && (end.handshake <==> Starts(s.rec, f))
    ensures end.channel == s.channel +
              if Adds(s.rec, f) && !f.handshakeSent && Visible(s.rec) then [Stop(false)] else []
  {
    assert SpawnerRun(s, []) == s;
    if !f.actorFound || s.rec.None? {
      end := s.(spawner := SpawnerDone);
      Next(s, s, if f.actorFound then ReadDocument else FindNoActor, end);
    } else {
      var status := s.rec.value.status;
      var checked := s.(spawner := Checked(status));
      Next(s, s, ReadDocument, checked);
      if status == Some(Requested) && !f.actorInError {
        end := SetUpSteps(s, checked, f);
      } else {
        end := SpawnerStep(checked, Decide(f.actorInError, true));
        Next(s, checked, Decide(f.actorInError, true), end);
      }
    }
  }

  /** The result is that of the first attempt that did not time out. */
  lemma {:induction false} AttemptIsFirst(runs: nat -> RunResult, n: nat, result: RunResult)
    requires n <= MAX_ATTEMPTS + 1 && !result.TimedOut?
    ensures Attempt(runs, n) == result <==>
      exists k: nat :: n <= k <= MAX_ATTEMPTS && runs(k) == result && forall j :: n <= j < k ==> runs(j).TimedOut?
    decreases MAX_ATTEMPTS + 1 - n
  {
    if n <= MAX_ATTEMPTS && runs(n).TimedOut? {
      AttemptIsFirst(runs, n + 1, result);
    }
  }

  lemma {:induction false} AttemptTimesOut(runs: nat -> RunResult, n: nat)
    requires n <= MAX_ATTEMPTS + 1
    ensures Attempt(runs, n).TimedOut? <==> forall i :: n <= i <= MAX_ATTEMPTS ==> runs(i).TimedOut?
    decreases MAX_ATTEMPTS + 1 - n
  {
    if n <= MAX_ATTEMPTS && runs(n).TimedOut? {
      AttemptTimesOut(runs, n + 1);
    }
  }

  // ---------------------------------------------------------------------------------------------
  // Every run of the spawner
  // ---------------------------------------------------------------------------------------------

  /** The step is one that the surroundings allow here. */
  predicate Allowed(s: State, a: SpawnerAction, f: Fate) {
    match a
    case FindNoActor => !f.actorFound
    case ReadDocument => f.actorFound
    case Decide(actorInError, lands) => actorInError == f.actorInError && lands
    case FailClientGeneration => ClientOf(f).GaveUp?
    case CrashInClientGeneration => ClientOf(f).Unhandled?
    case Pull(lands) => ClientOf(f).GotClient? && lands
    case FailPull => !f.pulled
    case Create(lands) => f.pulled && lands
    case RunTimesOut(lands) => s.spawner.Creating? ==> f.runs(s.spawner.attempts).TimedOut? && lands
    case RunFails => s.spawner.Creating? ==> f.runs(s.spawner.attempts).RunFailed?
    case RunSucceeds => s.spawner.Creating? ==> f.runs(s.spawner.attempts).RunSucceeded?
    case LoseActor => !f.actorThere
    case AddToStore(host) => f.actorThere && host == f.host
    case SendHandshake(sent) => sent == f.handshakeSent
    case ErrorRead => true
    case ErrorAct(stopSent) => stopSent
  }

  predicate AllAllowed(s: State, steps: seq<SpawnerAction>, f: Fate)
    decreases |steps|
  {
    steps == [] || (Allowed(s, steps[0], f) && AllAllowed(SpawnerStep(s, steps[0]), steps[1..], f))
  }

  /** What the surroundings see of a state, and in the end what comes of the document, the handshake and the channel. */
  datatype End = End(rec: Option<Record>, handshake: bool, channel: seq<Msg>)

  function Now(s: State): End {
    End(s.rec, s.handshake, s.channel)
  }

  function ErrorEnd(e: End, status: Option<Status>): End {
    if RunningStatus(status) then
      e.(channel := if Visible(e.rec) then e.channel + [Stop(false)] else e.channel)
    else if UnstartedStatus(status) then e.(rec := None)
    else e
  }

  function ErrorOutEnd(e: End): End {
    if e.rec.None? then e else ErrorEnd(e, e.rec.value.status)
  }

  function AddedEnd(e: End, f: Fate): End {
    if f.handshakeSent then e.(handshake := true) else ErrorOutEnd(e)
  }

  function LaunchedEnd(e: End, f: Fate): End {
    if f.actorThere then AddedEnd(e.(rec := Add(e.rec, f.host)), f) else ErrorOutEnd(e)
  }

  function CreatingEnd(e: End, f: Fate, attempts: nat): End {
    match Attempt(f.runs, attempts)
    case TimedOut => ErrorOutEnd(e)
    case RunFailed => e.(rec := None)
    case RunSucceeded => LaunchedEnd(e, f)
  }

  function InStatus(e: End, status: Status): End
    requires e.rec.Some?
  {
    e.(rec := Some(e.rec.value.(status := Some(status))))
  }

  function PullingEnd(e: End, f: Fate): End
    requires e.rec.Some?
  {
    if f.pulled then CreatingEnd(InStatus(e, CreatingContainer), f, 0) else ErrorOutEnd(e)
  }

  function SetupEnd(e: End, f: Fate): End
    requires e.rec.Some?
  {
    match ClientOf(f)
    case GaveUp => e.(rec := None)
    case Unhandled => e
    case GotClient => PullingEnd(InStatus(e, PullingImage), f)
  }

  function CheckedEnd(e: End, f: Fate): End
    requires e.rec.Some?
  {
    var status := e.rec.value.status;
    if status == Some(ShutdownRequested) || status == Some(ShuttingDown) then e.(rec := None)
    else if status != Some(Requested) then e
    else if f.actorInError then e.(rec := None)
    else SetupEnd(InStatus(e, SpawnerSetup), f)
  }

  /** Undisturbed, the document is as the spawner's program counter says. */
  predicate OnTrack(s: State) {
    match s.spawner
    case Checked(seen) => s.rec.Some? && s.rec.value.status == seen
    case Setup => s.rec.Some? && s.rec.value.status == Some(SpawnerSetup)
    case Pulling => s.rec.Some? && s.rec.value.status == Some(PullingImage)
    case Creating(attempts) => s.rec.Some? && s.rec.value.status == Some(CreatingContainer) && attempts <= MAX_ATTEMPTS
    case ErrorSeen(status) => s.rec.Some? && s.rec.value.status == status
    case _ => true
  }

  function EndOf(s: State, f: Fate): End
    requires OnTrack(s)
  {
    match s.spawner
    case Waiting => if f.actorFound && s.rec.Some? then CheckedEnd(Now(s), f) else Now(s)
    case Checked(_) => CheckedEnd(Now(s), f)
    case Setup => SetupEnd(Now(s), f)
    case Pulling => PullingEnd(Now(s), f)
    case Creating(attempts) => CreatingEnd(Now(s), f, attempts)
    case Launched => LaunchedEnd(Now(s), f)
    case Added => AddedEnd(Now(s), f)
    case ErrorOut => ErrorOutEnd(Now(s))
    case ErrorSeen(status) => ErrorEnd(Now(s), status)
    case SpawnerDone => Now(s)
  }

  lemma WaitingStepKeepsEnd(s: State, a: SpawnerAction, f: Fate)
    requires OnTrack(s) && Allowed(s, a, f) && s.spawner.Waiting?
    ensures OnTrack(SpawnerStep(s, a)) && EndOf(SpawnerStep(s, a), f) == EndOf(s, f)
  {
  }

  lemma CheckedStepKeepsEnd(s: State, a: SpawnerAction, f: Fate)
    requires OnTrack(s) && Allowed(s, a, f) && s.spawner.Checked?
    ensures OnTrack(SpawnerStep(s, a)) && EndOf(SpawnerStep(s, a), f) == EndOf(s, f)
  {
  }

  lemma SetupStepKeepsEnd(s: State, a: SpawnerAction, f: Fate)
    requires OnTrack(s) && Allowed(s, a, f) && s.spawner.Setup?
    ensures OnTrack(SpawnerStep(s, a)) && EndOf(SpawnerStep(s, a), f) == EndOf(s, f)
  {
  }

  lemma PullingStepKeepsEnd(s: State, a: SpawnerAction, f: Fate)
    requires OnTrack(s) && Allowed(s, a, f) && s.spawner.Pulling?
    ensures OnTrack(SpawnerStep(s, a)) && EndOf(SpawnerStep(s, a), f) == EndOf(s, f)
  {
  }

  lemma CreatingStepKeepsEnd(s: State, a: SpawnerAction, f: Fate)
    requires OnTrack(s) && Allowed(s, a, f) && s.spawner.Creating?
    ensures OnTrack(SpawnerStep(s, a)) && EndOf(SpawnerStep(s, a), f) == EndOf(s, f)
  {
    var attempts := s.spawner.attempts;
    if f.runs(attempts).TimedOut? {
      assert Attempt(f.runs, attempts) == Attempt(f.runs, attempts + 1);
    }
  }

  lemma LateStepKeepsEnd(s: State, a: SpawnerAction, f: Fate)
    requires OnTrack(s) && Allowed(s, a, f)
    requires s.spawner.Launched? || s.spawner.Added? || s.spawner.ErrorOut? || s.spawner.ErrorSeen? ||
             s.spawner.SpawnerDone?
    ensures OnTrack(SpawnerStep(s, a)) && EndOf(SpawnerStep(s, a), f) == EndOf(s, f)
  {
  }

  lemma {:induction false} RunKeepsEnd(s: State, steps: seq<SpawnerAction>, f: Fate)
    requires OnTrack(s) && AllAllowed(s, steps, f)
    ensures OnTrack(SpawnerRun(s, steps)) && EndOf(SpawnerRun(s, steps), f) == EndOf(s, f)
    decreases |steps|
  {
    if steps != [] {
      match s.spawner {
        case Waiting => WaitingStepKeepsEnd(s, steps[0], f);
        case Checked(_) => CheckedStepKeepsEnd(s, steps[0], f);
        case Setup => SetupStepKeepsEnd(s, steps[0], f);
        case Pulling => PullingStepKeepsEnd(s, steps[0], f);
        case Creating(_) => CreatingStepKeepsEnd(s, steps[0], f);
        case _ => LateStepKeepsEnd(s, steps[0], f);
      }
      RunKeepsEnd(SpawnerStep(s, steps[0]), steps[1..], f);
    }
  }

  lemma EndOfWaiting(s: State, f: Fate)
    requires s.spawner.Waiting? && !s.handshake
    ensures EndOf(s, f).rec == Leaves(s.rec, f) && (EndOf(s, f).handshake <==> Starts(s.rec, f))
    ensures EndOf(s, f).channel == s.channel +
              if Adds(s.rec, f) && !f.handshakeSent && Visible(s.rec) then [Stop(false)] else []
  {
  }

  /**
   Every undisturbed run of the protocol's spawner that comes to its end in these surroundings leaves the document, the
   handshake and the channel that the program leaves.
   */
  lemma EveryRunEndsAlike(s: State, steps: seq<SpawnerAction>, f: Fate)
    requires s.spawner.Waiting? && !s.handshake && AllAllowed(s, steps, f) && SpawnerRun(s, steps).spawner.SpawnerDone?
    ensures var end := SpawnerRun(s, steps);
            end.rec == Leaves(s.rec, f) && (end.handshake <==> Starts(s.rec, f)) &&
            end.channel == s.channel +
              if Adds(s.rec, f) && !f.handshakeSent && Visible(s.rec) then [Stop(false)] else []
  {
    RunKeepsEnd(s, steps, f);
    EndOfWaiting(s, f);
  }

  lemma {:induction false} GenerationSucceeds(replies: nat -> ClientReply, n: nat)
    requires 0 < n <= MAX_CLIENT_ATTEMPTS
    ensures !Generation(replies, n).Unhandled?
    ensures Generation(replies, n).GotClient? <==>
      exists k: nat :: n <= k < MAX_CLIENT_ATTEMPTS && replies(k).Granted? &&
                       forall j :: n <= j < k ==> replies(j) != Refused(true)
    decreases MAX_CLIENT_ATTEMPTS - n
  {
    if n < MAX_CLIENT_ATTEMPTS && !replies(n).Granted? && replies(n) != Refused(true) {
      GenerationSucceeds(replies, n + 1);
    }
  }

  /**
   A client is generated exactly when one of the first 10 requests is granted, none before it is refused for good, and
   the first one does not raise; and the spawner crashes exactly when the first one raises.
   */
  lemma ClientIsGeneratedIff(replies: nat -> ClientReply)
    ensures Generation(replies, 0).Unhandled? <==> replies(0).Raised?
    ensures Generation(replies, 0).GotClient? <==>
      !replies(0).Raised? &&
      exists k: nat :: k < 10 && replies(k).Granted? &&
                       forall j :: 0 <= j < k ==> replies(j) != Refused(true)
  {
    if replies(0) == Refused(false) {
      GenerationSucceeds(replies, 1);
    }
  }

  /** A document is left in SPAWNER_SETUP exactly when the worker needs a client and the first request for it raises. */
  lemma LeftInSetUp(rec: Record, f: Fate)
    requires rec.status == Some(Requested)
    ensures Leaves(Some(rec), f) == Some(rec.(status := Some(SpawnerSetup)))
       <==> f.actorFound && !f.actorInError && f.needsClient && f.replies(0).Raised?
  {
    ClientIsGeneratedIff(f.replies);
  }

  /**
   When nothing interferes, a requested worker ends with its document in CREATING_CONTAINER, and no control thread to
   delete it, exactly when its actor was in order, any client was generated and the image pulled, and then all 21
   attempts to run its container timed out, or the actor disappeared meanwhile and no attempt failed otherwise.
   */
  lemma LeftInCreation(rec: Record, f: Fate)
    requires rec.status == Some(Requested)
    ensures Leaves(Some(rec), f) == Some(rec.(status := Some(CreatingContainer)))
       <==> f.actorFound && !f.actorInError && ClientOf(f).GotClient? && f.pulled &&
            ((forall n :: 0 <= n < 21 ==> f.runs(n).TimedOut?)
             || (!f.actorThere && !Attempt(f.runs, 0).RunFailed?))
  {
    AttemptTimesOut(f.runs, 0);
  }

  // ---------------------------------------------------------------------------------------------
  // The control thread
  // ---------------------------------------------------------------------------------------------

  predicate NoStop(queue: seq<Msg>) {
    forall i :: 0 <= i < |queue| ==> !queue[i].Stop?
  }

  lemma FirstStopIsHere(taken: seq<Msg>, stop: Msg, rest: seq<Msg>)
    requires NoStop(taken) && stop.Stop?
    ensures var queue := taken + [stop] + rest;
            && FirstStop(queue) == |taken| < |queue| && (Stop(true) in queue || Stop(false) in queue)
            && queue[..|taken|] == taken && queue[|taken|] == stop && queue[|taken| + 1..] == rest
  {
    var queue := taken + [stop] + rest;
    assert queue[|taken|] == stop && (stop == Stop(true) || stop == Stop(false));
    assert forall i :: 0 <= i < |taken| ==> queue[i] == taken[i];
  }

  lemma NoStopIsHere(queue: seq<Msg>)
    requires NoStop(queue)
    ensures FirstStop(queue) == |queue| && Stop(true) !in queue && Stop(false) !in queue && queue[..|queue|] == queue
  {
  }

  datatype ThreadEnd = StillListening | ThreadExited | ThreadCrashed

  /** What the thread makes of its document and its channel, when nothing interferes and no new message comes. */
  function ThreadEnds(queue: seq<Msg>, hasClient: bool, clientDeleted: bool): ThreadEnd {
    if FirstStop(queue) == |queue| then StillListening
    else if hasClient && !clientDeleted then ThreadCrashed
    else ThreadExited
  }

  class ControlThread {
    const store: WorkersStore
    const channels: ControlChannels
    const key: string
    const hasClient: bool
    var forceQuit: bool
    var keepRunning: bool   // the main thread's flag

    constructor (store: WorkersStore, channels: ControlChannels, key: string, hasClient: bool)
      ensures this.store == store && this.channels == channels && this.key == key && this.hasClient == hasClient
      ensures !forceQuit && keepRunning
    {
      this.store, this.channels, this.key, this.hasClient := store, channels, key, hasClient;
      forceQuit, keepRunning := false, true;
    }

    /** A stop: the status, the client, the document, the channel, and then the process ends. */
    method StopWorker(deleteMailbox: bool, clientDeleted: bool) returns (end: ThreadEnd)
      modifies this, store, channels
      ensures end == if hasClient && !clientDeleted then ThreadCrashed else ThreadExited
      ensures store.Get(key) == if end.ThreadExited? then None else UpdateStatus(old(store.Get(key)), ShuttingDown)
      ensures channels.Queue(key) == if end.ThreadExited? then [] else old(channels.Queue(key))
      ensures !keepRunning && (forceQuit <==> old(forceQuit) || deleteMailbox)
      ensures store.docs - {key} == old(store.docs) - {key} && channels.queues - {key} == old(channels.queues) - {key}
    {
      keepRunning := false;
      store.UpdateWorkerStatus(key, ShuttingDown);
      if deleteMailbox {
        forceQuit := true;
      }
      if hasClient && !clientDeleted {
        return ThreadCrashed;
      }
      var _ := store.DeleteWorker(key);
      channels.queues := channels.queues - {key};
      return ThreadExited;
    }

    method GetOne() returns (msg: Msg)
      requires channels.Queue(key) != []
      modifies channels
      ensures [msg] + channels.Queue(key) == old(channels.Queue(key))
      ensures channels.queues - {key} == old(channels.queues) - {key}
    {
      msg := channels.Queue(key)[0];
      channels.queues := channels.queues[key := channels.Queue(key)[1..]];
    }

    /** Takes messages until it has handled a stop or the channel is empty. */
    method ProcessWorkerCh(clientDeleted: bool) returns (end: ThreadEnd)
      modifies this, store, channels
      ensures end == ThreadEnds(old(channels.Queue(key)), hasClient, clientDeleted)
      ensures var queue := old(channels.Queue(key));
              end.StillListening? <==> Stop(true) !in queue && Stop(false) !in queue
      ensures !end.StillListening? ==> (end.ThreadCrashed? <==> hasClient && !clientDeleted)
      ensures store.Get(key) == match end
                                case StillListening => old(store.Get(key))
                                case ThreadExited => None
                                case ThreadCrashed => UpdateStatus(old(store.Get(key)), ShuttingDown)
      ensures channels.Queue(key) ==
        if end.ThreadCrashed? then old(channels.Queue(key))[FirstStop(old(channels.Queue(key))) + 1..] else []
      ensures var queue := old(channels.Queue(key));
              keepRunning <==> old(keepRunning) && end.StillListening? && ForceQuit !in queue
      ensures var queue := old(channels.Queue(key));
              var i := FirstStop(queue);
              forceQuit <==> old(forceQuit) || ForceQuit in queue[..i] || (i < |queue| && queue[i] == Stop(true))
      ensures store.docs - {key} == old(store.docs) - {key} && channels.queues - {key} == old(channels.queues) - {key}
    {
      ghost var queue := channels.Queue(key);
      ghost var taken: seq<Msg> := [];
      while channels.Queue(key) != []
        invariant taken + channels.Queue(key) == queue && NoStop(taken)
        invariant store.docs == old(store.docs) && channels.queues - {key} == old(channels.queues) - {key}
        invariant forceQuit <==> old(forceQuit) || ForceQuit in taken
        invariant keepRunning <==> old(keepRunning) && ForceQuit !in taken
        decreases |channels.Queue(key)|
      {
        var msg := GetOne();
        assert queue == taken + [msg] + channels.Queue(key);
        if msg.ForceQuit? {
          forceQuit, keepRunning := true, false;
        } else if msg.Stop? {
          FirstStopIsHere(taken, msg, channels.Queue(key));
          end := StopWorker(msg.deleteMailbox, clientDeleted);
          return;
        }
        taken := taken + [msg];
      }
      assert taken == queue;
      NoStopIsHere(queue);
      end := StillListening;
    }
  }

  function ThreadRun(s: State, steps: seq<WorkerAction>): State
    decreases |steps|
  {
    if steps == [] then s else ThreadRun(WorkerStep(s, steps[0]), steps[1..])
  }

  lemma StopSteps(s: State, clientDeleted: bool) returns (steps: seq<WorkerAction>)
    requires s.thread.Stopping?
    ensures var end := ThreadRun(s, steps);
            if s.hasClient && !clientDeleted then
              end.thread.Crashed? && end.rec == UpdateStatus(s.rec, ShuttingDown) && end.channel == s.channel
            else
              end.thread.Exited? && end.rec == None && end.channel == []
  {
    var marked := WorkerStep(s, MarkShuttingDown(true));
    if s.hasClient && !clientDeleted {
      steps := [MarkShuttingDown(true), DeleteClientFails];
      assert ThreadRun(marked, [DeleteClientFails]) == ThreadRun(WorkerStep(marked, DeleteClientFails), []);
    } else {
      var deleted := WorkerStep(marked, DeleteRecord);
      var silent := WorkerStep(deleted, DeleteControlChannel);
      steps := [MarkShuttingDown(true), DeleteRecord, DeleteControlChannel, Exit];
      assert steps[1..][1..][1..] == [Exit];
      assert ThreadRun(silent, [Exit]) == ThreadRun(WorkerStep(silent, Exit), []);
      assert ThreadRun(deleted, [DeleteControlChannel, Exit]) == ThreadRun(silent, [Exit]);
      assert ThreadRun(marked, [DeleteRecord, DeleteControlChannel, Exit])
          == ThreadRun(deleted, [DeleteControlChannel, Exit]);
    }
  }

  /** The step is one that the surroundings allow: the client is deleted or not, and status writes land. */
  predicate ThreadAllowed(s: State, a: WorkerAction, clientDeleted: bool) {
    match a
    case TakeMessage => true
    case MarkShuttingDown(lands) => lands
    case DeleteClientFails => !clientDeleted
    case DeleteRecord => !s.hasClient || clientDeleted
    case DeleteControlChannel | Exit => true
    case _ => false
  }

  predicate AllThreadAllowed(s: State, steps: seq<WorkerAction>, clientDeleted: bool)
    decreases |steps|
  {
    steps == [] ||
    (ThreadAllowed(s, steps[0], clientDeleted) && AllThreadAllowed(WorkerStep(s, steps[0]), steps[1..], clientDeleted))
  }

  /** What is left of the document and the channel at the end of the thread. */
  predicate ThreadLeaves(s: State, rec: Option<Record>, channel: seq<Msg>, clientDeleted: bool) {
    var crashes := s.hasClient && !clientDeleted;
    match s.thread
    case Listening => FirstStop(s.channel) < |s.channel| &&
      (if crashes then rec == UpdateStatus(s.rec, ShuttingDown) && channel == s.channel[FirstStop(s.channel) + 1..]
       else rec == None && channel == [])
    case Stopping(_) => if crashes then rec == UpdateStatus(s.rec, ShuttingDown) && channel == s.channel
                        else rec == None && channel == []
    case Marked => if crashes then rec == s.rec && channel == s.channel else rec == None && channel == []
    case RecordDeleted => rec == s.rec && channel == []
    case ChannelDeleted | Exited | Crashed => rec == s.rec && channel == s.channel
    case _ => false
  }

  predicate ThreadOnTrack(s: State) {
    (s.thread.RecordDeleted? || s.thread.ChannelDeleted? || s.thread.Exited? ==> s.rec == None) &&
    (s.thread.ChannelDeleted? || s.thread.Exited? ==> s.channel == [])
  }

  lemma ThreadStepKeepsLeaving(s: State, a: WorkerAction, rec: Option<Record>, channel: seq<Msg>, clientDeleted: bool)
    requires ThreadOnTrack(s) && ThreadAllowed(s, a, clientDeleted)
    requires ThreadLeaves(WorkerStep(s, a), rec, channel, clientDeleted)
    ensures ThreadOnTrack(WorkerStep(s, a)) && ThreadLeaves(s, rec, channel, clientDeleted)
  {
    if s.thread.Listening? && a.TakeMessage? && s.channel != [] && !s.channel[0].Stop? {
      assert s.channel[1..][FirstStop(s.channel[1..]) + 1..] == s.channel[FirstStop(s.channel) + 1..];
    }
  }

  lemma ThreadStepIsOnTrack(s: State, a: WorkerAction)
    requires ThreadOnTrack(s) && (a.TakeMessage? || a.MarkShuttingDown? || a.DeleteClientFails? || a.DeleteRecord? ||
                                  a.DeleteControlChannel? || a.Exit?)
    ensures ThreadOnTrack(WorkerStep(s, a))
  {
  }

  lemma {:induction false} ThreadRunLeaves(s: State, steps: seq<WorkerAction>, clientDeleted: bool)
    requires ThreadOnTrack(s) && AllThreadAllowed(s, steps, clientDeleted)
    requires ThreadRun(s, steps).thread.Exited? || ThreadRun(s, steps).thread.Crashed?
    ensures ThreadLeaves(s, ThreadRun(s, steps).rec, ThreadRun(s, steps).channel, clientDeleted)
    decreases |steps|
  {
    if steps != [] {
      var next := WorkerStep(s, steps[0]);
      ThreadStepIsOnTrack(s, steps[0]);
      ThreadRunLeaves(next, steps[1..], clientDeleted);
      ThreadStepKeepsLeaving(s, steps[0], ThreadRun(s, steps).rec, ThreadRun(s, steps).channel, clientDeleted);
    }
  }

  /**
   Every undisturbed run of the protocol's control thread that comes to its end has read up to the first stop and leaves
   what the program leaves.
   */
  lemma EveryThreadRunEndsAlike(s: State, steps: seq<WorkerAction>, clientDeleted: bool)
    requires s.thread.Listening? && AllThreadAllowed(s, steps, clientDeleted)
    requires ThreadRun(s, steps).thread.Exited? || ThreadRun(s, steps).thread.Crashed?
    ensures var end := ThreadRun(s, steps);
            FirstStop(s.channel) < |s.channel| &&
            if s.hasClient && !clientDeleted then
              end.rec == UpdateStatus(s.rec, ShuttingDown) && end.channel == s.channel[FirstStop(s.channel) + 1..]
            else end.rec == None && end.channel == []
  {
    ThreadRunLeaves(s, steps, clientDeleted);
  }

  /** The thread's steps in the protocol: it reads up to the first stop and tears its worker down. */
  lemma {:induction false} ThreadIsARun(s: State, clientDeleted: bool) returns (steps: seq<WorkerAction>)
    requires s.thread.Listening?
    ensures var end := ThreadRun(s, steps);
            match ThreadEnds(s.channel, s.hasClient, clientDeleted)
            case StillListening => end.thread.Listening? && end.rec == s.rec && end.channel == []
            case ThreadExited => end.thread.Exited? && end.rec == None && end.channel == []
            case ThreadCrashed =>
              end.thread.Crashed? && end.rec == UpdateStatus(s.rec, ShuttingDown) &&
              end.channel == s.channel[FirstStop(s.channel) + 1..]
    decreases |s.channel|
  {
    if s.channel == [] {
      steps := [];
    } else {
      var taken := WorkerStep(s, TakeMessage);
      if s.channel[0].Stop? {
        var stop := StopSteps(taken, clientDeleted);
        steps := [TakeMessage] + stop;
      } else {
        var rest := ThreadIsARun(taken, clientDeleted);
        steps := [TakeMessage] + rest;
      }
    }
  }
}

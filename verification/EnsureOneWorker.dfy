/**
 ensure_one_worker (actors/models.py, class Worker) requests a worker for an actor that has none.  It calls itself
 atomic, but it reads the actor's workers and then writes; here any number of calls run concurrently.
 */
module EnsureOneWorker {
  import opened WorkerRecords

  datatype Call = Reading | SawNone | Finished(requested: bool)

  /** The number of the actor's workers, and the calls. */
  datatype State = State(workers: nat, calls: seq<Call>)

  /** One step of a call: the read, or the request. */
  function Proceed(s: State, i: nat): State
    requires i < |s.calls|
  {
    match s.calls[i]
    case Reading => s.(calls := s.calls[i := if s.workers > 0 then Finished(false) else SawNone])
    case SawNone => State(s.workers + 1, s.calls[i := Finished(true)])
    case Finished(_) => s
  }

  predicate CanRun(s: State, steps: seq<nat>) {
    forall i :: 0 <= i < |steps| ==> steps[i] < |s.calls|
  }

  function Run(s: State, steps: seq<nat>): (t: State)
    requires CanRun(s, steps)
    ensures |t.calls| == |s.calls|
    decreases |steps|
  {
    if steps == [] then s else Run(Proceed(s, steps[0]), steps[1..])
  }

  /** So many calls, none of which has read yet, for an actor without workers. */
  function Start(n: nat): State {
    State(0, seq(n, _ => Reading))
  }

  predicate AllFinished(s: State) {
    forall i :: 0 <= i < |s.calls| ==> s.calls[i].Finished?
  }

  function Requests(calls: seq<Call>): nat {
    if calls == [] then 0 else (if calls[0] == Finished(true) then 1 else 0) + Requests(calls[1..])
  }

  lemma {:induction false} RequestsAfterChange(calls: seq<Call>, i: nat, call: Call)
    requires i < |calls| && calls[i] != Finished(true)
    ensures Requests(calls[i := call]) == Requests(calls) + if call == Finished(true) then 1 else 0
    decreases |calls|
  {
    if i > 0 {
      assert calls[i := call][1..] == calls[1..][i-1 := call];
      RequestsAfterChange(calls[1..], i - 1, call);
    }
  }

  lemma {:induction false} RequestsAreCalls(calls: seq<Call>)
    ensures Requests(calls) <= |calls|
    decreases |calls|
  {
    if calls != [] {
      RequestsAreCalls(calls[1..]);
    }
  }

  /** Every worker was requested by a call, and a call that has finished leaves one behind. */
  predicate Inv(s: State) {
    s.workers == Requests(s.calls) &&
    forall i :: 0 <= i < |s.calls| && s.calls[i].Finished? ==> s.workers > 0
  }

  lemma ProceedKeepsInv(s: State, i: nat)
    requires Inv(s) && i < |s.calls|
    ensures Inv(Proceed(s, i))
  {
    match s.calls[i]
    case Reading => RequestsAfterChange(s.calls, i, if s.workers > 0 then Finished(false) else SawNone);
    case SawNone => RequestsAfterChange(s.calls, i, Finished(true));
    case Finished(_) =>
  }

  lemma {:induction false} RunKeepsInv(s: State, steps: seq<nat>)
    requires Inv(s) && CanRun(s, steps)
    ensures Inv(Run(s, steps))
    decreases |steps|
  {
    if steps != [] {
      ProceedKeepsInv(s, steps[0]);
      RunKeepsInv(Proceed(s, steps[0]), steps[1..]);
    }
  }

  lemma {:induction false} StartRequestsNone(n: nat)
    ensures Requests(seq(n, _ => Reading)) == 0
    decreases n
  {
    if n > 0 {
      assert seq(n, _ => Reading)[1..] == seq(n - 1, _ => Reading);
      StartRequestsNone(n - 1);
    }
  }

  ghost predicate Reaches(s: State, t: State) {
    exists steps :: CanRun(s, steps) && Run(s, steps) == t
  }

  lemma Stay(s: State)
    ensures Reaches(s, s)
  {
    assert CanRun(s, []) && Run(s, []) == s;
  }

  lemma {:induction false} RunExtends(s: State, steps: seq<nat>, i: nat)
    requires CanRun(s, steps) && i < |s.calls|
    ensures CanRun(s, steps + [i]) && Run(s, steps + [i]) == Proceed(Run(s, steps), i)
    decreases |steps|
  {
    if steps == [] {
      assert Run(Proceed(s, i), []) == Proceed(s, i);
    } else {
      assert (steps + [i])[1..] == steps[1..] + [i];
      RunExtends(Proceed(s, steps[0]), steps[1..], i);
    }
  }

  lemma Go(s: State, t: State, i: nat, next: State)
    requires Reaches(s, t) && i < |t.calls| && Proceed(t, i) == next
    ensures Reaches(s, next)
  {
    var steps :| CanRun(s, steps) && Run(s, steps) == t;
    RunExtends(s, steps, i);
  }

  /** The first calls have read and seen no worker. */
  function Readers(n: nat, read: nat): State {
    State(0, seq(n, i => if i < read then SawNone else Reading))
  }

  lemma {:induction false} AllRead(n: nat, read: nat)
    requires read <= n
    ensures Reaches(Start(n), Readers(n, read))
    decreases read
  {
    if read == 0 {
      Stay(Start(n));
      assert Readers(n, 0).calls == Start(n).calls;
    } else {
      AllRead(n, read - 1);
      assert Proceed(Readers(n, read - 1), read - 1).calls == Readers(n, read).calls;
      Go(Start(n), Readers(n, read - 1), read - 1, Readers(n, read));
    }
  }

  /** The first k of n calls saw no worker; so many calls have finished since, and the first k of them requested one. */
  function Finishers(n: nat, k: nat, finished: nat): State {
    State(if finished < k then finished else k,
          seq(n, i => if i < finished then Finished(i < k) else if i < k then SawNone else Reading))
  }

  lemma {:induction false} AllFinish(n: nat, k: nat, finished: nat)
    requires 1 <= k <= n && finished <= n
    ensures Reaches(Start(n), Finishers(n, k, finished))
    decreases finished
  {
    if finished == 0 {
      AllRead(n, k);
      assert Finishers(n, k, 0).calls == Readers(n, k).calls;
    } else {
      AllFinish(n, k, finished - 1);
      var before, after := Finishers(n, k, finished - 1), Finishers(n, k, finished);
      assert Proceed(before, finished - 1).calls == after.calls;
      Go(Start(n), before, finished - 1, after);
    }
  }

  /**
   When n concurrent calls for an actor without workers have finished, and no worker was deleted meanwhile, they have
   requested at least one worker and at most n; and each of these numbers is possible.
   */
  lemma CallsRequestBetweenOneAndAll(n: nat, k: nat)
    requires n > 0
    ensures 1 <= k <= n <==> exists end :: Reaches(Start(n), end) && AllFinished(end) && end.workers == k
  {
    if 1 <= k <= n {
      AllFinish(n, k, n);
      assert AllFinished(Finishers(n, k, n));
    }
    forall end | Reaches(Start(n), end) && AllFinished(end) ensures 1 <= end.workers <= n {
      var steps :| CanRun(Start(n), steps) && Run(Start(n), steps) == end;
      StartRequestsNone(n);
      RunKeepsInv(Start(n), steps);
      RequestsAreCalls(end.calls);
      assert end.calls[0].Finished?;
    }
  }

  /** A call that is not interleaved with others: a worker is requested exactly when there was none. */
  method Ensure(store: WorkersStore, actor: string, key: string) returns (requested: bool)
    requires key !in store.docs
    modifies store
    ensures requested <==> old(store.WorkersOf(actor)) == {}
    ensures store.WorkersOf(actor) == if requested then {key} else old(store.WorkersOf(actor))
    ensures store.docs - {key} == old(store.docs) - {key}
  {
    requested := |store.WorkersOf(actor)| == 0;
    if requested {
      ghost var before := store.docs;
      store.RequestWorker(actor, key);
      assert forall k :: k in store.docs && k != key ==> k in before && store.docs[k] == before[k];
    }
  }
}
